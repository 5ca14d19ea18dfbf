/** Where outcomes come from, and how a dispatch looks for its session: each outcome was brought by a
    frame of the command's own worker or by the close of its session, and routing follows a route that can
    be followed and tries the scheduler at most twice. */
module DispatchOrigins {
  import opened Prelude
  import opened Text
  import opened SessionRuntime
  import opened Routes
  import opened Dispatch
  import opened DispatchDelivery
  import opened DispatchTheorems
  import opened DispatchHistory
  import opened DispatchNet
  import opened DispatchAnswers

  // ---------- Outcomes ----------

  /** The outcome is on its way to the command's owner, or has got there. */
  predicate Carried(st: State, k: string, o: Outcome) {
    || (k in st.cmds && (o in st.cmds[k].chan.buffer || o in st.cmds[k].received))
    || (k in st.owed && st.owed[k].outcome == Some(o))
  }

  /** The step brings the outcome: a frame of the command's session that says so, or the close of that
      session. */
  predicate Brings(st: State, a: Action, k: string, o: Outcome) {
    && k in st.cmds && a.Removal?
    && var s := st.cmds[k].s;
       match a.remove
       case ResultArrives(u, id, frame) => u == s && Trim(frame.commandID) == k && Says(frame, o)
       case CloseDrain(u) =>
         u == s && s in st.sess && st.sess[s].closedErr.Some? && o == SessionLost(st.sess[s].closedErr.value)
       case _ => false
  }

  lemma DeliverCarries(st: State, after: State, c: string, k: string, o: Outcome)
    requires c in st.cmds && st.cmds[c].chan.buffer != []
    requires after.cmds == Deliver(st, c).cmds && after.owed == st.owed && Carried(after, k, o)
    ensures Carried(st, k, o)
  {
    if k == c {
      assert st.cmds[c].chan.buffer == [st.cmds[c].chan.buffer[0]] + st.cmds[c].chan.buffer[1..];
    }
  }

  lemma FinishCarries(st: State, c: string, k: string, o: Outcome)
    requires c in st.owed && c in st.cmds && Carried(FinishEntry(st, c), k, o)
    ensures Carried(st, k, o)
  {
  }

  lemma ReleaseCarries(st: State, c: string, k: string, o: Outcome)
    requires c in st.owed && st.owed[c].s in st.sess && Carried(ReleaseEntry(st, c), k, o)
    ensures Carried(st, k, o)
  {
    hide Release;
  }

  lemma TakeCarries(st: State, after: State, s: Sid, c: string, via: Remover, outcome: Option<Outcome>, k: string,
                    o: Outcome)
    requires s in st.sess && c in st.sess[s].pending && c in st.cmds
    requires after.cmds == TakeEntry(st, s, c, via, outcome).cmds
    requires after.owed == TakeEntry(st, s, c, via, outcome).owed
    requires Carried(after, k, o)
    ensures Carried(st, k, o) || (k == c && outcome == Some(o))
  {
  }

  lemma DrainCarries(st: State, s: Sid, outcome: Option<Outcome>, k: string, o: Outcome)
    requires s in st.sess && Carried(TakeAll(st, s, outcome), k, o)
    ensures Carried(st, k, o) || (k in st.sess[s].pending && outcome == Some(o))
  {
  }

  lemma PendingIsOwn(st: State, s: Sid, k: string)
    requires Inv(st) && s in st.sess && k in st.sess[s].pending
    ensures k in st.cmds && st.cmds[k].s == s
  {
    assert PendingOk(st, s, k);
  }

  lemma RemovalBrings(st: State, e: RemoveStep, k: string, o: Outcome)
    requires Inv(st) && CanRemove(st, e) && Carried(Removed(st, e), k, o) && !Carried(st, k, o)
    ensures Brings(st, Removal(e), k, o)
  {
    hide Inv, Carried, TakeAll, TakeEntry, ReleaseEntry, FinishEntry, Says, Trim;
    match e
    case CloseDrain(s) =>
      DrainCarries(st, s, Some(SessionLost(st.sess[s].closedErr.value)), k, o);
      PendingIsOwn(st, s, k);
    case ResultArrives(s, id, frame) =>
      TakeCarries(st, Removed(st, e), s, id, ByResult, Some(OutcomeOf(frame)), k, o);
      PendingIsOwn(st, s, k);
      FramesSay(frame, o);
    case OwedRelease(c) => ReleaseCarries(st, c, k, o);
    case OwedFinish(c) => FinishCarries(st, c, k, o);
  }

  lemma ReplyBringsNothing(st: State, d: Did, r: ReplyStep, k: string, o: Outcome)
    requires d in st.disp && CanReply(st, d, r) && Carried(Replied(st, d, r), k, o)
    ensures Carried(st, k, o)
  {
    hide Carried, SettledRoutes, Cleared, Reroute, AfterUndo, TakeEntry, Deliver;
    var x, after := st.disp[d], Replied(st, d, r);
    if r.Settle? || r.UndoRoute? {
      ReroutingLeavesCommands(st, d, r);
      SameCarries(st, after, k, o);
    } else if r.Receive? && st.cmds[x.pc.cmd].chan.buffer != [] {
      DeliverCarriesOwed(st, x.pc.cmd);
      DeliverCarries(st, after, x.pc.cmd, k, o);
    } else if r.Unregister? && x.pc.cmd in st.sess[x.pc.s].pending {
      TakeCarries(st, after, x.pc.s, x.pc.cmd, ByUnregister, None, k, o);
    } else {
      match r { case WaitEnds => case Receive => case Unregister => case Leave => }
      SameCarries(st, after, k, o);
    }
  }

  lemma DeliverCarriesOwed(st: State, c: string)
    requires c in st.cmds && st.cmds[c].chan.buffer != []
    ensures Deliver(st, c).owed == st.owed
  {
  }

  lemma ReroutingLeavesCommands(st: State, d: Did, r: ReplyStep)
    requires d in st.disp && CanReply(st, d, r) && (r.Settle? || r.UndoRoute?)
    ensures Replied(st, d, r).cmds == st.cmds && Replied(st, d, r).owed == st.owed
  {
    hide SettledRoutes, Cleared, AfterUndo;
    match r { case Settle(n, f) => case UndoRoute => }
  }

  lemma SameCarries(st: State, after: State, k: string, o: Outcome)
    requires after.cmds == st.cmds && after.owed == st.owed
    ensures Carried(after, k, o) ==> Carried(st, k, o)
  {
  }

  lemma SendBringsNothing(st: State, d: Did, e: SendStep, k: string, o: Outcome)
    requires d in st.disp && CanSend(st, d, e) && Carried(Sent(st, d, e), k, o)
    ensures Carried(st, k, o)
  {
    hide Carried, AddEntry;
    var x, after := st.disp[d], Sent(st, d, e);
    if e.Register? && e.id != "" && !st.sess[x.pc.s].done {
      RegisterBringsNothing(st, after, x.pc.s, e.id, x.cap, d, k, o);
    } else {
      match e { case NoCommandID => case Register(id) => case EnqueueFails(r) => case EnqueueSucceeds => }
      SameCarries(st, after, k, o);
    }
  }

  lemma RegisterBringsNothing(st: State, after: State, s: Sid, id: string, cap: string, d: Did, k: string, o: Outcome)
    requires s in st.sess && id !in st.cmds && Carried(after, k, o)
    requires after.cmds == AddEntry(st, s, id, cap, d).cmds && after.owed == AddEntry(st, s, id, cap, d).owed
    ensures Carried(st, k, o)
  {
  }

  lemma LookLeavesOwed(st: State, d: Did, l: LookStep)
    requires d in st.disp && CanLook(st, d, l)
    ensures Looked(st, d, l).owed == st.owed
  {
    match l {
      case BeginPlain => case BeginTerminal(now) => case PickFails(r) => case FindSession => case ClearStale =>
    }
  }

  lemma ConnectLeavesOwed(st: State, e: ConnectStep)
    requires CanConnect(st, e)
    ensures Connected(st, e).owed == st.owed
  {
  }

  lemma SlotLeavesOwed(st: State, d: Did, t: SlotStep)
    requires d in st.disp && CanSlot(st, d, t)
    ensures Slotted(st, d, t).owed == st.owed
  {
    match t {
      case PickTakes(u) => case ReserveRoute(now) => case YieldSlot => case AcquireFound => case AbandonSlot =>
    }
  }

  lemma StepBrings(st: State, a: Action, k: string, o: Outcome)
    requires Inv(st) && Enabled(st, a) && Carried(Apply(st, a), k, o) && !Carried(st, k, o)
    ensures Brings(st, a, k, o)
  {
    hide Inv, Carried, Looked, Slotted, Sent, Replied, Connected, Removed, Brings;
    match a
    case Start(d, cap, tsid) => SameCarries(st, Apply(st, a), k, o);
    case Look(d, l) =>
      LookGives(st, d, l);
      LookLeavesOwed(st, d, l);
      SameCarries(st, Apply(st, a), k, o);
    case Slot(d, t) =>
      SlotGives(st, d, t);
      SlotLeavesOwed(st, d, t);
      SameCarries(st, Apply(st, a), k, o);
    case Send(d, e) => SendBringsNothing(st, d, e, k, o);
    case Answering(d, r) => ReplyBringsNothing(st, d, r, k, o);
    case Connection(e) =>
      ConnectGives(st, e);
      ConnectLeavesOwed(st, e);
      SameCarries(st, Apply(st, a), k, o);
    case Removal(e) => RemovalBrings(st, e, k, o);
  }

  /** Each outcome was brought at some step, by the worker session the command was registered with. */
  lemma {:induction false} OutcomesAreBrought(trace: seq<State>, actions: seq<Action>, j: nat, k: string, o: Outcome)
    returns (i: nat)
    requires Run(trace, actions) && j < |trace| && Carried(trace[j], k, o)
    ensures i < j && Brings(trace[i], actions[i], k, o)
  {
    hide Inv, Enabled, Apply, Brings;
    if Carried(trace[j - 1], k, o) {
      i := OutcomesAreBrought(trace, actions, j - 1, k, o);
    } else {
      i := j - 1;
      RunKeepsInv(trace, actions, i);
      StepBrings(trace[i], actions[i], k, o);
    }
  }

  /** A dispatch returns an answer, or a failure of its command, only if the session with which it had
      registered a command sent a frame for that command that says so; it reports a lost session only if
      that session was closed for this reason. */
  lemma RepliesComeFromTheWorker(trace: seq<State>, actions: seq<Action>, j: nat, d: Did, o: Outcome)
    returns (k: string, i: nat)
    requires Run(trace, actions) && j < |trace| && d in trace[j].disp && trace[j].disp[d].pc == Returned(Got(o))
    ensures k in trace[j].cmds && trace[j].cmds[k].owner == d && trace[j].cmds[k].received == [o]
    ensures i < j && Brings(trace[i], actions[i], k, o)
  {
    ReturnsWhatItReceived(trace, actions, j, d, o);
    k :| k in trace[j].cmds && trace[j].cmds[k].owner == d && trace[j].cmds[k].received == [o];
    hide Run, Brings;
    assert o in trace[j].cmds[k].received;
    i := OutcomesAreBrought(trace, actions, j, k, o);
  }

  // ---------- Following routes ----------

  /** How a dispatch reads its route: it goes for the route's node if there is a route, and there for the
      node's current session exactly if that offers the capability; a stale route is cleared only while it
      names the node that was found wanting. */
  predicate FollowsRoute(st: State, after: State, d: Did, l: LookStep) {
    && d in st.disp && d in after.disp
    && var x, y := st.disp[d], after.disp[d];
       match l
       case BeginTerminal(_) =>
         if x.tsid in st.routes then y.pc == Find(st.routes[x.tsid].nodeID, Sticky) else y.pc == Pick(First)
       case FindSession =>
         x.pc.Find?
         && if Reachable(st, x.pc.node, x.cap) then y.pc == Acquiring(st.current[x.pc.node], x.pc.node, x.pc.lookup)
            else y.pc == (if x.pc.lookup.AfterRetry? then Returned(NoWorker) else Stale(x.pc.node, x.pc.lookup))
       case ClearStale =>
         && x.pc.Stale? && y.pc == Pick(if x.pc.lookup.Sticky? then First else Retry)
         && (x.tsid in st.routes ==>
               (x.tsid !in after.routes <==> st.routes[x.tsid].nodeID == x.pc.node || x.pc.node == ""))
       case _ => true
  }

  lemma LookFollows(st: State, d: Did, l: LookStep)
    requires d in st.disp && CanLook(st, d, l)
    ensures FollowsRoute(st, Looked(st, d, l), d, l)
  {
    hide EpochOf;
    match l {
      case BeginPlain => case BeginTerminal(now) => case PickFails(r) => case FindSession => case ClearStale =>
    }
  }

  /** In every run a dispatch with a terminal session follows its route so. */
  lemma RoutesAreFollowed(trace: seq<State>, actions: seq<Action>, i: nat, d: Did)
    requires Run(trace, actions) && i < |actions| && actions[i].Look? && actions[i].d == d
    ensures FollowsRoute(trace[i], trace[i + 1], d, actions[i].look)
  {
    hide Looked, Slotted, Sent, Replied, Connected, Removed, FollowsRoute;
    assert Enabled(trace[i], actions[i]) && trace[i + 1] == Apply(trace[i], actions[i]);
    LookFollows(trace[i], d, actions[i].look);
  }

  // ---------- Two tries ----------

  /** How often the dispatch has had the scheduler pick for it. */
  function Tries(actions: seq<Action>, i: nat, d: Did): nat
    requires i <= |actions|
  {
    if i == 0 then 0
    else
      var a := actions[i - 1];
      Tries(actions, i - 1, d) + if a.Slot? && a.d == d && a.slot.PickTakes? then 1 else 0
  }

  function AfterAttempt(attempt: Attempt): nat {
    if attempt.Retry? then 2 else 1
  }

  function AfterLookup(lookup: Lookup): nat {
    match lookup
    case Sticky => 0
    case AfterFirst => 1
    case AfterRetry => 2
  }

  /** The number of tries that a point of the program stands for. */
  predicate TriedAs(pc: Pc, tries: nat) {
    match pc
    case Entry => tries == 0
    case Pick(attempt) => tries == if attempt.Retry? then 1 else 0
    case Reserving(_, attempt) => tries == AfterAttempt(attempt)
    case Yielding(_, _, attempt) => tries == AfterAttempt(attempt)
    case Find(_, lookup) => tries == AfterLookup(lookup)
    case Acquiring(_, _, lookup) => tries == AfterLookup(lookup)
    case Stale(_, lookup) => tries == AfterLookup(lookup) < 2
    case _ => tries <= 2
  }

  lemma LookTries(st: State, d: Did, l: LookStep, tries: nat)
    requires d in st.disp && CanLook(st, d, l) && TriedAs(st.disp[d].pc, tries)
    ensures d in Looked(st, d, l).disp && TriedAs(Looked(st, d, l).disp[d].pc, tries)
  {
    hide Touched, Cleared, Reroute;
    match l {
      case BeginPlain => case BeginTerminal(now) => case PickFails(r) => case FindSession => case ClearStale =>
    }
  }

  lemma SlotTries(st: State, d: Did, t: SlotStep, tries: nat)
    requires d in st.disp && CanSlot(st, d, t) && TriedAs(st.disp[d].pc, tries)
    ensures d in Slotted(st, d, t).disp
    ensures TriedAs(Slotted(st, d, t).disp[d].pc, tries + if t.PickTakes? then 1 else 0)
  {
    hide Acquire, Release, CanAcquire, Reroute;
    match t {
      case PickTakes(u) => case ReserveRoute(now) => case YieldSlot => case AcquireFound => case AbandonSlot =>
    }
  }

  lemma PastTries(x: Pc, y: Pc, tries: nat)
    requires Past(x) && Past(y) && TriedAs(x, tries)
    ensures TriedAs(y, tries)
  {
  }

  lemma StepTries(st: State, a: Action, d: Did, tries: nat)
    requires Enabled(st, a) && d in st.disp && TriedAs(st.disp[d].pc, tries)
    ensures d in Apply(st, a).disp
    ensures TriedAs(Apply(st, a).disp[d].pc, tries + if a.Slot? && a.d == d && a.slot.PickTakes? then 1 else 0)
  {
    hide Looked, Slotted, Sent, Replied, TriedAs, Past;
    if StepOf(a, d) {
      match a
      case Look(_, l) => LookTries(st, d, l, tries);
      case Slot(_, t) => SlotTries(st, d, t, tries);
      case Send(_, e) =>
        SendGoes(st, d, e);
        PastTries(st.disp[d].pc, Apply(st, a).disp[d].pc, tries);
      case Answering(_, r) =>
        ReplyGoes(st, d, r);
        PastTries(st.disp[d].pc, Apply(st, a).disp[d].pc, tries);
    } else {
      hide Apply, Enabled;
      OthersLeaveIt(st, a, d);
    }
  }

  lemma EntryIsUntried()
    ensures TriedAs(Entry, 0)
  {
  }

  lemma {:induction false} TriesAreCounted(trace: seq<State>, actions: seq<Action>, i: nat, d: Did)
    requires Run(trace, actions) && i < |trace|
    ensures if d in trace[i].disp then TriedAs(trace[i].disp[d].pc, Tries(actions, i, d)) else Tries(actions, i, d) == 0
  {
    hide Enabled, Apply, TriedAs, Moves;
    if i > 0 {
      TriesAreCounted(trace, actions, i - 1, d);
      if d in trace[i - 1].disp {
        StepTries(trace[i - 1], actions[i - 1], d, Tries(actions, i - 1, d));
      } else {
        RunMoves(trace, actions, i - 1, d);
        EntryIsUntried();
        StrangersDoNotTry(trace[i - 1], actions[i - 1], d);
      }
    }
  }

  lemma StrangersDoNotTry(st: State, a: Action, d: Did)
    requires Enabled(st, a) && d !in st.disp
    ensures !StepOf(a, d)
  {
  }

  /** A dispatch has the scheduler pick at most twice, and says "no worker" for a stale route only after the
      second time. */
  lemma NoWorkerTakesTwoTries(trace: seq<State>, actions: seq<Action>, i: nat, d: Did)
    requires Run(trace, actions) && i < |actions| && d in trace[i].disp && Enabled(trace[i], actions[i])
    ensures Tries(actions, i, d) <= 2
    ensures actions[i] == Look(d, FindSession) && Decides(trace[i], actions[i], d) == Some(NoWorker) ==>
              Tries(actions, i, d) == 2
  {
    hide Apply, Tries;
    TriesAreCounted(trace, actions, i, d);
  }
}
