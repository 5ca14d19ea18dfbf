/** What a dispatch answers. Each reply is decided by one step of the dispatch, from what that step
    finds, and is what the dispatch then returns: a received outcome, the end of the caller's context,
    or the reason why no worker was found, registered or reached. */
module DispatchAnswers {
  import opened Prelude
  import opened SessionRuntime
  import opened Routes
  import opened Dispatch
  import opened DispatchDelivery
  import opened DispatchTheorems
  import opened DispatchHistory
  import opened DispatchNet

  // ---------- Deciding ----------

  /** The reply that a point of the program is committed to. */
  function Verdict(pc: Pc): Option<Reply> {
    match pc
    case Abandoning(_, _, reply) => Some(reply)
    case Undoing(_, _, _, reply) => Some(reply)
    case Settling(_, _, outcome) => Some(Got(outcome))
    case Unregistering(_, _, reply) => Some(reply)
    case Leaving(_, reply) => Some(reply)
    case Returned(reply) => Some(reply)
    case _ => None
  }

  predicate Reachable(st: State, node: string, cap: string) {
    node in st.current && st.current[node] in st.sess && cap in st.sess[st.current[node]].caps
  }

  /** The reply that the dispatcher's own step decides, given what it finds. */
  function Decides(st: State, a: Action, d: Did): Option<Reply>
    requires Enabled(st, a) && d in st.disp
  {
    if !StepOf(a, d) then None
    else
      var x := st.disp[d];
      match a
      case Look(_, PickFails(reply)) => Some(reply)
      case Look(_, FindSession) =>
        if x.pc.lookup.AfterRetry? && !Reachable(st, x.pc.node, x.cap) then Some(NoWorker) else None
      case Slot(_, AcquireFound) => if CanAcquire(st.sess[x.pc.s].caps, x.cap) then None else Some(NoCapacity)
      case Send(_, NoCommandID) => Some(Internal)
      case Send(_, Register(id)) =>
        if id == "" then Some(Internal) else if st.sess[x.pc.s].done then Some(Unavailable) else None
      case Send(_, EnqueueFails(reply)) => Some(reply)
      case Answering(_, WaitEnds) => Some(ContextEnded)
      case Answering(_, Receive) =>
        if st.cmds[x.pc.cmd].chan.buffer == [] then None else Some(Got(st.cmds[x.pc.cmd].chan.buffer[0]))
      case _ => None
  }

  /** One step: a decision is made once, and then kept. */
  predicate Commits(before: Pc, after: Pc, decision: Option<Reply>) {
    && Verdict(after) == (if decision.Some? then decision else Verdict(before))
    && (decision.Some? ==> Verdict(before) == None)
    && (before.Waiting? && decision.None? ==> after == before)
  }

  lemma LookCommits(st: State, d: Did, l: LookStep)
    requires d in st.disp && CanLook(st, d, l)
    ensures d in Looked(st, d, l).disp
    ensures Commits(st.disp[d].pc, Looked(st, d, l).disp[d].pc, Decides(st, Look(d, l), d))
  {
    hide Touched, Cleared, Reroute;
    match l {
      case BeginPlain => case BeginTerminal(now) => case PickFails(r) => case FindSession => case ClearStale =>
    }
  }

  lemma SlotCommits(st: State, d: Did, t: SlotStep)
    requires d in st.disp && CanSlot(st, d, t)
    ensures d in Slotted(st, d, t).disp
    ensures Commits(st.disp[d].pc, Slotted(st, d, t).disp[d].pc, Decides(st, Slot(d, t), d))
  {
    hide Acquire, Release, CanAcquire, Reroute;
    match t {
      case PickTakes(u) => case ReserveRoute(now) => case YieldSlot => case AcquireFound => case AbandonSlot =>
    }
  }

  lemma SendCommits(st: State, d: Did, e: SendStep)
    requires d in st.disp && CanSend(st, d, e)
    ensures d in Sent(st, d, e).disp
    ensures Commits(st.disp[d].pc, Sent(st, d, e).disp[d].pc, Decides(st, Send(d, e), d))
  {
    hide AddEntry;
    match e { case NoCommandID => case Register(id) => case EnqueueFails(r) => case EnqueueSucceeds => }
  }

  lemma ReplyCommits(st: State, d: Did, r: ReplyStep)
    requires d in st.disp && CanReply(st, d, r) && (r.Receive? ==> st.cmds[st.disp[d].pc.cmd].chan.buffer != [])
    ensures d in Replied(st, d, r).disp
    ensures Commits(st.disp[d].pc, Replied(st, d, r).disp[d].pc, Decides(st, Answering(d, r), d))
  {
    hide SettledRoutes, Cleared, Reroute, TakeEntry, Deliver;
    if r.Settle? || r.UndoRoute? {
      match r { case Settle(n, f) => case UndoRoute => }
    } else {
      PlainReplyCommits(st, d, r);
    }
  }

  lemma PlainReplyCommits(st: State, d: Did, r: ReplyStep)
    requires d in st.disp && CanReply(st, d, r) && (r.Receive? ==> st.cmds[st.disp[d].pc.cmd].chan.buffer != [])
    requires !r.Settle? && !r.UndoRoute?
    ensures d in Replied(st, d, r).disp
    ensures Commits(st.disp[d].pc, Replied(st, d, r).disp[d].pc, Decides(st, Answering(d, r), d))
  {
    hide TakeEntry, Deliver;
    match r { case WaitEnds => case Receive => case Unregister => case Leave => }
  }

  lemma StepCommits(st: State, a: Action, d: Did)
    requires Inv(st) && Enabled(st, a) && d in st.disp
    ensures d in Apply(st, a).disp
    ensures Commits(st.disp[d].pc, Apply(st, a).disp[d].pc, Decides(st, a, d))
  {
    if StepOf(a, d) {
      hide Inv, Looked, Slotted, Sent, Replied, Commits, Decides, Honest;
      match a
      case Look(_, l) => LookCommits(st, d, l);
      case Slot(_, t) => SlotCommits(st, d, t);
      case Send(_, e) => SendCommits(st, d, e);
      case Answering(_, r) =>
        if r.Receive? {
          BufferedIsMine(st, d);
        }
        ReplyCommits(st, d, r);
    } else {
      hide Inv, Apply, Enabled;
      OthersLeaveIt(st, a, d);
    }
  }

  lemma RunCommits(trace: seq<State>, actions: seq<Action>, k: nat, d: Did)
    requires Run(trace, actions) && k < |actions| && d in trace[k].disp
    ensures Enabled(trace[k], actions[k]) && d in trace[k + 1].disp
    ensures Commits(trace[k].disp[d].pc, trace[k + 1].disp[d].pc, Decides(trace[k], actions[k], d))
  {
    hide Inv, Apply, Commits, Decides;
    RunKeepsInv(trace, actions, k);
    StepCommits(trace[k], actions[k], d);
  }

  /** The step at `k` decides the dispatcher's reply. */
  predicate DecidesAt(trace: seq<State>, actions: seq<Action>, k: nat, d: Did, reply: Reply)
    requires k < |trace| && k < |actions|
  {
    d in trace[k].disp && Enabled(trace[k], actions[k]) && Decides(trace[k], actions[k], d) == Some(reply)
  }

  /** A decided reply stays decided. */
  lemma {:induction false} DecisionLasts(trace: seq<State>, actions: seq<Action>, i: nat, j: nat, d: Did)
    requires Run(trace, actions) && i <= j < |trace| && d in trace[i].disp && Verdict(trace[i].disp[d].pc).Some?
    ensures d in trace[j].disp && Verdict(trace[j].disp[d].pc) == Verdict(trace[i].disp[d].pc)
    decreases j - i
  {
    hide Enabled, Apply, Decides, Verdict;
    if i < j {
      DecisionLasts(trace, actions, i, j - 1, d);
      RunCommits(trace, actions, j - 1, d);
    }
  }

  /** A reply that is decided was decided at some step. */
  lemma {:induction false} DecidedBefore(trace: seq<State>, actions: seq<Action>, j: nat, d: Did) returns (k: nat)
    requires Run(trace, actions) && j < |trace| && d in trace[j].disp && Verdict(trace[j].disp[d].pc).Some?
    ensures k < j && DecidesAt(trace, actions, k, d, Verdict(trace[j].disp[d].pc).value)
  {
    if j == 0 {
      assert false;
    }
    assert Verdict(Entry) == None;
    hide Apply, Decides, Verdict, Enabled;
    RunMoves(trace, actions, j - 1, d);
    RunCommits(trace, actions, j - 1, d);
    if Decides(trace[j - 1], actions[j - 1], d).Some? {
      k := j - 1;
    } else {
      k := DecidedBefore(trace, actions, j - 1, d);
    }
  }

  lemma DecisionShows(trace: seq<State>, actions: seq<Action>, k: nat, d: Did, reply: Reply)
    requires Run(trace, actions) && k < |actions| && DecidesAt(trace, actions, k, d, reply)
    ensures Verdict(trace[k].disp[d].pc) == None
    ensures d in trace[k + 1].disp && Verdict(trace[k + 1].disp[d].pc) == Some(reply)
  {
    hide Apply, Decides, Verdict, Enabled;
    RunCommits(trace, actions, k, d);
  }

  /** A dispatch that has returned has decided once, and its reply is what it decided. */
  lemma RepliesAreDecidedOnce(trace: seq<State>, actions: seq<Action>, j: nat, d: Did) returns (i: nat)
    requires Run(trace, actions) && j < |trace| && d in trace[j].disp && trace[j].disp[d].pc.Returned?
    ensures i < j && DecidesAt(trace, actions, i, d, trace[j].disp[d].pc.reply)
    ensures forall k, reply | 0 <= k < j && DecidesAt(trace, actions, k, d, reply) :: k == i
  {
    hide Enabled, Apply, Decides, DecidesAt;
    i := DecidedBefore(trace, actions, j, d);
    forall k, reply | 0 <= k < j && DecidesAt(trace, actions, k, d, reply)
      ensures k == i
    {
      hide Verdict;
      DecisionShows(trace, actions, k, d, reply);
      DecisionShows(trace, actions, i, d, trace[j].disp[d].pc.reply);
      if k < i {
        DecisionLasts(trace, actions, k + 1, i, d);
      } else if i < k {
        DecisionLasts(trace, actions, i + 1, k, d);
      }
    }
  }

  /** A dispatcher that has received an outcome returns this outcome. */
  lemma ReceivedIsReturned(trace: seq<State>, actions: seq<Action>, i: nat, j: nat, d: Did)
    requires Run(trace, actions) && i <= j < |trace| && d in trace[i].disp && trace[i].disp[d].pc.Settling?
    ensures d in trace[j].disp
    ensures trace[j].disp[d].pc.Returned? ==> trace[j].disp[d].pc.reply == Got(trace[i].disp[d].pc.outcome)
  {
    hide Run;
    DecisionLasts(trace, actions, i, j, d);
  }

  /** Until it decides, a waiting dispatcher waits. */
  lemma {:induction false} WaitsUntilDecided(trace: seq<State>, actions: seq<Action>, i: nat, j: nat, d: Did)
    requires Run(trace, actions) && i <= j < |trace| && d in trace[i].disp && trace[i].disp[d].pc.Waiting?
    ensures d in trace[j].disp && (Verdict(trace[j].disp[d].pc).Some? || trace[j].disp[d].pc == trace[i].disp[d].pc)
    decreases j - i
  {
    hide Enabled, Apply, Decides, Verdict;
    if i < j {
      WaitsUntilDecided(trace, actions, i, j - 1, d);
      RunCommits(trace, actions, j - 1, d);
    }
  }

  /** A dispatch whose command is with the worker returns the outcome that it takes out of its own
      channel, or its caller's context error if its wait ends first, and nothing else. */
  lemma WaitIsAnswered(trace: seq<State>, actions: seq<Action>, i: nat, j: nat, d: Did) returns (k: nat)
    requires Run(trace, actions) && i <= j < |trace| && d in trace[i].disp && trace[i].disp[d].pc.Waiting?
    requires d in trace[j].disp && trace[j].disp[d].pc.Returned?
    ensures i <= k < j && d in trace[k].disp && trace[k].disp[d].pc == trace[i].disp[d].pc
    ensures var reply, id := trace[j].disp[d].pc.reply, trace[i].disp[d].pc.cmd;
            || (actions[k] == Answering(d, WaitEnds) && reply == ContextEnded)
            || (actions[k] == Answering(d, Receive) && id in trace[k].cmds && trace[k].cmds[id].chan.buffer != []
                && reply == Got(trace[k].cmds[id].chan.buffer[0]))
  {
    assert Verdict(trace[i].disp[d].pc) == None;
    k := RepliesAreDecidedOnce(trace, actions, j, d);
    DecisionShows(trace, actions, k, d, trace[j].disp[d].pc.reply);
    if k < i {
      DecisionLasts(trace, actions, k + 1, i, d);
      assert false;
    }
    WaitsUntilDecided(trace, actions, i, k, d);
    hide Run;
    WaitDecides(trace[k], actions[k], d);
  }

  lemma WaitDecides(st: State, a: Action, d: Did)
    requires Enabled(st, a) && d in st.disp && st.disp[d].pc.Waiting? && Decides(st, a, d).Some?
    ensures a == Answering(d, WaitEnds) || a == Answering(d, Receive)
    ensures a.reply.Receive? ==> st.disp[d].pc.cmd in st.cmds && st.cmds[st.disp[d].pc.cmd].chan.buffer != []
  {
  }

  // ---------- When routes are rolled back ----------

  predicate ToUndo(pc: Pc) {
    pc.Abandoning? || pc.Undoing?
  }

  predicate SendsFor(a: Action, d: Did) {
    a.Send? && a.d == d
  }

  /** How one step of the dispatcher leads to a rollback, or through it. */
  predicate UndoMoves(before: Pc, after: Pc, a: Action, d: Did, decided: bool) {
    && (ToUndo(after) ==> ToUndo(before) || (SendsFor(a, d) && decided))
    && (ToUndo(before) ==> ToUndo(after) || a == Answering(d, UndoRoute))
    && (a == Answering(d, UndoRoute) ==> ToUndo(before) && !ToUndo(after))
    && (SendsFor(a, d) && decided ==> ToUndo(after))
  }

  lemma SendUndoMoves(st: State, d: Did, e: SendStep)
    requires d in st.disp && CanSend(st, d, e)
    ensures d in Sent(st, d, e).disp
    ensures UndoMoves(st.disp[d].pc, Sent(st, d, e).disp[d].pc, Send(d, e), d, Decides(st, Send(d, e), d).Some?)
  {
    hide AddEntry;
    match e { case NoCommandID => case Register(id) => case EnqueueFails(r) => case EnqueueSucceeds => }
  }

  lemma ReplyUndoMoves(st: State, d: Did, r: ReplyStep)
    requires d in st.disp && CanReply(st, d, r) && (r.Receive? ==> st.cmds[st.disp[d].pc.cmd].chan.buffer != [])
    ensures d in Replied(st, d, r).disp
    ensures UndoMoves(st.disp[d].pc, Replied(st, d, r).disp[d].pc, Answering(d, r), d, false)
  {
    hide SettledRoutes, Cleared, Reroute, TakeEntry, Deliver;
    match r { case WaitEnds => case Receive => case Settle(n, f) => case UndoRoute => case Unregister => case Leave => }
  }

  lemma LookUndoMoves(st: State, d: Did, l: LookStep)
    requires d in st.disp && CanLook(st, d, l)
    ensures d in Looked(st, d, l).disp && UndoMoves(st.disp[d].pc, Looked(st, d, l).disp[d].pc, Look(d, l), d, false)
  {
    hide Touched, Cleared, Reroute;
    match l {
      case BeginPlain => case BeginTerminal(now) => case PickFails(r) => case FindSession => case ClearStale =>
    }
  }

  lemma SlotUndoMoves(st: State, d: Did, t: SlotStep)
    requires d in st.disp && CanSlot(st, d, t)
    ensures d in Slotted(st, d, t).disp && UndoMoves(st.disp[d].pc, Slotted(st, d, t).disp[d].pc, Slot(d, t), d, false)
  {
    hide Acquire, Release, CanAcquire, Reroute;
    match t {
      case PickTakes(u) => case ReserveRoute(now) => case YieldSlot => case AcquireFound => case AbandonSlot =>
    }
  }

  lemma StepUndoMoves(st: State, a: Action, d: Did)
    requires Inv(st) && Enabled(st, a) && d in st.disp
    ensures d in Apply(st, a).disp
    ensures UndoMoves(st.disp[d].pc, Apply(st, a).disp[d].pc, a, d, Decides(st, a, d).Some?)
  {
    if StepOf(a, d) {
      hide Inv, Looked, Slotted, Sent, Replied, Decides, Honest;
      match a
      case Look(_, l) => LookUndoMoves(st, d, l);
      case Slot(_, t) => SlotUndoMoves(st, d, t);
      case Send(_, e) => SendUndoMoves(st, d, e);
      case Answering(_, r) =>
        if r.Receive? {
          BufferedIsMine(st, d);
        }
        ReplyUndoMoves(st, d, r);
    } else {
      hide Inv, Apply, Enabled;
      OthersLeaveIt(st, a, d);
    }
  }

  lemma RunUndoMoves(trace: seq<State>, actions: seq<Action>, k: nat, d: Did)
    requires Run(trace, actions) && k < |actions| && d in trace[k].disp
    ensures Enabled(trace[k], actions[k]) && d in trace[k + 1].disp
    ensures UndoMoves(trace[k].disp[d].pc, trace[k + 1].disp[d].pc, actions[k], d,
                      Decides(trace[k], actions[k], d).Some?)
  {
    hide Inv, Apply, Decides, UndoMoves;
    RunKeepsInv(trace, actions, k);
    StepUndoMoves(trace[k], actions[k], d);
  }

  predicate UndoneBetween(actions: seq<Action>, i: nat, j: nat, d: Did)
    requires j <= |actions|
  {
    exists k | i <= k < j :: actions[k] == Answering(d, UndoRoute)
  }

  /** A dispatcher with a rollback ahead of it has it ahead until it does it; one without, and decided, never
      gets one. */
  lemma {:induction false} UndoIsAhead(trace: seq<State>, actions: seq<Action>, i: nat, j: nat, d: Did)
    requires Run(trace, actions) && i <= j < |trace| && d in trace[i].disp && Verdict(trace[i].disp[d].pc).Some?
    ensures d in trace[j].disp
    ensures ToUndo(trace[j].disp[d].pc) <==> ToUndo(trace[i].disp[d].pc) && !UndoneBetween(actions, i, j, d)
    ensures UndoneBetween(actions, i, j, d) ==> ToUndo(trace[i].disp[d].pc)
    decreases j - i
  {
    hide Enabled, Apply, Decides, Verdict, ToUndo;
    if i < j {
      UndoIsAhead(trace, actions, i, j - 1, d);
      DecisionLasts(trace, actions, i, j - 1, d);
      RunCommits(trace, actions, j - 1, d);
      RunUndoMoves(trace, actions, j - 1, d);
    }
  }

  /** A dispatch rolls its route back exactly if it fails before its command is with the worker: for want of
      a command ID, of an open session, or of room in its queue. */
  lemma RollbackExactlyBeforeSending(trace: seq<State>, actions: seq<Action>, j: nat, d: Did) returns (i: nat)
    requires Run(trace, actions) && j < |trace| && d in trace[j].disp && trace[j].disp[d].pc.Returned?
    ensures i < j && DecidesAt(trace, actions, i, d, trace[j].disp[d].pc.reply)
    ensures SendsFor(actions[i], d) <==> UndoneBetween(actions, 0, j, d)
  {
    hide Enabled, Apply, Decides, UndoneBetween;
    i := RepliesAreDecidedOnce(trace, actions, j, d);
    DecisionShows(trace, actions, i, d, trace[j].disp[d].pc.reply);
    RunUndoMoves(trace, actions, i, d);
    UndoIsAhead(trace, actions, i + 1, j, d);
    NothingUndoneBefore(trace, actions, i, d);
    UndoneSplits(actions, i + 1, j, d);
    if actions[i] == Answering(d, UndoRoute) {
      UndoDecidesNothing(trace[i], d);
    }
    OpenIsNotUndone(trace[i].disp[d].pc);
  }

  lemma UndoDecidesNothing(st: State, d: Did)
    requires d in st.disp && Enabled(st, Answering(d, UndoRoute))
    ensures Decides(st, Answering(d, UndoRoute), d) == None
  {
  }

  lemma OpenIsNotUndone(pc: Pc)
    ensures Verdict(pc) == None ==> !ToUndo(pc)
  {
  }

  lemma UndoneSplits(actions: seq<Action>, i: nat, j: nat, d: Did)
    requires 0 < i <= j <= |actions|
    ensures UndoneBetween(actions, 0, j, d) <==>
            UndoneBetween(actions, 0, i - 1, d)
            || actions[i - 1] == Answering(d, UndoRoute) || UndoneBetween(actions, i, j, d)
  {
  }

  lemma NothingUndoneBefore(trace: seq<State>, actions: seq<Action>, i: nat, d: Did)
    requires Run(trace, actions) && i < |trace| && d in trace[i].disp && Verdict(trace[i].disp[d].pc) == None
    ensures !UndoneBetween(actions, 0, i, d)
  {
    hide Decides;
    forall k | 0 <= k < i
      ensures actions[k] != Answering(d, UndoRoute)
    {
      if actions[k] == Answering(d, UndoRoute) {
        assert Enabled(trace[k], actions[k]) && d in trace[k].disp && trace[k].disp[d].pc.Undoing?;
        DecisionLasts(trace, actions, k, i, d);
        assert false;
      }
    }
  }

  // ---------- Outcomes received ----------

  /** A command that this dispatch has registered has given it this outcome. */
  predicate GaveIt(cmds: map<string, Command>, k: string, d: Did, o: Outcome) {
    k in cmds && cmds[k].owner == d && cmds[k].received == [o]
  }

  predicate Received(cmds: map<string, Command>, d: Did, o: Outcome) {
    exists k | k in cmds :: GaveIt(cmds, k, d, o)
  }

  /** What one step does to what commands have given to their owners. */
  predicate GivesOnly(st: State, after: State, k: string, o: Option<Outcome>) {
    && (forall c | c in st.cmds ::
          && c in after.cmds && after.cmds[c].owner == st.cmds[c].owner
          && after.cmds[c].received
             == if o.Some? && c == k then st.cmds[c].received + [o.value] else st.cmds[c].received)
    && (forall c | c in after.cmds && c !in st.cmds :: after.cmds[c].received == [])
  }

  /** The command that the step takes an outcome from. */
  function Source(st: State, a: Action): (string, Option<Outcome>)
    requires Enabled(st, a)
  {
    if a.Answering? && a.reply.Receive? && st.cmds[st.disp[a.d].pc.cmd].chan.buffer != [] then
      (st.disp[a.d].pc.cmd, Some(st.cmds[st.disp[a.d].pc.cmd].chan.buffer[0]))
    else ("", None)
  }

  lemma LookGives(st: State, d: Did, l: LookStep)
    requires d in st.disp && CanLook(st, d, l)
    ensures Looked(st, d, l).cmds == st.cmds
  {
    match l {
      case BeginPlain => case BeginTerminal(now) => case PickFails(r) => case FindSession => case ClearStale =>
    }
  }

  lemma SlotGives(st: State, d: Did, t: SlotStep)
    requires d in st.disp && CanSlot(st, d, t)
    ensures Slotted(st, d, t).cmds == st.cmds
  {
    match t {
      case PickTakes(u) => case ReserveRoute(now) => case YieldSlot => case AcquireFound => case AbandonSlot =>
    }
  }

  lemma SendGives(st: State, d: Did, e: SendStep)
    requires d in st.disp && CanSend(st, d, e)
    ensures GivesOnly(st, Sent(st, d, e), "", None)
  {
    hide GivesOnly, AddEntry, Held, Routed, CommandOf;
    NothingGiven(st, Sent(st, d, e));
    match e {
      case Register(id) => RegisterGives(st, Sent(st, d, e), st.disp[d].pc.s, id, st.disp[d].cap, d);
      case NoCommandID => case EnqueueFails(r) => case EnqueueSucceeds =>
    }
  }

  lemma NothingGiven(st: State, after: State)
    ensures after.cmds == st.cmds ==> GivesOnly(st, after, "", None)
  {
  }

  lemma RegisterGives(st: State, after: State, s: Sid, k: string, cap: string, d: Did)
    requires s in st.sess && k !in st.cmds
    ensures after.cmds == AddEntry(st, s, k, cap, d).cmds ==> GivesOnly(st, after, "", None)
  {
  }

  lemma DrainGives(st: State, s: Sid, outcome: Option<Outcome>)
    requires s in st.sess
    ensures GivesOnly(st, TakeAll(st, s, outcome), "", None)
  {
  }

  lemma TakeGives(st: State, s: Sid, k: string, via: Remover, outcome: Option<Outcome>)
    requires s in st.sess && k in st.sess[s].pending && k in st.cmds
    ensures GivesOnly(st, TakeEntry(st, s, k, via, outcome), "", None)
  {
  }

  lemma ReroutingGivesNothing(st: State)
    ensures forall fwd :: Reroute(st, fwd).cmds == st.cmds
  {
  }

  lemma ReceiveGives(st: State, d: Did)
    requires d in st.disp && CanReply(st, d, Receive)
    ensures var (k, o) := Source(st, Answering(d, Receive));
            GivesOnly(st, Replied(st, d, Receive), k, o)
  {
  }

  lemma UnregisterGives(st: State, d: Did)
    requires d in st.disp && CanReply(st, d, Unregister)
    ensures GivesOnly(st, Replied(st, d, Unregister), "", None)
  {
    hide GivesOnly, TakeEntry;
    var x := st.disp[d];
    NothingGiven(st, Replied(st, d, Unregister));
    if x.pc.cmd in st.sess[x.pc.s].pending {
      TakeGives(st, x.pc.s, x.pc.cmd, ByUnregister, None);
      SameCommandsGive(st, TakeEntry(st, x.pc.s, x.pc.cmd, ByUnregister, None), Replied(st, d, Unregister));
    }
  }

  lemma SameCommandsGive(st: State, middle: State, after: State)
    requires GivesOnly(st, middle, "", None) && after.cmds == middle.cmds
    ensures GivesOnly(st, after, "", None)
  {
  }

  lemma ReplyGives(st: State, d: Did, r: ReplyStep)
    requires d in st.disp && CanReply(st, d, r)
    ensures var (k, o) := Source(st, Answering(d, r));
            GivesOnly(st, Replied(st, d, r), k, o)
  {
    hide GivesOnly, SettledRoutes, Cleared, AfterUndo, Reroute, Deliver, TakeEntry;
    ReroutingGivesNothing(st);
    NothingGiven(st, Replied(st, d, r));
    match r {
      case Receive => ReceiveGives(st, d);
      case Unregister => UnregisterGives(st, d);
      case WaitEnds => case Settle(n, f) => case UndoRoute => case Leave =>
    }
  }

  lemma EndGives(st: State, k: string)
    requires k in st.owed
    ensures st.owed[k].s in st.sess ==> GivesOnly(st, ReleaseEntry(st, k), "", None)
    ensures k in st.cmds ==> GivesOnly(st, FinishEntry(st, k), "", None)
  {
    hide CloseChan, Release;
  }

  lemma RemoveGives(st: State, e: RemoveStep)
    requires CanRemove(st, e)
    ensures GivesOnly(st, Removed(st, e), "", None)
  {
    hide OutcomeOf, GivesOnly, TakeAll, TakeEntry, ReleaseEntry, FinishEntry;
    match e {
      case CloseDrain(s) => DrainGives(st, s, Some(SessionLost(st.sess[s].closedErr.value)));
      case ResultArrives(s, id, f) => TakeGives(st, s, id, ByResult, Some(OutcomeOf(f)));
      case OwedRelease(k) => EndGives(st, k);
      case OwedFinish(k) => EndGives(st, k);
    }
  }

  lemma ConnectGives(st: State, e: ConnectStep)
    requires CanConnect(st, e)
    ensures Connected(st, e).cmds == st.cmds
  {
  }

  lemma StepGives(st: State, a: Action)
    requires Enabled(st, a)
    ensures var (k, o) := Source(st, a);
            GivesOnly(st, Apply(st, a), k, o)
  {
    hide Looked, Slotted, Sent, Replied, Connected, Removed;
    match a
    case Start(d, cap, tsid) =>
    case Look(d, l) => LookGives(st, d, l);
    case Slot(d, t) => SlotGives(st, d, t);
    case Send(d, e) => SendGives(st, d, e);
    case Answering(d, r) => ReplyGives(st, d, r);
    case Connection(e) => ConnectGives(st, e);
    case Removal(e) => RemoveGives(st, e);
  }

  /** A dispatch is committed to an outcome exactly if a command of its own has given it this one. */
  ghost predicate CommittedAsGiven(st: State, d: Did, o: Outcome) {
    (d in st.disp && Verdict(st.disp[d].pc) == Some(Got(o))) <==> Received(st.cmds, d, o)
  }

  /** The receiving step takes from a command of its own that has given nothing before. */
  lemma TakesFromItsOwn(st: State, d: Did)
    requires Inv(st) && d in st.disp && CanReply(st, d, Receive)
    ensures var k := st.disp[d].pc.cmd;
            k in st.cmds && st.cmds[k].owner == d && st.cmds[k].received == []
  {
    hide Inv;
    DispatcherFacts(st, d);
  }

  lemma GivenStays(st: State, after: State, k: string, from: Option<Outcome>, d: Did, o: Outcome)
    requires GivesOnly(st, after, k, from)
    requires from.Some? ==> k in st.cmds && st.cmds[k].received == []
    ensures Received(after.cmds, d, o) <==>
            Received(st.cmds, d, o) || (from == Some(o) && st.cmds[k].owner == d)
  {
    if Received(st.cmds, d, o) {
      var c :| c in st.cmds && GaveIt(st.cmds, c, d, o);
      assert GaveIt(after.cmds, c, d, o);
    }
    if from == Some(o) && st.cmds[k].owner == d {
      assert GaveIt(after.cmds, k, d, o);
    }
    if Received(after.cmds, d, o) {
      var c :| c in after.cmds && GaveIt(after.cmds, c, d, o);
      assert from.None? || c != k ==> GaveIt(st.cmds, c, d, o);
    }
  }

  lemma DecidesGot(st: State, a: Action, d: Did, o: Outcome)
    requires Enabled(st, a) && d in st.disp
    ensures Decides(st, a, d) == Some(Got(o)) <==>
            a.Answering? && a.d == d && a.reply.Receive? && Source(st, a).1 == Some(o)
  {
  }

  lemma StepKeepsGiven(st: State, a: Action, d: Did, o: Outcome)
    requires Inv(st) && Enabled(st, a) && CommittedAsGiven(st, d, o)
    ensures CommittedAsGiven(Apply(st, a), d, o)
  {
    var after := Apply(st, a);
    var (k, from) := Source(st, a);
    StepGives(st, a);
    if from.Some? {
      TakesFromItsOwn(st, a.d);
    }
    GivenStays(st, after, k, from, d, o);
    if d in st.disp {
      StepCommits(st, a, d);
      DecidesGot(st, a, d, o);
    } else {
      StepMoves(st, a, d);
      assert Verdict(Entry) == None;
    }
    hide Inv, Apply, Enabled, Decides, Verdict, Received, Source;
  }

  lemma {:induction false} RunKeepsGiven(trace: seq<State>, actions: seq<Action>, i: nat, d: Did, o: Outcome)
    requires Run(trace, actions) && i < |trace|
    ensures CommittedAsGiven(trace[i], d, o)
  {
    hide Inv, Apply, Enabled, CommittedAsGiven;
    if i > 0 {
      RunKeepsGiven(trace, actions, i - 1, d, o);
      RunKeepsInv(trace, actions, i - 1);
      StepKeepsGiven(trace[i - 1], actions[i - 1], d, o);
    } else {
      NothingGivenAtFirst(d, o);
    }
  }

  lemma NothingGivenAtFirst(d: Did, o: Outcome)
    ensures CommittedAsGiven(INIT, d, o)
  {
  }

  /** A dispatch returns an outcome exactly if a command that it registered has given it this very
      outcome. */
  lemma ReturnsWhatItReceived(trace: seq<State>, actions: seq<Action>, i: nat, d: Did, o: Outcome)
    requires Run(trace, actions) && i < |trace| && d in trace[i].disp && trace[i].disp[d].pc.Returned?
    ensures trace[i].disp[d].pc.reply == Got(o) <==>
            exists k | k in trace[i].cmds :: trace[i].cmds[k].owner == d && trace[i].cmds[k].received == [o]
  {
    hide Run;
    RunKeepsGiven(trace, actions, i, d, o);
    if Received(trace[i].cmds, d, o) {
      var k :| k in trace[i].cmds && GaveIt(trace[i].cmds, k, d, o);
    }
    forall k | k in trace[i].cmds && trace[i].cmds[k].owner == d && trace[i].cmds[k].received == [o]
      ensures Received(trace[i].cmds, d, o)
    {
      assert GaveIt(trace[i].cmds, k, d, o);
    }
  }
}
