/** What the dispatch machine knows of worker connections over a run: a session offers what it connected
    with, it is closed at most once and for the reason given then, and a node's current session is the
    last one that connected there and has not been dropped. */
module DispatchSessions {
  import opened Prelude
  import opened SessionRuntime
  import opened Routes
  import opened Dispatch

  /** Same capabilities with the same positive limits. */
  ghost predicate SameOffer(before: Capabilities, after: Capabilities) {
    && after.Keys == before.Keys
    && forall c | c in before && before[c].maxInflight > 0 :: after[c].maxInflight == before[c].maxInflight
  }

  /** What a step may do to one session. */
  ghost predicate SessionKept(before: Session, after: Session) {
    after.node == before.node && SameOffer(before.caps, after.caps)
    && after.closedErr == before.closedErr && after.done == before.done
  }

  ghost predicate SessionsKept(before: map<Sid, Session>, after: map<Sid, Session>) {
    after.Keys == before.Keys && forall s | s in before :: SessionKept(before[s], after[s])
  }

  lemma SameSessionsKept(sess: map<Sid, Session>)
    ensures SessionsKept(sess, sess)
  {
  }

  lemma SlotsKeepOffer(caps: Capabilities, cap: string)
    ensures SameOffer(caps, Acquire(caps, cap)) && SameOffer(caps, Release(caps, cap))
  {
  }

  lemma SetCapsKept(st: State, s: Sid, caps: Capabilities)
    requires s in st.sess && SameOffer(st.sess[s].caps, caps)
    ensures SessionsKept(st.sess, SetCaps(st, s, caps).sess)
  {
  }

  lemma AddingKeeps(st: State, s: Sid, k: string, cap: string, d: Did)
    requires s in st.sess
    ensures SessionsKept(st.sess, AddEntry(st, s, k, cap, d).sess)
  {
  }

  lemma DrainingKeeps(st: State, s: Sid, outcome: Option<Outcome>)
    requires s in st.sess
    ensures SessionsKept(st.sess, TakeAll(st, s, outcome).sess) && TakeAll(st, s, outcome).current == st.current
  {
    hide Moved, MarkRemoved;
  }

  lemma TakingKeeps(st: State, s: Sid, k: string, via: Remover, outcome: Option<Outcome>)
    requires s in st.sess
    ensures k in st.sess[s].pending && k in st.cmds ==>
              && SessionsKept(st.sess, TakeEntry(st, s, k, via, outcome).sess)
              && TakeEntry(st, s, k, via, outcome).current == st.current
  {
    hide Moved, MarkRemoved;
  }

  lemma ReroutesKeep(st: State)
    ensures forall fwd :: Reroute(st, fwd).sess == st.sess && Reroute(st, fwd).current == st.current
  {
  }

  lemma LookKept(st: State, d: Did, l: LookStep)
    requires d in st.disp && CanLook(st, d, l)
    ensures Looked(st, d, l).sess == st.sess && Looked(st, d, l).current == st.current
  {
    hide Touched, Cleared, Reroute;
    ReroutesKeep(st);
    match l {
      case BeginPlain => case BeginTerminal(now) => case PickFails(r) => case FindSession => case ClearStale =>
    }
  }

  lemma SlotKept(st: State, d: Did, t: SlotStep)
    requires d in st.disp && CanSlot(st, d, t)
    ensures SessionsKept(st.sess, Slotted(st, d, t).sess) && Slotted(st, d, t).current == st.current
  {
    hide Acquire, Release, CanAcquire, Reroute, SessionsKept, SameOffer;
    var x := st.disp[d];
    ReroutesKeep(st);
    SameSessionsKept(st.sess);
    var s := if t.PickTakes? then t.s else x.pc.s;
    SlotsKeepOffer(st.sess[s].caps, x.cap);
    SetCapsKept(st, s, Acquire(st.sess[s].caps, x.cap));
    SetCapsKept(st, s, Release(st.sess[s].caps, x.cap));
    match t {
      case PickTakes(u) => case ReserveRoute(now) => case YieldSlot => case AcquireFound => case AbandonSlot =>
    }
  }

  lemma SendKept(st: State, d: Did, e: SendStep)
    requires d in st.disp && CanSend(st, d, e)
    ensures SessionsKept(st.sess, Sent(st, d, e).sess) && Sent(st, d, e).current == st.current
  {
    hide SessionsKept;
    SameSessionsKept(st.sess);
    match e {
      case Register(id) => AddingKeeps(st, st.disp[d].pc.s, id, st.disp[d].cap, d);
      case NoCommandID => case EnqueueFails(r) => case EnqueueSucceeds =>
    }
  }

  lemma ReplyKept(st: State, d: Did, r: ReplyStep)
    requires d in st.disp && CanReply(st, d, r)
    ensures SessionsKept(st.sess, Replied(st, d, r).sess) && Replied(st, d, r).current == st.current
  {
    hide SessionsKept, SettledRoutes, Cleared, Reroute, AfterUndo;
    ReroutesKeep(st);
    SameSessionsKept(st.sess);
    match r {
      case WaitEnds => case Receive => case Settle(n, f) => case UndoRoute => case Leave =>
      case Unregister => TakingKeeps(st, st.disp[d].pc.s, st.disp[d].pc.cmd, ByUnregister, None);
    }
  }

  lemma OwedKept(st: State, k: string)
    requires k in st.owed
    ensures st.owed[k].s in st.sess ==>
              SessionsKept(st.sess, ReleaseEntry(st, k).sess) && ReleaseEntry(st, k).current == st.current
    ensures k in st.cmds ==> FinishEntry(st, k).sess == st.sess && FinishEntry(st, k).current == st.current
  {
    hide SessionsKept, SameOffer, CloseChan, Release;
    if st.owed[k].s in st.sess {
      SlotsKeepOffer(st.sess[st.owed[k].s].caps, st.owed[k].cap);
      SetCapsKept(st, st.owed[k].s, Release(st.sess[st.owed[k].s].caps, st.owed[k].cap));
    }
  }

  lemma RemoveKept(st: State, e: RemoveStep)
    requires CanRemove(st, e)
    ensures SessionsKept(st.sess, Removed(st, e).sess) && Removed(st, e).current == st.current
  {
    hide SessionsKept, OutcomeOf, TakeAll, TakeEntry, ReleaseEntry, FinishEntry;
    SameSessionsKept(st.sess);
    match e {
      case CloseDrain(s) => DrainingKeeps(st, s, Some(SessionLost(st.sess[s].closedErr.value)));
      case ResultArrives(s, id, f) => TakingKeeps(st, s, id, ByResult, Some(OutcomeOf(f)));
      case OwedRelease(k) => OwedKept(st, k);
      case OwedFinish(k) => OwedKept(st, k);
    }
  }

  /** Every step but a connection's leaves sessions as offered, open or closed, and current. */
  lemma OtherStepsKeep(st: State, a: Action)
    requires Enabled(st, a) && !a.Connection?
    ensures SessionsKept(st.sess, Apply(st, a).sess) && Apply(st, a).current == st.current
  {
    hide Looked, Slotted, Sent, Replied, Removed, SessionsKept;
    SameSessionsKept(st.sess);
    match a
    case Start(d, cap, tsid) =>
    case Look(d, l) => LookKept(st, d, l);
    case Slot(d, t) => SlotKept(st, d, t);
    case Send(d, e) => SendKept(st, d, e);
    case Answering(d, r) => ReplyKept(st, d, r);
    case Removal(e) => RemoveKept(st, e);
  }

  // ---------- Offers ----------

  /** The step connects this session, and this is what it offers. */
  predicate Connects(a: Action, s: Sid, x: Session) {
    && a.Connection? && a.connect.Connect? && a.connect.s == s && a.connect.node == x.node
    && a.connect.limits.Keys == x.caps.Keys
    && forall c | c in x.caps :: x.caps[c].maxInflight == a.connect.limits[c] > 0
  }

  lemma ConnectionOffers(st: State, e: ConnectStep, s: Sid)
    requires CanConnect(st, e) && s in Connected(st, e).sess
    ensures if s in st.sess then
              Connected(st, e).sess[s].node == st.sess[s].node && Connected(st, e).sess[s].caps == st.sess[s].caps
            else Connects(Connection(e), s, Connected(st, e).sess[s])
  {
    hide ClearedByNode, Pruned;
    ReroutesKeep(st);
    hide Reroute;
  }

  lemma StillConnects(a: Action, s: Sid, x: Session, y: Session)
    requires Connects(a, s, x) && y.node == x.node && SameOffer(x.caps, y.caps)
    ensures Connects(a, s, y)
  {
  }

  /** A session is on the node, and offers the capabilities with the limits, that it connected with. */
  lemma {:induction false} SessionsAreAsConnected(trace: seq<State>, actions: seq<Action>, j: nat, s: Sid)
    returns (i: nat)
    requires Run(trace, actions) && j < |trace| && s in trace[j].sess
    ensures i < j && Connects(actions[i], s, trace[j].sess[s])
  {
    hide Enabled, Apply, Connects, SessionsKept, SameOffer;
    var st, a := trace[j - 1], actions[j - 1];
    if a.Connection? {
      ConnectionIs(st, a);
      ConnectionOffers(st, a.connect, s);
      if s in st.sess {
        i := SessionsAreAsConnected(trace, actions, j - 1, s);
        SameOfferAlways(st.sess[s].caps);
        StillConnects(actions[i], s, st.sess[s], trace[j].sess[s]);
      } else {
        i := j - 1;
      }
    } else {
      OtherStepsKeep(st, a);
      SessionIsKept(st.sess, trace[j].sess, s);
      i := SessionsAreAsConnected(trace, actions, j - 1, s);
      StillConnects(actions[i], s, st.sess[s], trace[j].sess[s]);
    }
  }

  lemma SameOfferAlways(caps: Capabilities)
    ensures SameOffer(caps, caps)
  {
  }

  lemma SessionIsKept(before: map<Sid, Session>, after: map<Sid, Session>, s: Sid)
    requires SessionsKept(before, after) && s in after
    ensures s in before && after[s].node == before[s].node && SameOffer(before[s].caps, after[s].caps)
    ensures after[s].closedErr == before[s].closedErr
  {
  }

  lemma ConnectionIs(st: State, a: Action)
    requires Enabled(st, a) && a.Connection?
    ensures CanConnect(st, a.connect) && Apply(st, a) == Connected(st, a.connect)
  {
  }

  // ---------- Close reasons ----------

  function CloseReason(st: State, s: Sid): Option<string> {
    if s in st.sess then st.sess[s].closedErr else None
  }

  predicate Closes(a: Action, s: Sid) {
    a.Connection? && a.connect.CloseStart? && a.connect.s == s
  }

  /** A session is done exactly if it has a reason. */
  predicate DoneWithReason(st: State, s: Sid) {
    s in st.sess ==> (st.sess[s].done <==> st.sess[s].closedErr.Some?)
  }

  /** One step: a close gives its reason to an open session; nothing else gives or takes one. */
  predicate ClosesOnce(st: State, a: Action, after: State, s: Sid) {
    if Closes(a, s) then CloseReason(st, s) == None && CloseReason(after, s) == Some(a.connect.reason)
    else CloseReason(after, s) == CloseReason(st, s)
  }

  lemma ConnectionCloses(st: State, e: ConnectStep, s: Sid)
    requires CanConnect(st, e) && DoneWithReason(st, s)
    ensures DoneWithReason(Connected(st, e), s) && ClosesOnce(st, Connection(e), Connected(st, e), s)
  {
    hide ClearedByNode, Pruned;
    ReroutesKeep(st);
    hide Reroute;
  }

  lemma OthersDoNotClose(st: State, a: Action, after: State, s: Sid)
    requires !a.Connection? && SessionsKept(st.sess, after.sess) && DoneWithReason(st, s)
    ensures DoneWithReason(after, s) && ClosesOnce(st, a, after, s)
  {
    hide SameOffer;
  }

  /** The reason is that of the one close of the session so far. */
  predicate ClosedFor(actions: seq<Action>, j: nat, s: Sid, reason: Option<string>)
    requires j <= |actions|
  {
    if reason.None? then forall k | 0 <= k < j :: !Closes(actions[k], s)
    else exists i | 0 <= i < j :: IsTheClose(actions, j, s, reason.value, i)
  }

  predicate IsTheClose(actions: seq<Action>, j: nat, s: Sid, reason: string, i: nat)
    requires i < j <= |actions|
  {
    && Closes(actions[i], s) && actions[i].connect.reason == reason
    && forall k | 0 <= k < j && k != i :: !Closes(actions[k], s)
  }

  lemma ClosedForOnwards(actions: seq<Action>, j: nat, s: Sid, before: State, after: State)
    requires j < |actions| && ClosedFor(actions, j, s, CloseReason(before, s))
    requires ClosesOnce(before, actions[j], after, s)
    ensures ClosedFor(actions, j + 1, s, CloseReason(after, s))
  {
    hide CloseReason, Closes;
    if Closes(actions[j], s) {
      assert IsTheClose(actions, j + 1, s, CloseReason(after, s).value, j);
    } else if CloseReason(before, s).Some? {
      var i :| 0 <= i < j && IsTheClose(actions, j, s, CloseReason(before, s).value, i);
      assert IsTheClose(actions, j + 1, s, CloseReason(after, s).value, i);
    }
  }

  /** A session is closed at most once; it has a close reason exactly from then on, and it is the one that
      was given. */
  lemma {:induction false} CloseReasonsAreGiven(trace: seq<State>, actions: seq<Action>, j: nat, s: Sid)
    requires Run(trace, actions) && j < |trace|
    ensures DoneWithReason(trace[j], s) && ClosedFor(actions, j, s, CloseReason(trace[j], s))
  {
    hide Enabled, Apply, SessionsKept, DoneWithReason, ClosesOnce, CloseReason, ClosedFor;
    if j == 0 {
      NoSessionsAtFirst(actions, s);
    } else {
      var st, a := trace[j - 1], actions[j - 1];
      CloseReasonsAreGiven(trace, actions, j - 1, s);
      if a.Connection? {
        ConnectionIs(st, a);
        ConnectionCloses(st, a.connect, s);
      } else {
        OtherStepsKeep(st, a);
        OthersDoNotClose(st, a, trace[j], s);
      }
      ClosedForOnwards(actions, j - 1, s, st, trace[j]);
    }
  }

  lemma NoSessionsAtFirst(actions: seq<Action>, s: Sid)
    ensures DoneWithReason(INIT, s) && ClosedFor(actions, 0, s, CloseReason(INIT, s))
  {
  }

  // ---------- Current sessions ----------

  /** The step changes which session is the node's current one. */
  predicate Swaps(a: Action, node: string) {
    a.Connection? && match a.connect
                     case Connect(_, n, _) => n == node
                     case DropCurrent(n) => n == node
                     case _ => false
  }

  /** The session that is the node's current one after such a step. */
  function SwappedIn(a: Action, node: string): Option<Sid> {
    if a.Connection? && a.connect.Connect? && a.connect.node == node then Some(a.connect.s) else None
  }

  function Current(st: State, node: string): Option<Sid> {
    if node in st.current then Some(st.current[node]) else None
  }

  lemma ConnectionSwaps(st: State, e: ConnectStep, node: string)
    requires CanConnect(st, e)
    ensures Current(Connected(st, e), node)
         == if Swaps(Connection(e), node) then SwappedIn(Connection(e), node) else Current(st, node)
  {
    hide ClearedByNode, Pruned, NewSession;
    ReroutesKeep(st);
    hide Reroute;
  }

  /** A node's current session is the one that connected last, unless it has been dropped since. */
  lemma {:induction false} CurrentIsTheLatest(trace: seq<State>, actions: seq<Action>, i: nat, j: nat, node: string)
    requires Run(trace, actions) && i < j < |trace| && Swaps(actions[i], node)
    requires forall k | i < k < j :: !Swaps(actions[k], node)
    ensures Current(trace[j], node) == SwappedIn(actions[i], node)
    decreases j - i
  {
    hide Enabled, Apply, Swaps, SwappedIn, SessionsKept;
    var st, a := trace[j - 1], actions[j - 1];
    if a.Connection? {
      ConnectionIs(st, a);
      ConnectionSwaps(st, a.connect, node);
    } else {
      OtherStepsKeep(st, a);
      NoSwapOtherwise(a, node);
    }
    if i < j - 1 {
      CurrentIsTheLatest(trace, actions, i, j - 1, node);
    }
  }

  lemma NoSwapOtherwise(a: Action, node: string)
    requires !a.Connection?
    ensures !Swaps(a, node)
  {
  }

  /** A node that nothing has connected to has no current session. */
  lemma {:induction false} NobodyAtFirst(trace: seq<State>, actions: seq<Action>, j: nat, node: string)
    requires Run(trace, actions) && j < |trace|
    requires forall k | 0 <= k < j :: !Swaps(actions[k], node)
    ensures Current(trace[j], node) == None
  {
    hide Enabled, Apply, Swaps, SessionsKept;
    if j > 0 {
      var st, a := trace[j - 1], actions[j - 1];
      NobodyAtFirst(trace, actions, j - 1, node);
      if a.Connection? {
        ConnectionIs(st, a);
        ConnectionSwaps(st, a.connect, node);
      } else {
        OtherStepsKeep(st, a);
      }
    }
  }
}
