/** What one dispatcher does to the counters with its own steps: the slots it takes and gives back,
    added up over a run, are exactly the one it still holds, or none. */
module DispatchNet {
  import opened Prelude
  import opened SessionRuntime
  import opened Routes
  import opened Dispatch
  import opened DispatchSlots
  import opened DispatchTheorems
  import opened DispatchHistory

  function Inflight(sess: map<Sid, Session>, s: Sid, c: string): int {
    if s in sess && c in sess[s].caps then sess[s].caps[c].inflight else 0
  }

  /** The action is a step of this dispatcher's own program. */
  predicate StepOf(a: Action, d: Did) {
    match a
    case Look(e, _) => e == d
    case Slot(e, _) => e == d
    case Send(e, _) => e == d
    case Answering(e, _) => e == d
    case _ => false
  }

  /** By how much the dispatcher's own steps up to `i` have moved one counter. */
  ghost function Net(trace: seq<State>, actions: seq<Action>, i: nat, d: Did, s: Sid, c: string): int
    requires i < |trace| && i <= |actions|
  {
    if i == 0 then 0
    else
      Net(trace, actions, i - 1, d, s, c)
      + if StepOf(actions[i - 1], d) then Inflight(trace[i].sess, s, c) - Inflight(trace[i - 1].sess, s, c) else 0
  }

  function Holds(st: State, d: Did, s: Sid, c: string): int {
    if d in st.disp && st.disp[d].cap == c && Held(st.disp[d].pc) == Some(s) then 1 else 0
  }

  /** The step moves the counter by what the dispatcher takes or gives up. */
  predicate Balances(st: State, after: State, d: Did, s: Sid, c: string) {
    Inflight(after.sess, s, c) - Inflight(st.sess, s, c) == Holds(after, d, s, c) - Holds(st, d, s, c)
  }

  lemma SameCapsBalance(st: State, after: State, d: Did, s: Sid, c: string)
    requires d in st.disp && d in after.disp && after.disp[d].cap == st.disp[d].cap
    requires Held(after.disp[d].pc) == Held(st.disp[d].pc)
    requires Inflight(after.sess, s, c) == Inflight(st.sess, s, c)
    ensures Balances(st, after, d, s, c)
  {
  }

  lemma TakingBalances(st: State, d: Did, u: Sid, pc: Pc, s: Sid, c: string)
    requires d in st.disp && u in st.sess && CanAcquire(st.sess[u].caps, st.disp[d].cap)
    requires Held(st.disp[d].pc) == None && Held(pc) == Some(u)
    ensures Balances(st, Goto(SetCaps(st, u, Acquire(st.sess[u].caps, st.disp[d].cap)), d, pc), d, s, c)
  {
    hide Held;
  }

  lemma RefusedBalances(st: State, d: Did, u: Sid, pc: Pc, s: Sid, c: string)
    requires d in st.disp && u in st.sess && !CanAcquire(st.sess[u].caps, st.disp[d].cap)
    requires Held(st.disp[d].pc) == None && Held(pc) == None
    ensures Balances(st, Goto(SetCaps(st, u, Acquire(st.sess[u].caps, st.disp[d].cap)), d, pc), d, s, c)
  {
    hide Held;
  }

  lemma GivingBalances(st: State, d: Did, u: Sid, pc: Pc, s: Sid, c: string)
    requires d in st.disp && u in st.sess && st.disp[d].cap != "" && st.disp[d].cap in st.sess[u].caps
    requires st.sess[u].caps[st.disp[d].cap].inflight > 0
    requires Held(st.disp[d].pc) == Some(u) && Held(pc) == None
    ensures Balances(st, Goto(SetCaps(st, u, Release(st.sess[u].caps, st.disp[d].cap)), d, pc), d, s, c)
  {
    hide Held;
  }

  lemma LookBalances(st: State, d: Did, l: LookStep, s: Sid, c: string)
    requires d in st.disp && CanLook(st, d, l)
    ensures Balances(st, Looked(st, d, l), d, s, c)
  {
    hide Balances, Touched, Cleared;
    SameCapsBalance(st, Looked(st, d, l), d, s, c);
  }

  /** A slot that is given back by hand is there to be given back. */
  lemma SlotIsThere(st: State, d: Did)
    requires Inv(st) && d in st.disp && Held(st.disp[d].pc).Some?
    ensures var u, cap := Held(st.disp[d].pc).value, st.disp[d].cap;
            u in st.sess && cap != "" && cap in st.sess[u].caps && st.sess[u].caps[cap].inflight > 0
  {
    DispatcherFacts(st, d);
    var u, cap := Held(st.disp[d].pc).value, st.disp[d].cap;
    assert Conserved(st, u, cap);
    CountPositive(st.disp, d, HoldsOn(u, cap));
  }

  lemma SlotBalances(st: State, d: Did, t: SlotStep, s: Sid, c: string)
    requires Inv(st) && d in st.disp && CanSlot(st, d, t)
    ensures Balances(st, Slotted(st, d, t), d, s, c)
  {
    hide Inv, Balances, Acquire, Release, CanAcquire;
    var x := st.disp[d];
    match t
    case PickTakes(u) =>
      TakingBalances(st, d, u, if x.pc.attempt.Plain? then Picked(u, false) else Reserving(u, x.pc.attempt), s, c);
    case ReserveRoute(now) => SameCapsBalance(st, Slotted(st, d, t), d, s, c);
    case YieldSlot =>
      SlotIsThere(st, d);
      GivingBalances(st, d, x.pc.s, Find(x.pc.node, if x.pc.attempt.Retry? then AfterRetry else AfterFirst), s, c);
    case AcquireFound =>
      if CanAcquire(st.sess[x.pc.s].caps, x.cap) {
        TakingBalances(st, d, x.pc.s, Picked(x.pc.s, false), s, c);
      } else {
        RefusedBalances(st, d, x.pc.s, Returned(NoCapacity), s, c);
      }
    case AbandonSlot =>
      SlotIsThere(st, d);
      GivingBalances(st, d, x.pc.s, Undoing(x.pc.s, x.pc.created, None, x.pc.reply), s, c);
  }

  lemma GotoBalances(st: State, d: Did, pc: Pc, s: Sid, c: string)
    requires d in st.disp && Held(pc) == Held(st.disp[d].pc)
    ensures Balances(st, Goto(st, d, pc), d, s, c)
  {
    hide Held;
  }

  /** The step does not put a command into the pending map. */
  predicate RegistersNothing(st: State, d: Did, e: SendStep)
    requires d in st.disp && CanSend(st, d, e)
  {
    e.Register? ==> e.id == "" || st.sess[st.disp[d].pc.s].done
  }

  lemma RegisteringShows(st: State, d: Did, e: SendStep)
    requires d in st.disp && CanSend(st, d, e) && !RegistersNothing(st, d, e)
    ensures d in Sent(st, d, e).disp && Sent(st, d, e).disp[d].pc.Enqueuing?
  {
  }

  lemma SendBalances(st: State, d: Did, e: SendStep, s: Sid, c: string)
    requires d in st.disp && CanSend(st, d, e) && RegistersNothing(st, d, e)
    ensures Balances(st, Sent(st, d, e), d, s, c)
  {
    hide Balances, Goto;
    var x := st.disp[d];
    match e
    case NoCommandID => GotoBalances(st, d, Abandoning(x.pc.s, x.pc.created, Internal), s, c);
    case Register(id) =>
      GotoBalances(st, d, Abandoning(x.pc.s, x.pc.created, if id == "" then Internal else Unavailable), s, c);
    case EnqueueFails(reply) =>
      GotoBalances(st, d, Undoing(x.pc.s, x.pc.created, Some(x.pc.cmd), reply), s, c);
    case EnqueueSucceeds => GotoBalances(st, d, Waiting(x.pc.s, x.pc.created, x.pc.cmd), s, c);
  }

  lemma ReplyBalances(st: State, d: Did, r: ReplyStep, s: Sid, c: string)
    requires d in st.disp && CanReply(st, d, r)
    ensures Balances(st, Replied(st, d, r), d, s, c)
  {
    hide Balances, SettledRoutes, Cleared;
    assert Inflight(Replied(st, d, r).sess, s, c) == Inflight(st.sess, s, c) by {
      match r {
        case WaitEnds => case Receive => case Settle(n, f) => case UndoRoute => case Unregister => case Leave =>
      }
    }
    ReplyHoldsNothing(st, d, r);
    SameCapsBalance(st, Replied(st, d, r), d, s, c);
  }

  lemma ReplyHoldsNothing(st: State, d: Did, r: ReplyStep)
    requires d in st.disp && CanReply(st, d, r)
    ensures var after := Replied(st, d, r);
            && d in after.disp && after.disp[d].cap == st.disp[d].cap
            && Held(st.disp[d].pc) == None && Held(after.disp[d].pc) == None
  {
    hide SettledRoutes, Cleared, Reroute, TakeEntry, Deliver, Past, Created;
    ReplyGoes(st, d, r);
    match r { case WaitEnds => case Receive => case Settle(n, f) => case UndoRoute => case Unregister => case Leave => }
  }

  /** A step of the dispatcher that registers no command balances its account. */
  lemma OwnStepBalances(st: State, a: Action, d: Did, s: Sid, c: string)
    requires Inv(st) && Enabled(st, a) && StepOf(a, d) && d in st.disp && d in Apply(st, a).disp
    requires !Apply(st, a).disp[d].pc.Enqueuing?
    ensures Balances(st, Apply(st, a), d, s, c)
  {
    hide Inv, Looked, Slotted, Sent, Replied, Balances, RegistersNothing;
    match a
    case Look(_, l) => LookBalances(st, d, l, s, c);
    case Slot(_, t) => SlotBalances(st, d, t, s, c);
    case Send(_, e) =>
      if RegistersNothing(st, d, e) {
        SendBalances(st, d, e, s, c);
      } else {
        RegisteringShows(st, d, e);
      }
    case Answering(_, r) => ReplyBalances(st, d, r, s, c);
  }

  /** Steps of others leave a dispatcher where it is. */
  lemma OthersLeaveIt(st: State, a: Action, d: Did)
    requires Enabled(st, a) && !StepOf(a, d)
    ensures d in st.disp ==> d in Apply(st, a).disp && Apply(st, a).disp[d] == st.disp[d]
    ensures d !in st.disp && d in Apply(st, a).disp ==> Apply(st, a).disp[d].pc == Entry
  {
    hide Looked, Slotted, Sent, Replied, Moves;
    match a
    case Start(e, cap, tsid) =>
    case Look(e, l) => LookMoves(st, e, l);
    case Slot(e, t) => SlotMoves(st, e, t);
    case Send(e, n) => SendGoes(st, e, n);
    case Answering(e, r) => ReplyGoes(st, e, r);
    case Connection(e) => ConnectLeavesDispatchers(st, e);
    case Removal(e) => RemoveLeavesDispatchers(st, e);
  }

  /** The dispatcher has not registered a command so far. */
  ghost predicate Unregistered(trace: seq<State>, i: nat, d: Did)
    requires i < |trace|
  {
    forall k | 0 <= k <= i && d in trace[k].disp :: !trace[k].disp[d].pc.Enqueuing?
  }

  lemma NetStep(trace: seq<State>, actions: seq<Action>, k: nat, d: Did, s: Sid, c: string)
    requires Run(trace, actions) && k < |actions| && Unregistered(trace, k + 1, d)
    ensures Net(trace, actions, k + 1, d, s, c) - Net(trace, actions, k, d, s, c)
         == Holds(trace[k + 1], d, s, c) - Holds(trace[k], d, s, c)
  {
    var a := actions[k];
    assert Enabled(trace[k], a) && trace[k + 1] == Apply(trace[k], a);
    RunKeepsInv(trace, actions, k);
    hide Run, Inv, Apply, Moves;
    if StepOf(a, d) {
      StepsAreOfKnown(trace[k], a, d);
      StepMoves(trace[k], a, d);
      OwnStepBalances(trace[k], a, d, s, c);
    } else {
      OthersLeaveIt(trace[k], a, d);
    }
  }

  lemma StepsAreOfKnown(st: State, a: Action, d: Did)
    requires Enabled(st, a) && StepOf(a, d)
    ensures d in st.disp
  {
  }

  /** Until a dispatcher registers a command, its own steps have moved each counter by exactly the slot
      it holds there: one on the session of its slot, and nothing anywhere else. */
  lemma {:induction false} NetIsWhatIsHeld(trace: seq<State>, actions: seq<Action>, i: nat, d: Did, s: Sid, c: string)
    requires Run(trace, actions) && i < |trace| && Unregistered(trace, i, d)
    ensures Net(trace, actions, i, d, s, c) == Holds(trace[i], d, s, c)
  {
    hide Enabled, Apply, Holds;
    if i > 0 {
      NetIsWhatIsHeld(trace, actions, i - 1, d, s, c);
      NetStep(trace, actions, i - 1, d, s, c);
    } else {
      assert Holds(trace[0], d, s, c) == 0 by { NobodyHoldsAtFirst(d, s, c); }
    }
  }

  lemma NobodyHoldsAtFirst(d: Did, s: Sid, c: string)
    ensures Holds(INIT, d, s, c) == 0
  {
  }

  /** A dispatcher that is still routing has not registered anything. */
  lemma RoutingIsUnregistered(trace: seq<State>, actions: seq<Action>, i: nat, d: Did)
    requires Run(trace, actions) && i < |trace| && d in trace[i].disp && !Past(trace[i].disp[d].pc)
    ensures Unregistered(trace, i, d)
  {
    hide Run, Enabled, Apply;
    forall k | 0 <= k <= i && d in trace[k].disp
      ensures !trace[k].disp[d].pc.Enqueuing?
    {
      if Past(trace[k].disp[d].pc) {
        ReadingIsFinal(trace, actions, k, i, d);
      }
    }
  }

  /** Routing that has just answered has, in all its steps together, whatever interfered with them,
      taken one slot on the session it returns, whose node its route named at the touch or reserve;
      or it has failed, and taken none anywhere. */
  lemma RoutingOutcome(trace: seq<State>, actions: seq<Action>, i: nat, d: Did)
    requires Run(trace, actions) && 0 < i < |trace| && d in trace[i - 1].disp && d in trace[i].disp
    requires !Past(trace[i - 1].disp[d].pc) && Past(trace[i].disp[d].pc)
    ensures trace[i].disp[d].pc.Picked? || trace[i].disp[d].pc.Returned?
    ensures var x := trace[i].disp[d];
            forall s, c :: Net(trace, actions, i, d, s, c)
                        == if x.pc.Picked? && s == x.pc.s && c == x.cap then 1 else 0
    ensures var x := trace[i].disp[d];
            x.pc.Picked? && x.tsid != "" ==>
              && x.pc.s in trace[i].sess && x.moment.Some?
              && trace[i].sess[x.pc.s].node == x.moment.value.node
  {
    hide Enabled, Apply, Past, Unregistered;
    var x := trace[i].disp[d];
    RunMoves(trace, actions, i - 1, d);
    RoutingIsUnregistered(trace, actions, i - 1, d);
    AnsweredIsUnregistered(trace, i, d);
    forall s, c
      ensures Net(trace, actions, i, d, s, c) == if x.pc.Picked? && s == x.pc.s && c == x.cap then 1 else 0
    {
      NetIsWhatIsHeld(trace, actions, i, d, s, c);
    }
    if x.pc.Picked? && x.tsid != "" {
      PickedWhereRead(trace, actions, i, d);
    }
  }

  lemma AnsweredIsUnregistered(trace: seq<State>, i: nat, d: Did)
    requires 0 < i < |trace| && Unregistered(trace, i - 1, d) && d in trace[i].disp
    requires trace[i].disp[d].pc.Picked? || trace[i].disp[d].pc.Returned?
    ensures Unregistered(trace, i, d)
  {
  }
}
