/** What runs of the dispatch machine keep over time: readings of routes, the epochs between them, and
    the slots a dispatcher takes and gives back with its own steps. */
module DispatchHistory {
  import opened Prelude
  import opened SessionRuntime
  import opened Routes
  import opened Dispatch
  import opened DispatchSlots
  import opened DispatchDelivery
  import opened DispatchRouting
  import opened DispatchTheorems

  // ---------- Epochs ----------

  /** The route vanishes or changes node. */
  predicate Ends(before: Forward, after: Forward, t: string) {
    t in before && (t !in after || after[t].nodeID != before[t].nodeID)
  }

  predicate EpochStep(st: State, after: State, t: string) {
    EpochOf(after, t) == EpochOf(st, t) + if Ends(st.routes, after.routes, t) then 1 else 0
  }

  predicate RoutedBy(st: State, after: State, fwd: Forward) {
    after.routes == Reroute(st, fwd).routes && after.epochs == Reroute(st, fwd).epochs
  }

  predicate SameTable(st: State, after: State) {
    after.routes == st.routes && after.epochs == st.epochs
  }

  lemma SameTableSteps(st: State, after: State, t: string)
    requires SameTable(st, after)
    ensures EpochStep(st, after, t)
  {
  }

  lemma ReroutedSteps(st: State, after: State, fwd: Forward, t: string)
    requires RoutedBy(st, after, fwd)
    ensures EpochStep(st, after, t)
  {
    EpochAfter(st, fwd, t);
    assert EpochOf(after, t) == EpochOf(Reroute(st, fwd), t);
  }

  lemma LookSteps(st: State, d: Did, l: LookStep, t: string)
    requires d in st.disp && CanLook(st, d, l)
    ensures EpochStep(st, Looked(st, d, l), t)
  {
    hide EpochStep, EpochOf, Touched, Cleared, Found, Reroute;
    var x, after := st.disp[d], Looked(st, d, l);
    match l
    case BeginPlain => SameTableSteps(st, after, t);
    case BeginTerminal(now) => ReroutedSteps(st, after, Touched(st.routes, x.tsid, now), t);
    case PickFails(reply) => SameTableSteps(st, after, t);
    case FindSession => SameTableSteps(st, after, t);
    case ClearStale => ReroutedSteps(st, after, Cleared(st.routes, x.tsid, x.pc.node), t);
  }

  lemma SlotSteps(st: State, d: Did, e: SlotStep, t: string)
    requires d in st.disp && CanSlot(st, d, e)
    ensures EpochStep(st, Slotted(st, d, e), t)
  {
    hide EpochStep, EpochOf, Acquire, Release;
    var x, after := st.disp[d], Slotted(st, d, e);
    match e
    case PickTakes(s) => SameTableSteps(st, after, t);
    case ReserveRoute(now) =>
      ReroutedSteps(st, after, Reserved(st.routes, x.tsid, st.sess[x.pc.s].node, now), t);
    case YieldSlot => SameTableSteps(st, after, t);
    case AcquireFound => SameTableSteps(st, after, t);
    case AbandonSlot => SameTableSteps(st, after, t);
  }

  lemma ReplySteps(st: State, d: Did, r: ReplyStep, t: string)
    requires d in st.disp && CanReply(st, d, r)
    ensures EpochStep(st, Replied(st, d, r), t)
  {
    hide EpochStep, EpochOf, Reroute, SettledRoutes, Cleared, AfterUndo;
    var x, after := st.disp[d], Replied(st, d, r);
    if r.Settle? {
      ReroutedSteps(st, after, SettledRoutes(st, x.tsid, x.pc.s, x.pc.outcome, r.now, r.notFound), t);
    } else if r.UndoRoute? && x.pc.created && x.tsid != "" {
      ReroutedSteps(st, after, Cleared(st.routes, x.tsid, st.sess[x.pc.s].node), t);
    } else {
      RepliesLeaveRoutes(st, d, r);
      hide Replied;
      SameTableSteps(st, after, t);
    }
  }

  lemma RepliesLeaveRoutes(st: State, d: Did, r: ReplyStep)
    requires d in st.disp && CanReply(st, d, r) && !r.Settle?
    requires r.UndoRoute? ==> !st.disp[d].pc.created || st.disp[d].tsid == ""
    ensures SameTable(st, Replied(st, d, r))
  {
    hide SettledRoutes, Cleared, Reroute, AfterUndo;
    match r { case WaitEnds => case Receive => case UndoRoute => case Unregister => case Leave => }
  }

  lemma ConnectSteps(st: State, e: ConnectStep, t: string)
    requires CanConnect(st, e)
    ensures EpochStep(st, Connected(st, e), t)
  {
    hide EpochStep, EpochOf, NewSession;
    var after := Connected(st, e);
    match e
    case ClearNodeRoutes(node) => ReroutedSteps(st, after, ClearedByNode(st.routes, node), t);
    case PruneRoutes(expireBefore) => ReroutedSteps(st, after, Pruned(st.routes, expireBefore), t);
    case Connect(s, node, limits) => SameTableSteps(st, after, t);
    case DropCurrent(node) => SameTableSteps(st, after, t);
    case CloseStart(s, reason) => SameTableSteps(st, after, t);
  }

  lemma SendSteps(st: State, d: Did, e: SendStep, t: string)
    requires d in st.disp && CanSend(st, d, e)
    ensures EpochStep(st, Sent(st, d, e), t)
  {
    hide EpochStep, EpochOf;
    assert SameTable(st, Sent(st, d, e)) by {
      match e { case NoCommandID => case Register(id) => case EnqueueFails(reply) => case EnqueueSucceeds => }
    }
    hide Sent;
    SameTableSteps(st, Sent(st, d, e), t);
  }

  lemma RemovalsLeaveRoutes(st: State, e: RemoveStep)
    requires CanRemove(st, e)
    ensures SameTable(st, Removed(st, e))
  {
    hide Moved, MarkRemoved, OutcomeOf, CloseChan, Release;
    match e { case CloseDrain(s) => case ResultArrives(s, id, f) => case OwedRelease(k) => case OwedFinish(k) => }
  }

  lemma RemoveSteps(st: State, e: RemoveStep, t: string)
    requires CanRemove(st, e)
    ensures EpochStep(st, Removed(st, e), t)
  {
    hide EpochStep;
    RemovalsLeaveRoutes(st, e);
    hide Removed;
    SameTableSteps(st, Removed(st, e), t);
  }

  /** Every step of every goroutine counts an epoch exactly for a route it ends. */
  lemma StepCountsEpochs(st: State, a: Action, t: string)
    requires Enabled(st, a)
    ensures EpochStep(st, Apply(st, a), t)
  {
    hide Looked, Slotted, Sent, Replied, Connected, Removed;
    match a
    case Start(d, cap, tsid) =>
    case Look(d, l) => LookSteps(st, d, l, t);
    case Slot(d, e) => SlotSteps(st, d, e, t);
    case Send(d, e) => SendSteps(st, d, e, t);
    case Answering(d, r) => ReplySteps(st, d, r, t);
    case Connection(e) => ConnectSteps(st, e, t);
    case Removal(e) => RemoveSteps(st, e, t);
  }

  /** The step at `k` ends the route. */
  predicate EndsAt(trace: seq<State>, k: nat, t: string)
    requires k + 1 < |trace|
  {
    Ends(trace[k].routes, trace[k + 1].routes, t)
  }

  /** Nothing in between ends the route. */
  predicate Unbroken(trace: seq<State>, i: nat, j: nat, t: string)
    requires j < |trace|
  {
    forall k | i <= k < j :: !EndsAt(trace, k, t)
  }

  lemma UnbrokenLonger(trace: seq<State>, i: nat, j: nat, t: string)
    requires i <= j && j + 1 < |trace|
    ensures Unbroken(trace, i, j + 1, t) <==> Unbroken(trace, i, j, t) && !EndsAt(trace, j, t)
  {
    hide EndsAt;
  }

  lemma NothingBetween(trace: seq<State>, i: nat, t: string)
    requires i < |trace|
    ensures Unbroken(trace, i, i, t)
  {
  }

  lemma RunCountsEpochs(trace: seq<State>, actions: seq<Action>, k: nat, t: string)
    requires Run(trace, actions) && k < |actions|
    ensures EpochOf(trace[k + 1], t) == EpochOf(trace[k], t) + if EndsAt(trace, k, t) then 1 else 0
  {
    hide Enabled, Apply, EpochOf, Ends;
    StepCountsEpochs(trace[k], actions[k], t);
  }

  /** Two states are in one epoch of a route exactly when nothing in between ends it. */
  lemma {:induction false} SameEpochMeansUnbroken(trace: seq<State>, actions: seq<Action>, i: nat, j: nat, t: string)
    requires Run(trace, actions) && i <= j < |trace|
    ensures EpochOf(trace[i], t) <= EpochOf(trace[j], t)
    ensures EpochOf(trace[i], t) == EpochOf(trace[j], t) <==> Unbroken(trace, i, j, t)
    decreases j - i
  {
    hide Enabled, Apply, EpochOf, EndsAt, Unbroken;
    if i < j {
      SameEpochMeansUnbroken(trace, actions, i, j - 1, t);
      RunCountsEpochs(trace, actions, j - 1, t);
      UnbrokenLonger(trace, i, j - 1, t);
    } else {
      NothingBetween(trace, i, t);
    }
  }

  /** A route that nothing ends keeps its node. */
  lemma {:induction false} UnbrokenKeepsNode(trace: seq<State>, i: nat, j: nat, t: string)
    requires i <= j < |trace| && Unbroken(trace, i, j, t) && t in trace[i].routes
    ensures t in trace[j].routes && trace[j].routes[t].nodeID == trace[i].routes[t].nodeID
    decreases j - i
  {
    if i < j {
      UnbrokenKeepsNode(trace, i, j - 1, t);
      assert !EndsAt(trace, j - 1, t);
    }
  }

  // ---------- Readings ----------

  /** Points of the program after routing has answered. */
  predicate Past(pc: Pc) {
    match pc
    case Entry => false
    case Pick(_) => false
    case Reserving(_, _) => false
    case Yielding(_, _, _) => false
    case Find(_, _) => false
    case Acquiring(_, _, _) => false
    case Stale(_, _) => false
    case _ => true
  }

  /** The dispatch believes that it made the route of its terminal session. */
  predicate Created(pc: Pc) {
    match pc
    case Picked(_, created) => created
    case Abandoning(_, created, _) => created
    case Undoing(_, created, _, _) => created
    case Enqueuing(_, created, _) => created
    case Waiting(_, created, _) => created
    case _ => false
  }

  /** Points of the program at which it is still to decide what becomes of the route. */
  predicate Flagged(pc: Pc) {
    pc.Picked? || pc.Abandoning? || pc.Undoing? || pc.Enqueuing? || pc.Waiting?
  }

  predicate FreshReading(st: State, x: Dispatcher) {
    x.tsid in st.routes && x.moment == Some(Moment(st.routes[x.tsid].nodeID, EpochOf(st, x.tsid)))
  }

  /** How one step moves one dispatcher: routing answers with a session or a return, the route is read
      only while routing and as it is then; the claim to have made it comes with making it, exactly, and is
      kept. */
  predicate Moves(st: State, after: State, x: Dispatcher, y: Dispatcher) {
    && y.tsid == x.tsid && y.cap == x.cap
    && (y.moment == x.moment || (!Past(x.pc) && FreshReading(after, y)))
    && (Past(x.pc) ==> Past(y.pc) && y.moment == x.moment && (y.pc.Picked? ==> y.pc == x.pc))
    && (Past(y.pc) ==> Past(x.pc) || y.pc.Picked? || y.pc.Returned?)
    && (Created(y.pc) ==> Created(x.pc) || (x.pc.Reserving? && x.tsid !in st.routes && FreshReading(after, y)))
    && (x.pc.Reserving? && y.pc.Picked? && x.tsid !in st.routes ==> Created(y.pc))
    && (Flagged(x.pc) && Flagged(y.pc) && Created(x.pc) ==> Created(y.pc))
    && (Past(x.pc) && Flagged(y.pc) ==> Flagged(x.pc))
  }

  ghost predicate OnlyMoves(st: State, after: State, d: Did) {
    && d in st.disp && d in after.disp && after.disp == st.disp[d := after.disp[d]]
    && Moves(st, after, st.disp[d], after.disp[d])
  }

  lemma EpochFrame(st: State, after: State, t: string)
    requires after.epochs == st.epochs
    ensures EpochOf(after, t) == EpochOf(st, t)
  {
  }

  lemma RerouteLeavesDispatchers(st: State, fwd: Forward)
    ensures Reroute(st, fwd).disp == st.disp && Reroute(st, fwd).routes == fwd
  {
  }

  lemma LookMoves(st: State, d: Did, l: LookStep)
    requires d in st.disp && CanLook(st, d, l)
    ensures OnlyMoves(st, Looked(st, d, l), d)
  {
    hide Touched, Cleared, Reroute, EpochOf;
    match l {
      case BeginTerminal(now) =>
        var touched := Touched(st.routes, st.disp[d].tsid, now);
        RerouteLeavesDispatchers(st, touched);
        EpochFrame(Reroute(st, touched), Looked(st, d, l), st.disp[d].tsid);
      case ClearStale =>
        RerouteLeavesDispatchers(st, Cleared(st.routes, st.disp[d].tsid, st.disp[d].pc.node));
      case BeginPlain => case PickFails(r) => case FindSession =>
    }
  }

  lemma SlotMoves(st: State, d: Did, t: SlotStep)
    requires d in st.disp && CanSlot(st, d, t)
    ensures OnlyMoves(st, Slotted(st, d, t), d)
  {
    hide Acquire, Release, EpochOf;
    var x := st.disp[d];
    match t {
      case ReserveRoute(now) =>
        EpochFrame(Reroute(st, Reserved(st.routes, x.tsid, st.sess[x.pc.s].node, now)), Slotted(st, d, t), x.tsid);
      case PickTakes(u) => case YieldSlot => case AcquireFound => case AbandonSlot =>
    }
  }

  /** Steps of a dispatcher that is past routing: only its place in the program changes. */
  ghost predicate OnlyGoes(st: State, after: State, d: Did) {
    && d in st.disp && d in after.disp
    && after.disp == st.disp[d := st.disp[d].(pc := after.disp[d].pc)]
    && Past(st.disp[d].pc) && Past(after.disp[d].pc) && !after.disp[d].pc.Picked?
    && (Created(after.disp[d].pc) ==> Created(st.disp[d].pc))
    && (Flagged(after.disp[d].pc) ==>
          Flagged(st.disp[d].pc) && (Created(st.disp[d].pc) ==> Created(after.disp[d].pc)))
  }

  lemma GoingMoves(st: State, after: State, d: Did)
    requires OnlyGoes(st, after, d)
    ensures OnlyMoves(st, after, d)
  {
    hide FreshReading, Past, Created;
  }

  lemma GotoGoes(st: State, mid: State, d: Did, pc: Pc)
    requires d in st.disp && mid.disp == st.disp
    requires Past(st.disp[d].pc) && Past(pc) && !pc.Picked? && (Created(pc) ==> Created(st.disp[d].pc))
    requires Flagged(pc) ==> Flagged(st.disp[d].pc) && (Created(st.disp[d].pc) ==> Created(pc))
    ensures OnlyGoes(st, Goto(mid, d, pc), d)
  {
    hide Past, Created;
  }

  lemma SendGoes(st: State, d: Did, e: SendStep)
    requires d in st.disp && CanSend(st, d, e)
    ensures OnlyGoes(st, Sent(st, d, e), d)
  {
    hide OnlyGoes, Goto;
    var x := st.disp[d];
    match e {
      case NoCommandID => GotoGoes(st, st, d, Abandoning(x.pc.s, x.pc.created, Internal));
      case Register(id) =>
        GotoGoes(st, st, d, Abandoning(x.pc.s, x.pc.created, Internal));
        GotoGoes(st, st, d, Abandoning(x.pc.s, x.pc.created, Unavailable));
        GotoGoes(st, AddEntry(st, x.pc.s, id, x.cap, d), d, Enqueuing(x.pc.s, x.pc.created, id));
      case EnqueueFails(reply) => GotoGoes(st, st, d, Undoing(x.pc.s, x.pc.created, Some(x.pc.cmd), reply));
      case EnqueueSucceeds => GotoGoes(st, st, d, Waiting(x.pc.s, x.pc.created, x.pc.cmd));
    }
  }

  lemma ReplyGoes(st: State, d: Did, r: ReplyStep)
    requires d in st.disp && CanReply(st, d, r)
    ensures OnlyGoes(st, Replied(st, d, r), d)
  {
    if r.Settle? || r.UndoRoute? {
      ReroutingGoes(st, d, r);
    } else {
      hide OnlyGoes, Goto, TakeEntry;
      var x := st.disp[d];
      match r {
        case WaitEnds => GotoGoes(st, st, d, Unregistering(x.pc.s, x.pc.cmd, ContextEnded));
        case Receive =>
          if st.cmds[x.pc.cmd].chan.buffer != [] {
            GotoGoes(st, Deliver(st, x.pc.cmd), d, Settling(x.pc.s, x.pc.cmd, st.cmds[x.pc.cmd].chan.buffer[0]));
          } else {
            GotoGoes(st, st, d, Undoing(x.pc.s, x.pc.created, Some(x.pc.cmd), BareClose));
          }
        case Unregister =>
          if x.pc.cmd in st.sess[x.pc.s].pending {
            TakingLeavesDispatchers(st, x.pc.s, x.pc.cmd);
            GotoGoes(st, TakeEntry(st, x.pc.s, x.pc.cmd, ByUnregister, None), d, Leaving(x.pc.cmd, x.pc.reply));
          } else {
            GotoGoes(st, st, d, Returned(x.pc.reply));
          }
        case Leave => GotoGoes(st, st, d, Returned(x.pc.reply));
      }
    }
  }

  lemma TakingLeavesDispatchers(st: State, s: Sid, k: string)
    requires s in st.sess && k in st.sess[s].pending && k in st.cmds
    ensures TakeEntry(st, s, k, ByUnregister, None).disp == st.disp
  {
  }

  lemma ReroutingGoes(st: State, d: Did, r: ReplyStep)
    requires d in st.disp && CanReply(st, d, r) && (r.Settle? || r.UndoRoute?)
    ensures OnlyGoes(st, Replied(st, d, r), d)
  {
    hide OnlyGoes, Goto, SettledRoutes, Cleared, Reroute;
    var x := st.disp[d];
    match r {
      case Settle(now, notFound) =>
        var settled := SettledRoutes(st, x.tsid, x.pc.s, x.pc.outcome, now, notFound);
        RerouteLeavesDispatchers(st, settled);
        GotoGoes(st, Reroute(st, settled), d, Unregistering(x.pc.s, x.pc.cmd, Got(x.pc.outcome)));
      case UndoRoute =>
        var cleared := Cleared(st.routes, x.tsid, st.sess[x.pc.s].node);
        RerouteLeavesDispatchers(st, cleared);
        GotoGoes(st, Reroute(st, cleared), d, AfterUndo(x.pc.s, x.pc.registered, x.pc.reply));
        GotoGoes(st, st, d, AfterUndo(x.pc.s, x.pc.registered, x.pc.reply));
    }
  }

  /** Every step moves every dispatcher in this way; a new one has not read anything. */
  lemma StepMoves(st: State, a: Action, e: Did)
    requires Enabled(st, a)
    ensures e in st.disp ==> e in Apply(st, a).disp && Moves(st, Apply(st, a), st.disp[e], Apply(st, a).disp[e])
    ensures e !in st.disp && e in Apply(st, a).disp ==>
              Apply(st, a).disp[e].pc.Entry? && Apply(st, a).disp[e].moment.None?
  {
    hide Looked, Slotted, Sent, Replied, FreshReading, Past, Created;
    match a
    case Start(d, cap, tsid) =>
    case Look(d, l) => LookMoves(st, d, l);
    case Slot(d, t) => SlotMoves(st, d, t);
    case Send(d, s) =>
      SendGoes(st, d, s);
      GoingMoves(st, Sent(st, d, s), d);
    case Answering(d, r) =>
      ReplyGoes(st, d, r);
      GoingMoves(st, Replied(st, d, r), d);
    case Connection(c) => ConnectLeavesDispatchers(st, c);
    case Removal(r) => RemoveLeavesDispatchers(st, r);
  }

  lemma ConnectLeavesDispatchers(st: State, e: ConnectStep)
    requires CanConnect(st, e)
    ensures Connected(st, e).disp == st.disp
  {
  }

  lemma RemoveLeavesDispatchers(st: State, e: RemoveStep)
    requires CanRemove(st, e)
    ensures Removed(st, e).disp == st.disp
  {
    hide OutcomeOf, Moved, MarkRemoved, CloseChan, Release;
  }

  lemma RunMoves(trace: seq<State>, actions: seq<Action>, k: nat, e: Did)
    requires Run(trace, actions) && k < |actions|
    ensures e in trace[k].disp ==>
              e in trace[k + 1].disp && Moves(trace[k], trace[k + 1], trace[k].disp[e], trace[k + 1].disp[e])
    ensures e !in trace[k].disp && e in trace[k + 1].disp ==>
              trace[k + 1].disp[e].pc.Entry? && trace[k + 1].disp[e].moment.None?
  {
    hide Enabled, Apply, Moves;
    StepMoves(trace[k], actions[k], e);
  }

  lemma PastMoves(st: State, after: State, x: Dispatcher, y: Dispatcher)
    requires Moves(st, after, x, y) && Past(x.pc)
    ensures Past(y.pc) && y.tsid == x.tsid && y.moment == x.moment && (y.pc.Picked? ==> y.pc == x.pc)
  {
  }

  lemma ReadingStays(trace: seq<State>, actions: seq<Action>, k: nat, d: Did)
    requires Run(trace, actions) && k < |actions| && d in trace[k].disp && Past(trace[k].disp[d].pc)
    ensures d in trace[k + 1].disp && Past(trace[k + 1].disp[d].pc)
    ensures trace[k + 1].disp[d].tsid == trace[k].disp[d].tsid
    ensures trace[k + 1].disp[d].moment == trace[k].disp[d].moment
  {
    hide Enabled, Apply, Past, Moves;
    RunMoves(trace, actions, k, d);
    PastMoves(trace[k], trace[k + 1], trace[k].disp[d], trace[k + 1].disp[d]);
  }

  /** Once routing has answered, a dispatcher's reading is final. */
  lemma {:induction false} ReadingIsFinal(trace: seq<State>, actions: seq<Action>, i: nat, j: nat, d: Did)
    requires Run(trace, actions) && i <= j < |trace| && d in trace[i].disp && Past(trace[i].disp[d].pc)
    ensures d in trace[j].disp && Past(trace[j].disp[d].pc)
    ensures trace[j].disp[d].tsid == trace[i].disp[d].tsid && trace[j].disp[d].moment == trace[i].disp[d].moment
    decreases j - i
  {
    hide Enabled, Apply, Past;
    if i < j {
      ReadingIsFinal(trace, actions, i, j - 1, d);
      ReadingStays(trace, actions, j - 1, d);
    }
  }

  /** Where a routed dispatcher's session runs, as its route named it when read. */
  lemma PickedWhereRead(trace: seq<State>, actions: seq<Action>, i: nat, d: Did)
    requires Run(trace, actions) && i < |trace| && d in trace[i].disp && trace[i].disp[d].pc.Picked?
    requires trace[i].disp[d].tsid != ""
    ensures trace[i].disp[d].pc.s in trace[i].sess && trace[i].disp[d].moment.Some?
    ensures trace[i].sess[trace[i].disp[d].pc.s].node == trace[i].disp[d].moment.value.node
    ensures trace[i].disp[d].moment.value.epoch <= EpochOf(trace[i], trace[i].disp[d].tsid)
  {
    RunKeepsInv(trace, actions, i);
    RoutedWhereRead(trace[i], d);
    assert MomentOk(trace[i], trace[i].disp[d]);
  }

  /** Readings of one route in one epoch agree, however long ago the first dispatch was routed. */
  lemma ReadingsAgree(trace: seq<State>, actions: seq<Action>, j: nat, d: Did, e: Did)
    requires Run(trace, actions) && j < |trace| && d in trace[j].disp && e in trace[j].disp
    requires SameMoment(trace[j].disp[d], trace[j].disp[e])
    ensures trace[j].disp[d].moment.value.node == trace[j].disp[e].moment.value.node
  {
    RunKeepsInv(trace, actions, j);
    hide AllConserved, Placed, DeliveryInv, AttendedInv, CurrentOk, MomentsOk, RoutesOk;
  }

  /** Two successful picks of one terminal session whose readings of its route fall in one epoch, with
      no clear, prune or rebind between them, land on one node; the first dispatch may have returned
      long before the second is routed. */
  lemma StickyWithinAnEpoch(trace: seq<State>, actions: seq<Action>, i: nat, j: nat, d: Did, e: Did)
    requires Run(trace, actions) && i <= j < |trace| && d in trace[i].disp && e in trace[j].disp
    requires trace[i].disp[d].pc.Picked? && trace[j].disp[e].pc.Picked?
    requires trace[i].disp[d].tsid != "" && SameMoment(trace[i].disp[d], trace[j].disp[e])
    ensures var s, t := trace[i].disp[d].pc.s, trace[j].disp[e].pc.s;
            s in trace[i].sess && t in trace[j].sess && trace[i].sess[s].node == trace[j].sess[t].node
  {
    PickedWhereRead(trace, actions, i, d);
    PickedWhereRead(trace, actions, j, e);
    ReadingIsFinal(trace, actions, i, j, d);
    ReadingsAgree(trace, actions, j, d, e);
  }

  // ---------- Answers ----------

  /** A dispatch that starts to read its route once it is on a node, and while nothing ends that route,
      reads this node. */
  lemma {:induction false} LaterReadingsSee(trace: seq<State>, actions: seq<Action>, i: nat, j: nat, t: string, e: Did)
    requires Run(trace, actions) && i <= j < |trace| && t in trace[i].routes && Unbroken(trace, i, j, t)
    requires e in trace[i].disp ==> trace[i].disp[e].moment.None?
    ensures e in trace[j].disp && trace[j].disp[e].tsid == t && trace[j].disp[e].moment.Some? ==>
              trace[j].disp[e].moment.value.node == trace[i].routes[t].nodeID
    decreases j - i
  {
    hide Enabled, Apply, EndsAt, EpochOf;
    if i < j {
      UnbrokenLonger(trace, i, j - 1, t);
      UnbrokenKeepsNode(trace, i, j, t);
      LaterReadingsSee(trace, actions, i, j - 1, t, e);
      RunMoves(trace, actions, j - 1, e);
      hide Run, Unbroken;
    }
  }

  /** When a success has settled, the terminal session sticks to the node that served it: as long as
      nothing clears, prunes or rebinds its route, every dispatch that reads the route from then on
      and is routed at all runs on that node. */
  lemma SuccessIsSticky(trace: seq<State>, actions: seq<Action>, i: nat, j: nat, d: Did, e: Did)
    requires Run(trace, actions) && i < |actions| && i + 1 <= j < |trace|
    requires actions[i].Answering? && actions[i].d == d && actions[i].reply.Settle?
    requires trace[i].disp[d].tsid != "" && trace[i].disp[d].pc.outcome.Answer?
    requires Unbroken(trace, i + 1, j, trace[i].disp[d].tsid)
    requires e in trace[i + 1].disp ==> trace[i + 1].disp[e].moment.None?
    requires e in trace[j].disp && trace[j].disp[e].tsid == trace[i].disp[d].tsid && trace[j].disp[e].pc.Picked?
    ensures trace[j].disp[e].pc.s in trace[j].sess
    ensures trace[j].sess[trace[j].disp[e].pc.s].node == trace[i].sess[trace[i].disp[d].pc.s].node
  {
    var t := trace[i].disp[d].tsid;
    SettlingBinds(trace, actions, i, d);
    hide Enabled, Apply, EndsAt, EpochOf;
    LaterReadingsSee(trace, actions, i + 1, j, t, e);
    PickedWhereRead(trace, actions, j, e);
  }

  lemma SettlingBinds(trace: seq<State>, actions: seq<Action>, i: nat, d: Did)
    requires Run(trace, actions) && i < |actions|
    requires actions[i].Answering? && actions[i].d == d && actions[i].reply.Settle?
    requires trace[i].disp[d].tsid != "" && trace[i].disp[d].pc.outcome.Answer?
    ensures var t := trace[i].disp[d].tsid;
            && t in trace[i + 1].routes
            && trace[i + 1].routes[t].nodeID == trace[i].sess[trace[i].disp[d].pc.s].node
  {
    hide Looked, Slotted, Sent, Connected, Removed;
    assert Enabled(trace[i], actions[i]) && trace[i + 1] == Apply(trace[i], actions[i]);
  }

  predicate Names(st: State, t: string, node: string) {
    t in st.routes && st.routes[t].nodeID == node
  }

  /** What settling does to the table: a "session not found" of a terminal session takes the failing
      node out of its route; no other failure changes anything; other routes are left alone. */
  lemma SettlingUnbinds(trace: seq<State>, actions: seq<Action>, i: nat, d: Did)
    requires Run(trace, actions) && i < |actions|
    requires actions[i].Answering? && actions[i].d == d && actions[i].reply.Settle?
    ensures var x := trace[i].disp[d];
            && (x.tsid != "" && x.pc.outcome.Failure? && actions[i].reply.notFound ==>
                  !Names(trace[i + 1], x.tsid, trace[i].sess[x.pc.s].node)
                  && (x.tsid in trace[i + 1].routes ==> x.tsid in trace[i].routes))
            && (!x.pc.outcome.Answer? && !(x.pc.outcome.Failure? && actions[i].reply.notFound) ==>
                  trace[i + 1].routes == trace[i].routes)
            && (forall t | t != x.tsid :: (t in trace[i + 1].routes <==> t in trace[i].routes)
                  && (t in trace[i].routes ==> trace[i + 1].routes[t] == trace[i].routes[t]))
  {
    hide Looked, Slotted, Sent, Connected, Removed;
    assert Enabled(trace[i], actions[i]) && trace[i + 1] == Apply(trace[i], actions[i]);
  }

  /** The step at `k` makes the route name the node. */
  predicate NamesAgain(trace: seq<State>, k: nat, t: string, node: string)
    requires k + 1 < |trace|
  {
    !Names(trace[k], t, node) && Names(trace[k + 1], t, node)
  }

  lemma {:induction false} LaterReadingsAvoid(trace: seq<State>, actions: seq<Action>, i: nat, j: nat, t: string,
                                              node: string, e: Did)
    requires Run(trace, actions) && i <= j < |trace| && !Names(trace[i], t, node)
    requires forall k | i <= k < j :: !NamesAgain(trace, k, t, node)
    requires e in trace[i].disp ==> trace[i].disp[e].moment.None?
    ensures !Names(trace[j], t, node)
    ensures e in trace[j].disp && trace[j].disp[e].tsid == t && trace[j].disp[e].moment.Some? ==>
              trace[j].disp[e].moment.value.node != node
    decreases j - i
  {
    hide Enabled, Apply, EpochOf;
    if i < j {
      LaterReadingsAvoid(trace, actions, i, j - 1, t, node, e);
      RunMoves(trace, actions, j - 1, e);
      assert !NamesAgain(trace, j - 1, t, node);
      hide Run;
    }
  }

  /** When "session not found" has settled, every dispatch that reads the route from then on and is
      routed runs on another node, until something makes the route name the failing node again. */
  lemma NotFoundUnsticks(trace: seq<State>, actions: seq<Action>, i: nat, j: nat, d: Did, e: Did)
    requires Run(trace, actions) && i < |actions| && i + 1 <= j < |trace|
    requires actions[i].Answering? && actions[i].d == d && actions[i].reply.Settle? && actions[i].reply.notFound
    requires trace[i].disp[d].tsid != "" && trace[i].disp[d].pc.outcome.Failure?
    requires var t, node := trace[i].disp[d].tsid, trace[i].sess[trace[i].disp[d].pc.s].node;
             forall k | i < k < j :: !NamesAgain(trace, k, t, node)
    requires e in trace[i + 1].disp ==> trace[i + 1].disp[e].moment.None?
    requires e in trace[j].disp && trace[j].disp[e].tsid == trace[i].disp[d].tsid && trace[j].disp[e].pc.Picked?
    ensures trace[j].disp[e].pc.s in trace[j].sess
    ensures trace[j].sess[trace[j].disp[e].pc.s].node != trace[i].sess[trace[i].disp[d].pc.s].node
  {
    var t, node := trace[i].disp[d].tsid, trace[i].sess[trace[i].disp[d].pc.s].node;
    SettlingUnbinds(trace, actions, i, d);
    hide Enabled, Apply, EpochOf, Names, NamesAgain;
    LaterReadingsAvoid(trace, actions, i + 1, j, t, node, e);
    PickedWhereRead(trace, actions, j, e);
  }

  // ---------- Rollbacks ----------

  /** The step at `k` is the reserve by which the dispatch made the route of its terminal session. */
  predicate MadeAt(trace: seq<State>, k: nat, d: Did)
    requires k + 1 < |trace|
  {
    && d in trace[k].disp && d in trace[k + 1].disp
    && trace[k].disp[d].pc.Reserving? && trace[k + 1].disp[d].pc.Picked?
    && trace[k].disp[d].tsid !in trace[k].routes && trace[k].disp[d].tsid in trace[k + 1].routes
  }

  /** The dispatch has made the route of its terminal session, now or earlier. */
  predicate Made(trace: seq<State>, i: nat, d: Did)
    requires i < |trace|
  {
    exists k | 0 <= k < i :: MadeAt(trace, k, d)
  }

  /** The route of the dispatch's terminal session is still the one that the dispatch made. */
  predicate Own(trace: seq<State>, i: nat, d: Did)
    requires i < |trace| && d in trace[i].disp
  {
    exists k | 0 <= k < i :: MadeAt(trace, k, d) && Unbroken(trace, k + 1, i, trace[i].disp[d].tsid)
  }

  /** The claim to have made a route goes back to making it. */
  lemma {:induction false} CreatedMeansMade(trace: seq<State>, actions: seq<Action>, i: nat, d: Did) returns (k: nat)
    requires Run(trace, actions) && i < |trace| && d in trace[i].disp && Created(trace[i].disp[d].pc)
    ensures k < i && MadeAt(trace, k, d)
  {
    if i == 0 {
      assert false;
    }
    hide Enabled, Apply, EpochOf;
    RunMoves(trace, actions, i - 1, d);
    assert !Created(Entry);
    if Created(trace[i - 1].disp[d].pc) {
      k := CreatedMeansMade(trace, actions, i - 1, d);
    } else {
      k := i - 1;
    }
  }

  /** Having made a route is remembered until the command has been answered. */
  lemma {:induction false} MadeMeansCreated(trace: seq<State>, actions: seq<Action>, k: nat, i: nat, d: Did)
    requires Run(trace, actions) && k < i < |trace| && MadeAt(trace, k, d)
    ensures d in trace[i].disp && Past(trace[i].disp[d].pc)
    ensures Flagged(trace[i].disp[d].pc) ==> Created(trace[i].disp[d].pc)
    decreases i - k
  {
    hide Enabled, Apply, EpochOf;
    RunMoves(trace, actions, i - 1, d);
    if k < i - 1 {
      MadeMeansCreated(trace, actions, k, i - 1, d);
    }
  }

  /** A dispatch whose reading is of the route's present epoch still has its own route, and conversely. */
  lemma OwnMeansSameEpoch(trace: seq<State>, actions: seq<Action>, k: nat, i: nat, d: Did)
    requires Run(trace, actions) && k < i < |trace| && MadeAt(trace, k, d)
    ensures d in trace[i].disp && trace[i].disp[d].moment.Some?
    ensures trace[i].disp[d].moment.value.epoch == EpochOf(trace[i], trace[i].disp[d].tsid)
       <==> Unbroken(trace, k + 1, i, trace[i].disp[d].tsid)
  {
    hide Enabled, Apply, EpochOf, Unbroken;
    RunMoves(trace, actions, k, d);
    ReadingIsFinal(trace, actions, k + 1, i, d);
    SameEpochMeansUnbroken(trace, actions, k + 1, i, trace[i].disp[d].tsid);
  }

  /** The step at `i` takes the route of the dispatch's terminal session out of the table. */
  predicate TakesRoute(trace: seq<State>, i: nat, d: Did)
    requires i + 1 < |trace| && d in trace[i].disp
  {
    trace[i].disp[d].tsid in trace[i].routes && trace[i].disp[d].tsid !in trace[i + 1].routes
  }

  /** What the rollback of a failed dispatch does to the table. */
  lemma UndoClears(trace: seq<State>, actions: seq<Action>, i: nat, d: Did)
    requires Run(trace, actions) && i < |actions| && actions[i] == Answering(d, UndoRoute)
    ensures d in trace[i].disp && trace[i].disp[d].pc.Undoing? && trace[i].disp[d].pc.s in trace[i].sess
    ensures var x := trace[i].disp[d];
            var cleared := Cleared(trace[i].routes, x.tsid, trace[i].sess[x.pc.s].node);
            trace[i + 1].routes == if x.pc.created && x.tsid != "" then cleared else trace[i].routes
  {
    hide Looked, Slotted, Sent, Connected, Removed;
    assert Enabled(trace[i], actions[i]) && trace[i + 1] == Apply(trace[i], actions[i]);
  }

  /** The reading of a dispatch that rolls back names its own session's node, and is what the route
      says if the epoch is still the same. */
  lemma UndoingReading(st: State, d: Did)
    requires RoutingInv(st) && d in st.disp && st.disp[d].pc.Undoing? && st.disp[d].tsid != ""
    ensures st.disp[d].pc.s in st.sess && st.disp[d].moment.Some?
    ensures st.disp[d].moment.value.epoch == EpochOf(st, st.disp[d].tsid) ==>
              st.disp[d].tsid in st.routes && st.routes[st.disp[d].tsid].nodeID == st.sess[st.disp[d].pc.s].node
  {
    RoutedWhereRead(st, d);
    assert MomentOk(st, st.disp[d]);
  }

  /** Exactly when a rollback takes back the route that its own dispatch made: it made one, and the
      route has not ended since. When it made one that has ended, and another route to the same node
      has taken its place, it is that route of another dispatch that goes. In every other case the
      rollback changes nothing. */
  lemma RollbackTakesItsOwnRouteExactly(trace: seq<State>, actions: seq<Action>, i: nat, d: Did)
    requires Run(trace, actions) && i < |actions| && actions[i] == Answering(d, UndoRoute)
    ensures d in trace[i].disp && trace[i].disp[d].pc.Undoing? && trace[i].disp[d].pc.s in trace[i].sess
    ensures var x := trace[i].disp[d];
            var made := Made(trace, i, d) && x.tsid != "";
            var same := x.moment.Some? && x.moment.value.epoch == EpochOf(trace[i], x.tsid);
            var node := trace[i].sess[x.pc.s].node;
            && ((TakesRoute(trace, i, d) && Own(trace, i, d)) <==> (made && same))
            && ((TakesRoute(trace, i, d) && !Own(trace, i, d)) <==>
                  (made && !same && x.tsid in trace[i].routes && trace[i].routes[x.tsid].nodeID == node))
            && (!TakesRoute(trace, i, d) ==> trace[i + 1].routes == trace[i].routes)
  {
    UndoClears(trace, actions, i, d);
    var x := trace[i].disp[d];
    hide Run, Enabled, Apply, EpochOf, Unbroken, MadeAt, Made;
    SessionsAreNamed(trace, actions, i);
    MadeExactly(trace, actions, i, d);
    if x.pc.created && x.tsid != "" {
      RunKeepsInv(trace, actions, i);
      UndoingReading(trace[i], d);
      OwnExactly(trace, actions, i, d);
      hide Inv, Own;
    }
  }

  lemma MadeExactly(trace: seq<State>, actions: seq<Action>, i: nat, d: Did)
    requires Run(trace, actions) && i < |trace| && d in trace[i].disp && Flagged(trace[i].disp[d].pc)
    ensures Made(trace, i, d) <==> Created(trace[i].disp[d].pc)
    ensures Own(trace, i, d) ==> Made(trace, i, d)
  {
    hide Run, Unbroken, MadeAt, Created, Flagged;
    if Created(trace[i].disp[d].pc) {
      var k := CreatedMeansMade(trace, actions, i, d);
    }
    if Made(trace, i, d) {
      var k :| 0 <= k < i && MadeAt(trace, k, d);
      MadeMeansCreated(trace, actions, k, i, d);
    }
    if Own(trace, i, d) {
      var k :| 0 <= k < i && MadeAt(trace, k, d) && Unbroken(trace, k + 1, i, trace[i].disp[d].tsid);
    }
  }

  lemma OwnExactly(trace: seq<State>, actions: seq<Action>, i: nat, d: Did)
    requires Run(trace, actions) && i < |trace| && d in trace[i].disp && Created(trace[i].disp[d].pc)
    ensures trace[i].disp[d].moment.Some?
    ensures Own(trace, i, d) <==> trace[i].disp[d].moment.value.epoch == EpochOf(trace[i], trace[i].disp[d].tsid)
  {
    hide Enabled, Apply, EpochOf, Unbroken, MadeAt, Created;
    var made := CreatedMeansMade(trace, actions, i, d);
    OwnMeansSameEpoch(trace, actions, made, i, d);
    if Own(trace, i, d) {
      var k :| 0 <= k < i && MadeAt(trace, k, d) && Unbroken(trace, k + 1, i, trace[i].disp[d].tsid);
      OwnMeansSameEpoch(trace, actions, k, i, d);
    }
  }
}
