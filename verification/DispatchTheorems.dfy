/** The invariant over whole runs, and what it gives for every reachable state. */
module DispatchTheorems {
  import opened Prelude
  import opened Text
  import opened SessionRuntime
  import opened Routes
  import opened Dispatch
  import opened DispatchSlots
  import opened DispatchDelivery
  import opened DispatchRouting

  ghost predicate Inv(st: State) {
    AllConserved(st) && Placed(st) && DeliveryInv(st) && RoutingInv(st) && AttendedInv(st)
  }

  lemma DispatcherFacts(st: State, d: Did)
    requires Inv(st) && d in st.disp
    ensures RouteOk(st.sess, st.disp[d]) && Owns(st.cmds, d, st.disp[d].pc) && CurrentOk(st)
    ensures Held(st.disp[d].pc).Some? ==> Offers(st.sess, Held(st.disp[d].pc).value, st.disp[d].cap)
  {
  }

  lemma PendingFacts(st: State, s: Sid)
    requires Inv(st) && s in st.sess
    ensures forall k :: k in st.sess[s].pending ==> k in st.cmds && k !in st.owed
  {
    forall k | k in st.sess[s].pending
      ensures k in st.cmds && k !in st.owed
    {
      assert PendingOk(st, s, k);
    }
  }

  lemma OwedFacts(st: State, k: string)
    requires Inv(st) && k in st.owed
    ensures Offers(st.sess, st.owed[k].s, st.owed[k].cap)
  {
  }

  // ---------- Primitive steps keep the invariant ----------

  lemma GotoKeeps(st: State, d: Did, pc: Pc)
    requires Inv(st) && d in st.disp && Held(pc) == Held(st.disp[d].pc)
    requires Owns(st.cmds, d, pc) && RouteOk(st.sess, st.disp[d].(pc := pc))
    requires KeepsAttending(st, st.disp[d].pc, pc)
    ensures Inv(Goto(st, d, pc))
  {
    hide AllConserved, Placed, DeliveryInv, RoutingInv, AttendedInv;
    MoveConserves(st, d, pc);
    MovePlaces(st, d, pc);
    MoveDelivers(st, d, pc);
    MoveRoutes(st, d, pc);
    MoveAttends(st, d, pc);
  }

  lemma RerouteKeeps(st: State, fwd: Forward)
    requires Inv(st)
    ensures Inv(Reroute(st, fwd))
  {
    hide AllConserved, Placed, DeliveryInv, RoutingInv, AttendedInv;
    RerouteSlots(st, fwd);
    SameDeliveryDelivers(st, Reroute(st, fwd));
    RerouteRoutes(st, fwd);
    StillAttended(st, Reroute(st, fwd));
  }

  lemma WitnessKeeps(st: State, d: Did, pc: Pc)
    requires Inv(st) && d in st.disp && st.disp[d].tsid in st.routes && st.disp[d].tsid != ""
    requires Held(pc) == Held(st.disp[d].pc) && Owns(st.cmds, d, pc)
    requires RouteOk(st.sess, Witness(st, d).disp[d].(pc := pc))
    requires CommandOf(st.disp[d].pc).None?
    ensures Inv(Goto(Witness(st, d), d, pc))
  {
    hide AllConserved, Placed, DeliveryInv, RoutingInv, AttendedInv;
    var mid := Witness(st, d);
    WitnessSlots(st, d);
    MoveConserves(mid, d, pc);
    MovePlaces(mid, d, pc);
    SameDeliveryDelivers(st, mid);
    MoveDelivers(mid, d, pc);
    WitnessRoutes(st, d, pc);
    StillAttended(st, mid);
    MoveAttends(mid, d, pc);
  }

  /** Only the counters of one session change, and then `d` moves on. */
  lemma CountedMoveRest(st: State, d: Did, s: Sid, caps: Capabilities, pc: Pc)
    requires DeliveryInv(st) && RoutingInv(st) && AttendedInv(st) && d in st.disp && s in st.sess
    requires Owns(st.cmds, d, pc) && RouteOk(st.sess, st.disp[d].(pc := pc))
    requires CommandOf(st.disp[d].pc).None?
    ensures DeliveryInv(Goto(SetCaps(st, s, caps), d, pc)) && RoutingInv(Goto(SetCaps(st, s, caps), d, pc))
    ensures AttendedInv(Goto(SetCaps(st, s, caps), d, pc))
  {
    hide AllConserved, Placed, DeliveryInv, RoutingInv, AttendedInv;
    CountedMoveRoutes(st, d, s, caps, pc);
    var mid := SetCaps(st, s, caps);
    SameDeliveryDelivers(st, mid);
    MoveDelivers(mid, d, pc);
    StillAttended(st, mid);
    MoveAttends(mid, d, pc);
  }

  lemma CountedMoveRoutes(st: State, d: Did, s: Sid, caps: Capabilities, pc: Pc)
    requires RoutingInv(st) && d in st.disp && s in st.sess && RouteOk(st.sess, st.disp[d].(pc := pc))
    ensures RoutingInv(Goto(SetCaps(st, s, caps), d, pc))
  {
    hide RoutingInv;
    SameRoutingRoutes(st, SetCaps(st, s, caps));
    MoveRoutes(SetCaps(st, s, caps), d, pc);
  }

  lemma AcquireKeeps(st: State, d: Did, s: Sid, pc: Pc)
    requires Inv(st) && d in st.disp && Held(st.disp[d].pc).None? && Held(pc) == Some(s)
    requires s in st.sess && CanAcquire(st.sess[s].caps, st.disp[d].cap) && CommandOf(st.disp[d].pc).None?
    requires Owns(st.cmds, d, pc) && RouteOk(st.sess, st.disp[d].(pc := pc))
    ensures Inv(Goto(SetCaps(st, s, Acquire(st.sess[s].caps, st.disp[d].cap)), d, pc))
  {
    hide AllConserved, Placed, DeliveryInv, RoutingInv, AttendedInv;
    var caps := Acquire(st.sess[s].caps, st.disp[d].cap);
    SlotTaken(st, d, s, pc);
    CountedMovePlaces(st, d, s, caps, pc);
    CountedMoveRest(st, d, s, caps, pc);
  }

  lemma ReleaseKeeps(st: State, d: Did, s: Sid, pc: Pc)
    requires Inv(st) && d in st.disp && Held(st.disp[d].pc) == Some(s) && Held(pc).None? && s in st.sess
    requires CommandOf(st.disp[d].pc).None?
    requires Owns(st.cmds, d, pc) && RouteOk(st.sess, st.disp[d].(pc := pc))
    ensures Inv(Goto(SetCaps(st, s, Release(st.sess[s].caps, st.disp[d].cap)), d, pc))
  {
    hide AllConserved, Placed, DeliveryInv, RoutingInv, AttendedInv;
    var caps := Release(st.sess[s].caps, st.disp[d].cap);
    DispatcherFacts(st, d);
    SlotReturned(st, d, s, pc);
    CountedMovePlaces(st, d, s, caps, pc);
    CountedMoveRest(st, d, s, caps, pc);
  }

  lemma RegisterKeeps(st: State, d: Did, s: Sid, id: string, pc: Pc)
    requires Inv(st) && d in st.disp && Held(st.disp[d].pc) == Some(s) && CommandOf(st.disp[d].pc).None?
    requires s in st.sess && !st.sess[s].done && id !in st.cmds
    requires pc.Enqueuing? && pc.s == s && pc.cmd == id && RouteOk(st.sess, st.disp[d].(pc := pc))
    ensures Inv(Goto(AddEntry(st, s, id, st.disp[d].cap, d), d, pc))
  {
    hide AllConserved, Placed, DeliveryInv, RoutingInv, AttendedInv;
    var mid := AddEntry(st, s, id, st.disp[d].cap, d);
    PendingFacts(st, s);
    SlotRegistered(st, d, s, id, pc);
    RegisteredPlaces(st, d, s, id, pc);
    RegisterDelivers(st, d, s, id, st.disp[d].cap, pc);
    SameRoutingRoutes(st, mid);
    MoveRoutes(mid, d, pc);
    RegisterAttends(st, d, s, id, st.disp[d].cap, pc);
  }

  lemma TakeKeeps(st: State, s: Sid, k: string, via: Remover, outcome: Option<Outcome>)
    requires Inv(st) && s in st.sess && k in st.sess[s].pending && k in st.cmds
    requires outcome.None? <==> via.ByUnregister?
    requires outcome.Some? ==> Honest(st.sess, s, k, outcome.value)
    requires via.ByUnregister? ==>
               forall d :: d in st.disp && Early(st.disp[d].pc) ==> CommandOf(st.disp[d].pc) != Some(k)
    ensures Inv(TakeEntry(st, s, k, via, outcome))
  {
    hide AllConserved, Placed, DeliveryInv, RoutingInv, AttendedInv;
    PendingFacts(st, s);
    SlotRemoved(st, s, k, via, outcome);
    TakenEntryPlaces(st, s, k, via, outcome);
    TakeDelivers(st, s, k, via, outcome);
    SameRoutingRoutes(st, TakeEntry(st, s, k, via, outcome));
    StillAttended(st, TakeEntry(st, s, k, via, outcome));
  }

  lemma DrainKeeps(st: State, s: Sid)
    requires Inv(st) && s in st.sess && st.sess[s].closedErr.Some? && !st.sess[s].drained
    ensures Inv(TakeAll(st, s, Some(SessionLost(st.sess[s].closedErr.value))))
  {
    hide AllConserved, Placed, DeliveryInv, RoutingInv, AttendedInv;
    var outcome := Some(SessionLost(st.sess[s].closedErr.value));
    PendingFacts(st, s);
    SlotsDrained(st, s, outcome);
    TakenAllPlaces(st, s, outcome);
    DrainDelivers(st, s);
    SameRoutingRoutes(st, TakeAll(st, s, outcome));
    StillAttended(st, TakeAll(st, s, outcome));
  }

  lemma SettleKeeps(st: State, k: string)
    requires Inv(st) && k in st.owed && !st.owed[k].released && st.owed[k].s in st.sess
    ensures Inv(ReleaseEntry(st, k))
  {
    hide AllConserved, Placed, DeliveryInv, RoutingInv, AttendedInv;
    OwedFacts(st, k);
    SlotSettled(st, k);
    ReleasedEntryPlaces(st, k);
    SameDeliveryDelivers(st, ReleaseEntry(st, k));
    SameRoutingRoutes(st, ReleaseEntry(st, k));
    StillAttended(st, ReleaseEntry(st, k));
  }

  lemma FinishKeeps(st: State, k: string)
    requires Inv(st) && k in st.owed && k in st.cmds && st.owed[k].released
    ensures Inv(FinishEntry(st, k))
  {
    hide AllConserved, Placed, DeliveryInv, RoutingInv, AttendedInv;
    SlotFinished(st, k);
    FinishedPlaces(st, k);
    FinishDelivers(st, k);
    SameRoutingRoutes(st, FinishEntry(st, k));
    StillAttended(st, FinishEntry(st, k));
  }

  lemma ReceiveKeeps(st: State, d: Did, pc: Pc)
    requires Inv(st) && d in st.disp && st.disp[d].pc.Waiting?
    requires var k := st.disp[d].pc.cmd;
             && k in st.cmds && st.cmds[k].chan.buffer != []
             && pc == Settling(st.disp[d].pc.s, k, st.cmds[k].chan.buffer[0])
    ensures Inv(Goto(Deliver(st, st.disp[d].pc.cmd), d, pc))
  {
    hide AllConserved, Placed, DeliveryInv, RoutingInv, AttendedInv;
    var mid := Deliver(st, st.disp[d].pc.cmd);
    SameSlots(st, mid);
    MoveConserves(mid, d, pc);
    MovePlaces(mid, d, pc);
    ReceiveDelivers(st, d, pc);
    SameRoutingRoutes(st, mid);
    DispatcherFacts(st, d);
    MoveRoutes(mid, d, pc);
    StillAttended(st, mid);
    MoveAttends(mid, d, pc);
  }

  /** Commands, routes and the current table do not enter into slot accounting. */
  lemma SameSlots(st: State, after: State)
    requires AllConserved(st) && Placed(st)
    requires after.sess == st.sess && after.disp == st.disp && after.owed == st.owed
    ensures AllConserved(after) && Placed(after)
  {
    forall t, c | t in after.sess && c in after.sess[t].caps
      ensures Conserved(after, t, c)
    {
      assert Conserved(st, t, c);
    }
  }

  // ---------- Steps keep the invariant ----------

  lemma LookingKeeps(st: State, d: Did, l: LookStep)
    requires Inv(st) && d in st.disp && CanLook(st, d, l)
    ensures Inv(Looked(st, d, l))
  {
    hide Inv;
    var x := st.disp[d];
    DispatcherFacts(st, d);
    match l
    case BeginPlain => GotoKeeps(st, d, Pick(Plain));
    case BeginTerminal(now) =>
      var mid := Reroute(st, Touched(st.routes, x.tsid, now));
      RerouteKeeps(st, Touched(st.routes, x.tsid, now));
      if x.tsid in mid.routes {
        WitnessKeeps(mid, d, Find(mid.routes[x.tsid].nodeID, Sticky));
      } else {
        GotoKeeps(mid, d, Pick(First));
      }
    case PickFails(reply) => GotoKeeps(st, d, Returned(reply));
    case FindSession => FindKeeps(st, d);
    case ClearStale =>
      RerouteKeeps(st, Cleared(st.routes, x.tsid, x.pc.node));
      GotoKeeps(Reroute(st, Cleared(st.routes, x.tsid, x.pc.node)), d,
                Pick(if x.pc.lookup.Sticky? then First else Retry));
  }

  lemma FindKeeps(st: State, d: Did)
    requires Inv(st) && d in st.disp && st.disp[d].pc.Find?
    ensures Inv(Goto(st, d, Found(st, st.disp[d].cap, st.disp[d].pc.node, st.disp[d].pc.lookup)))
  {
    hide Inv;
    var x := st.disp[d];
    DispatcherFacts(st, d);
    GotoKeeps(st, d, Found(st, x.cap, x.pc.node, x.pc.lookup));
  }

  lemma SlotKeeps(st: State, d: Did, t: SlotStep)
    requires Inv(st) && d in st.disp && CanSlot(st, d, t)
    ensures Inv(Slotted(st, d, t))
  {
    hide AllConserved, Placed, DeliveryInv, RoutingInv, AttendedInv;
    var x := st.disp[d];
    DispatcherFacts(st, d);
    match t
    case PickTakes(s) =>
      AcquireKeeps(st, d, s, if x.pc.attempt.Plain? then Picked(s, false) else Reserving(s, x.pc.attempt));
    case ReserveRoute(now) => ReserveKeeps(st, d, now);
    case YieldSlot =>
      ReleaseKeeps(st, d, x.pc.s, Find(x.pc.node, if x.pc.attempt.Retry? then AfterRetry else AfterFirst));
    case AcquireFound =>
      if CanAcquire(st.sess[x.pc.s].caps, x.cap) {
        AcquireKeeps(st, d, x.pc.s, Picked(x.pc.s, false));
      } else {
        RefusedAcquire(st, x.pc.s, x.cap);
        GotoKeeps(st, d, Returned(NoCapacity));
      }
    case AbandonSlot =>
      ReleaseKeeps(st, d, x.pc.s, Undoing(x.pc.s, x.pc.created, None, x.pc.reply));
  }

  lemma ReserveKeeps(st: State, d: Did, now: int)
    requires Inv(st) && d in st.disp && CanSlot(st, d, ReserveRoute(now))
    ensures Inv(Slotted(st, d, ReserveRoute(now)))
  {
    hide Inv;
    var x := st.disp[d];
    DispatcherFacts(st, d);
    var mine := st.sess[x.pc.s].node;
    var fwd := Reserved(st.routes, x.tsid, mine, now);
    var mid := Reroute(st, fwd);
    RerouteKeeps(st, fwd);
    var resolved := fwd[x.tsid].nodeID;
    WitnessKeeps(mid, d, if resolved == mine then Picked(x.pc.s, x.tsid !in st.routes)
                         else Yielding(x.pc.s, resolved, x.pc.attempt));
  }

  lemma SendingKeeps(st: State, d: Did, e: SendStep)
    requires Inv(st) && d in st.disp && CanSend(st, d, e)
    ensures Inv(Sent(st, d, e))
  {
    hide Inv;
    var x := st.disp[d];
    DispatcherFacts(st, d);
    match e
    case NoCommandID => GotoKeeps(st, d, Abandoning(x.pc.s, x.pc.created, Internal));
    case Register(id) =>
      if id == "" {
        GotoKeeps(st, d, Abandoning(x.pc.s, x.pc.created, Internal));
      } else if st.sess[x.pc.s].done {
        GotoKeeps(st, d, Abandoning(x.pc.s, x.pc.created, Unavailable));
      } else {
        RegisterKeeps(st, d, x.pc.s, id, Enqueuing(x.pc.s, x.pc.created, id));
      }
    case EnqueueFails(reply) => GotoKeeps(st, d, Undoing(x.pc.s, x.pc.created, Some(x.pc.cmd), reply));
    case EnqueueSucceeds => GotoKeeps(st, d, Waiting(x.pc.s, x.pc.created, x.pc.cmd));
  }

  lemma ReplyingKeeps(st: State, d: Did, r: ReplyStep)
    requires Inv(st) && d in st.disp && CanReply(st, d, r)
    ensures Inv(Replied(st, d, r))
  {
    hide Inv;
    var x := st.disp[d];
    if r.Unregister? {
      UnregisterKeeps(st, d);
    } else if r.Settle? || r.UndoRoute? {
      ReroutingKeeps(st, d, r);
    } else {
      DispatcherFacts(st, d);
      match r
      case WaitEnds => GotoKeeps(st, d, Unregistering(x.pc.s, x.pc.cmd, ContextEnded));
      case Receive =>
        if st.cmds[x.pc.cmd].chan.buffer != [] {
          ReceiveKeeps(st, d, Settling(x.pc.s, x.pc.cmd, st.cmds[x.pc.cmd].chan.buffer[0]));
        } else {
          GotoKeeps(st, d, Undoing(x.pc.s, x.pc.created, Some(x.pc.cmd), BareClose));
        }
      case Leave => GotoKeeps(st, d, Returned(x.pc.reply));
    }
  }

  lemma ReroutingKeeps(st: State, d: Did, r: ReplyStep)
    requires Inv(st) && d in st.disp && CanReply(st, d, r) && (r.Settle? || r.UndoRoute?)
    ensures Inv(Replied(st, d, r))
  {
    hide Inv, SettledRoutes, Cleared;
    var x := st.disp[d];
    DispatcherFacts(st, d);
    match r
    case Settle(now, notFound) =>
      var fwd := SettledRoutes(st, x.tsid, x.pc.s, x.pc.outcome, now, notFound);
      RerouteKeeps(st, fwd);
      GotoKeeps(Reroute(st, fwd), d, Unregistering(x.pc.s, x.pc.cmd, Got(x.pc.outcome)));
    case UndoRoute =>
      var next := AfterUndo(x.pc.s, x.pc.registered, x.pc.reply);
      if x.pc.created && x.tsid != "" {
        var fwd := Cleared(st.routes, x.tsid, st.sess[x.pc.s].node);
        RerouteKeeps(st, fwd);
        GotoKeeps(Reroute(st, fwd), d, next);
      } else {
        GotoKeeps(st, d, next);
      }
  }

  lemma UnregisterKeeps(st: State, d: Did)
    requires Inv(st) && d in st.disp && CanReply(st, d, Unregister)
    ensures Inv(Replied(st, d, Unregister))
  {
    hide Inv, Unpended, Owns;
    var x := st.disp[d];
    DispatcherFacts(st, d);
    if x.pc.cmd in st.sess[x.pc.s].pending {
      NobodyWaitsForIt(st, d);
      TakeKeeps(st, x.pc.s, x.pc.cmd, ByUnregister, None);
      Unattended(st, d);
      LeavingOwns(st, d);
      GotoKeeps(TakeEntry(st, x.pc.s, x.pc.cmd, ByUnregister, None), d, Leaving(x.pc.cmd, x.pc.reply));
    } else {
      Unattended(st, d);
      LeavingOwns(st, d);
      GotoKeeps(st, d, Returned(x.pc.reply));
    }
  }

  /** While a dispatcher unregisters its command, no other waits for it. */
  lemma NobodyWaitsForIt(st: State, d: Did)
    requires Inv(st) && d in st.disp && CanReply(st, d, Unregister)
    ensures forall e :: e in st.disp && Early(st.disp[e].pc) ==> CommandOf(st.disp[e].pc) != Some(st.disp[d].pc.cmd)
  {
    hide Inv;
    DispatcherFacts(st, d);
    forall e | e in st.disp && Early(st.disp[e].pc)
      ensures CommandOf(st.disp[e].pc) != Some(st.disp[d].pc.cmd)
    {
      DispatcherFacts(st, e);
    }
  }

  lemma LeavingOwns(st: State, d: Did)
    requires d in st.disp && CanReply(st, d, Unregister) && Owns(st.cmds, d, st.disp[d].pc)
    ensures var pc := st.disp[d].pc;
            && (pc.cmd in st.sess[pc.s].pending ==>
                  Owns(TakeEntry(st, pc.s, pc.cmd, ByUnregister, None).cmds, d, Leaving(pc.cmd, pc.reply)))
            && Owns(st.cmds, d, Returned(pc.reply))
  {
  }

  /** Whether or not the unregister found the entry, it is in no pending map afterwards. */
  lemma Unattended(st: State, d: Did)
    requires Inv(st) && d in st.disp && CanReply(st, d, Unregister)
    ensures var pc := st.disp[d].pc;
            if pc.cmd in st.sess[pc.s].pending then Unpended(TakeEntry(st, pc.s, pc.cmd, ByUnregister, None), pc.cmd)
            else Unpended(st, pc.cmd)
  {
    hide AllConserved, Placed, RoutingInv, AttendedInv, Unpended, TakeEntry;
    var pc := st.disp[d].pc;
    DispatcherFacts(st, d);
    if pc.cmd in st.sess[pc.s].pending {
      TakenIsUnpended(st, pc.s, pc.cmd, ByUnregister, None);
    } else {
      AbsentIsUnpended(st, pc.cmd);
    }
  }

  lemma ConnectingKeeps(st: State, e: ConnectStep)
    requires Inv(st) && CanConnect(st, e)
    ensures Inv(Connected(st, e))
  {
    hide AllConserved, Placed, DeliveryInv, RoutingInv, AttendedInv;
    match e
    case Connect(s, node, limits) =>
      SlotsOfNewSession(st, s, node, limits);
      NewSessionPlaces(st, s, node, limits);
      NewSessionDelivers(st, s, node, limits);
      NewSessionRoutes(st, s, node, limits);
      StillAttended(st, AddSession(st, s, node, limits));
    case DropCurrent(node) =>
      SameSlots(st, Connected(st, e));
      SameDeliveryDelivers(st, Connected(st, e));
      DropCurrentRoutes(st, node);
      StillAttended(st, Connected(st, e));
    case ClearNodeRoutes(node) => RerouteKeeps(st, ClearedByNode(st.routes, node));
    case PruneRoutes(expireBefore) => RerouteKeeps(st, Pruned(st.routes, expireBefore));
    case CloseStart(s, reason) =>
      CloseMarkSlots(st, s, reason);
      CloseMarkDelivers(st, s, reason);
      SameRoutingRoutes(st, MarkClosed(st, s, reason));
      StillAttended(st, MarkClosed(st, s, reason));
  }

  lemma RemovingKeeps(st: State, e: RemoveStep)
    requires Inv(st) && CanRemove(st, e)
    ensures Inv(Removed(st, e))
  {
    hide Inv, TakeAll, TakeEntry, ReleaseEntry, FinishEntry, Trim;
    match e
    case CloseDrain(s) => DrainKeeps(st, s);
    case ResultArrives(s, id, frame) => TakeKeeps(st, s, id, ByResult, Some(OutcomeOf(frame)));
    case OwedRelease(cmd) => SettleKeeps(st, cmd);
    case OwedFinish(cmd) => FinishKeeps(st, cmd);
  }

  lemma StartingKeeps(st: State, d: Did, cap: string, tsid: string)
    requires Inv(st) && Enabled(st, Start(d, cap, tsid))
    ensures Inv(Apply(st, Start(d, cap, tsid)))
  {
    hide AllConserved, Placed, DeliveryInv, RoutingInv, AttendedInv;
    StartConserves(st, d, cap, tsid);
    StartPlaces(st, d, cap, tsid);
    StartDelivers(st, d, cap, tsid);
    StartRoutes(st, d, cap, tsid);
    StillAttended(st, Started(st, d, cap, tsid));
  }

  lemma StepKeepsInv(st: State, a: Action)
    requires Inv(st) && Enabled(st, a)
    ensures Inv(Apply(st, a))
  {
    hide Inv, Looked, Slotted, Sent, Replied, Connected, Removed;
    match a
    case Start(d, cap, tsid) => StartingKeeps(st, d, cap, tsid);
    case Look(d, l) => LookingKeeps(st, d, l);
    case Slot(d, t) => SlotKeeps(st, d, t);
    case Send(d, e) => SendingKeeps(st, d, e);
    case Answering(d, r) => ReplyingKeeps(st, d, r);
    case Connection(e) => ConnectingKeeps(st, e);
    case Removal(e) => RemovingKeeps(st, e);
  }

  lemma {:induction false} RunKeepsInv(trace: seq<State>, actions: seq<Action>, i: nat)
    requires Run(trace, actions) && i < |trace|
    ensures Inv(trace[i])
  {
    if i > 0 {
      RunKeepsInv(trace, actions, i - 1);
      StepKeepsInv(trace[i - 1], actions[i - 1]);
    }
  }

  // ---------- Theorems about every run ----------

  /** Conservation: inflight counts dispatchers past acquire, pending entries and removers about to
      release, and stays within 0..maxInflight. */
  lemma SlotsAreConserved(trace: seq<State>, actions: seq<Action>, i: nat, s: Sid, c: string)
    requires Run(trace, actions) && i < |trace|
    requires s in trace[i].sess && c in trace[i].sess[s].caps
    ensures var slots := trace[i].sess[s].caps[c];
            slots.inflight == Occupants(trace[i], s, c) && 0 <= slots.inflight <= slots.maxInflight
  {
    RunKeepsInv(trace, actions, i);
    assert Conserved(trace[i], s, c);
  }

  /** The guard against releasing below zero is never needed. */
  lemma ReleaseIsNeverClamped(trace: seq<State>, actions: seq<Action>, i: nat)
    requires Run(trace, actions) && i < |actions|
    ensures match actions[i]
            case Slot(d, t) =>
              t.YieldSlot? || t.AbandonSlot? ==>
                var x := trace[i].disp[d];
                x.pc.s in trace[i].sess && x.cap in trace[i].sess[x.pc.s].caps
                && trace[i].sess[x.pc.s].caps[x.cap].inflight > 0
            case Removal(e) =>
              e.OwedRelease? ==>
                var o := trace[i].owed[e.cmd];
                o.s in trace[i].sess && o.cap in trace[i].sess[o.s].caps
                && trace[i].sess[o.s].caps[o.cap].inflight > 0
            case _ => true
  {
    hide AllConserved, Placed, DeliveryInv, RoutingInv, AttendedInv;
    RunKeepsInv(trace, actions, i);
    match actions[i]
    case Slot(d, t) =>
      if t.YieldSlot? || t.AbandonSlot? {
        DispatcherFacts(trace[i], d);
        SlotReturned(trace[i], d, trace[i].disp[d].pc.s, Entry);
      }
    case Removal(e) =>
      if e.OwedRelease? {
        OwedFacts(trace[i], e.cmd);
        SlotSettled(trace[i], e.cmd);
      }
    case _ =>
  }

  lemma NothingPending(st: State, s: Sid)
    requires AttendedInv(st) && s in st.sess
    requires forall d :: d in st.disp ==> st.disp[d].pc.Returned?
    ensures st.sess[s].pending == map[]
  {
    forall k
      ensures k !in st.sess[s].pending
    {
      assert k in st.sess[s].pending ==> Attended(st, k);
    }
  }

  /** No path leaks: when every dispatch has returned and every remover has finished, every counter
      of every session is zero. */
  lemma QuietMeansZero(trace: seq<State>, actions: seq<Action>, i: nat, s: Sid, c: string)
    requires Run(trace, actions) && i < |trace|
    requires forall d :: d in trace[i].disp ==> trace[i].disp[d].pc.Returned?
    requires trace[i].owed == map[]
    requires s in trace[i].sess && c in trace[i].sess[s].caps
    ensures trace[i].sess[s].pending == map[] && trace[i].sess[s].caps[c].inflight == 0
  {
    hide Run, AllConserved, Placed, DeliveryInv, RoutingInv, AttendedInv;
    var st := trace[i];
    RunKeepsInv(trace, actions, i);
    NothingPending(st, s);
    IdleMeansZero(st, s, c);
  }

  /** Each command ever registered is in exactly one place, is removed and finished at most once,
      and yields at most one outcome. */
  lemma DeliveredExactlyOnce(trace: seq<State>, actions: seq<Action>, i: nat, k: string)
    requires Run(trace, actions) && i < |trace| && k in trace[i].cmds
    ensures var c := trace[i].cmds[k];
            && c.s in trace[i].sess
            && var pending := k in trace[i].sess[c.s].pending;
               && !(pending && k in trace[i].owed)
               && |c.removals| == (if pending then 0 else 1)
               && c.finishes == (if pending || k in trace[i].owed then 0 else 1)
               && c.chan.closed == (c.finishes == 1)
               && |c.chan.buffer| + |c.received|
                  == (if c.finishes == 1 && !c.removals[0].ByUnregister? then 1 else 0)
  {
    RunKeepsInv(trace, actions, i);
    ExactlyOnePlace(trace[i], k);
  }

  /** A dispatcher that receives finds a value, and settles with its own command's answer or with
      the reason its session closed. */
  lemma ReceivesItsOwn(trace: seq<State>, actions: seq<Action>, i: nat, d: Did)
    requires Run(trace, actions) && i < |actions| && actions[i] == Answering(d, Receive)
    ensures var pc := trace[i].disp[d].pc;
            && trace[i].cmds[pc.cmd].chan.buffer != []
            && match trace[i].cmds[pc.cmd].chan.buffer[0]
               case Answer(id, _) => id == pc.cmd
               case Failure(id, _) => id == pc.cmd
               case SessionLost(reason) => pc.s in trace[i].sess && trace[i].sess[pc.s].closedErr == Some(reason)
  {
    hide Inv, CommandOf, Looked, Slotted, Sent, Connected, Removed;
    RunKeepsInv(trace, actions, i);
    RunKeepsInv(trace, actions, i + 1);
    assert Inv(trace[i]) && Inv(trace[i + 1]);
    BufferedIsMine(trace[i], d);
  }

  lemma BufferedIsMine(st: State, d: Did)
    requires Inv(st) && d in st.disp && CanReply(st, d, Receive)
    ensures var pc := st.disp[d].pc;
            && st.cmds[pc.cmd].chan.buffer != []
            && Honest(st.sess, pc.s, pc.cmd, st.cmds[pc.cmd].chan.buffer[0])
  {
    hide AllConserved, Placed, RoutingInv, AttendedInv;
    var pc := st.disp[d].pc;
    NoBareClose(st, d);
    assert Owns(st.cmds, d, pc);
    assert CommandOk(st, pc.cmd);
    assert st.cmds[pc.cmd].chan.buffer[0] in st.cmds[pc.cmd].chan.buffer;
  }

  /** Once a close has drained a session, its pending map stays empty for the rest of the run. */
  lemma {:induction false} DrainedForever(trace: seq<State>, actions: seq<Action>, i: nat, j: nat, s: Sid)
    requires Run(trace, actions) && i <= j < |trace|
    requires s in trace[i].sess && trace[i].sess[s].drained
    ensures s in trace[j].sess && trace[j].sess[s].drained && trace[j].sess[s].pending == map[]
  {
    hide Inv, Enabled, Apply;
    if i < j {
      DrainedForever(trace, actions, i, j - 1, s);
      StepKeepsSessions(trace[j - 1], actions[j - 1]);
    }
    RunKeepsInv(trace, actions, j);
    DrainedIsEmpty(trace[j], s);
  }

  lemma DrainedIsEmpty(st: State, s: Sid)
    requires Inv(st) && s in st.sess && st.sess[s].drained
    ensures st.sess[s].pending == map[]
  {
    assert SessionOk(st.sess[s]);
  }

  /** Session objects stay on their nodes, new ones have one, and a drained one stays drained. */
  ghost predicate KeepsSessions(before: map<Sid, Session>, after: map<Sid, Session>) {
    && (forall s :: s in before ==>
          s in after && after[s].node == before[s].node && (before[s].drained ==> after[s].drained))
    && (forall s :: s in after && s !in before ==> after[s].node != "")
  }

  lemma LookKeepsSessions(st: State, d: Did, l: LookStep)
    requires d in st.disp && CanLook(st, d, l)
    ensures KeepsSessions(st.sess, Looked(st, d, l).sess)
  {
    match l {
      case BeginPlain => case BeginTerminal(now) => case PickFails(r) => case FindSession => case ClearStale =>
    }
  }

  lemma SlotKeepsSessions(st: State, d: Did, t: SlotStep)
    requires d in st.disp && CanSlot(st, d, t)
    ensures KeepsSessions(st.sess, Slotted(st, d, t).sess)
  {
    match t {
      case PickTakes(u) => case ReserveRoute(now) => case YieldSlot => case AcquireFound => case AbandonSlot =>
    }
  }

  lemma KeptAsTheyAre(st: State)
    ensures KeepsSessions(st.sess, st.sess)
    ensures forall fwd :: Reroute(st, fwd).sess == st.sess
  {
  }

  lemma EntriesComeAndGo(st: State, s: Sid, k: string, cap: string, d: Did, via: Remover, outcome: Option<Outcome>)
    requires s in st.sess
    ensures KeepsSessions(st.sess, AddEntry(st, s, k, cap, d).sess)
    ensures k in st.sess[s].pending && k in st.cmds ==> KeepsSessions(st.sess, TakeEntry(st, s, k, via, outcome).sess)
  {
  }

  lemma ReplyKeepsSessions(st: State, d: Did, r: ReplyStep)
    requires d in st.disp && CanReply(st, d, r)
    ensures KeepsSessions(st.sess, Replied(st, d, r).sess)
  {
    hide KeepsSessions, TakeEntry, Reroute, SettledRoutes, Cleared, AfterUndo;
    KeptAsTheyAre(st);
    match r {
      case WaitEnds => case Receive => case Settle(n, f) => case UndoRoute => case Leave =>
      case Unregister => EntriesComeAndGo(st, st.disp[d].pc.s, st.disp[d].pc.cmd, "", d, ByUnregister, None);
    }
  }

  lemma SendKeepsSessions(st: State, d: Did, e: SendStep)
    requires d in st.disp && CanSend(st, d, e)
    ensures KeepsSessions(st.sess, Sent(st, d, e).sess)
  {
    hide KeepsSessions, AddEntry;
    KeptAsTheyAre(st);
    match e {
      case Register(id) => EntriesComeAndGo(st, st.disp[d].pc.s, id, st.disp[d].cap, d, ByUnregister, None);
      case NoCommandID => case EnqueueFails(r) => case EnqueueSucceeds =>
    }
  }

  lemma ConnectKeepsSessions(st: State, e: ConnectStep)
    requires CanConnect(st, e)
    ensures KeepsSessions(st.sess, Connected(st, e).sess)
  {
    match e {
      case Connect(s, n, l) => case DropCurrent(n) => case ClearNodeRoutes(n) =>
      case PruneRoutes(b) => case CloseStart(s, r) =>
    }
  }

  lemma RemoveKeepsSessions(st: State, e: RemoveStep)
    requires CanRemove(st, e)
    ensures KeepsSessions(st.sess, Removed(st, e).sess)
  {
    hide Trim, OutcomeOf, Moved, MarkRemoved, CloseChan, Release;
    match e { case CloseDrain(s) => case ResultArrives(s, id, f) => case OwedRelease(k) => case OwedFinish(k) => }
  }

  lemma StepKeepsSessions(st: State, a: Action)
    requires Enabled(st, a)
    ensures KeepsSessions(st.sess, Apply(st, a).sess)
  {
    hide Looked, Slotted, Sent, Replied, Connected, Removed;
    match a
    case Start(d, cap, tsid) =>
    case Look(d, l) => LookKeepsSessions(st, d, l);
    case Slot(d, t) => SlotKeepsSessions(st, d, t);
    case Send(d, e) => SendKeepsSessions(st, d, e);
    case Answering(d, r) => ReplyKeepsSessions(st, d, r);
    case Connection(e) => ConnectKeepsSessions(st, e);
    case Removal(e) => RemoveKeepsSessions(st, e);
  }

  lemma {:induction false} SessionsAreNamed(trace: seq<State>, actions: seq<Action>, i: nat)
    requires Run(trace, actions) && i < |trace|
    ensures forall s :: s in trace[i].sess ==> trace[i].sess[s].node != ""
  {
    hide Enabled, Apply;
    if i > 0 {
      SessionsAreNamed(trace, actions, i - 1);
      StepKeepsSessions(trace[i - 1], actions[i - 1]);
    }
  }
}
