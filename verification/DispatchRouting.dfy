/** Routing under interference: the session a routing call returns runs on the node its terminal
    session's route named at the touch or reserve, and two such readings with no removal or
    rebinding of the route between them agree. */
module DispatchRouting {
  import opened Prelude
  import opened SessionRuntime
  import opened Routes
  import opened Dispatch

  // ---------- The invariant ----------

  /** A recorded moment is still what the route says, unless the route has changed since. */
  predicate MomentOk(st: State, x: Dispatcher) {
    x.moment.Some? ==>
      var m := x.moment.value;
      && x.tsid != ""
      && m.epoch <= EpochOf(st, x.tsid)
      && (m.epoch == EpochOf(st, x.tsid) ==> x.tsid in st.routes && st.routes[x.tsid].nodeID == m.node)
  }

  predicate SameMoment(x: Dispatcher, y: Dispatcher) {
    x.moment.Some? && y.moment.Some? && x.tsid == y.tsid && x.moment.value.epoch == y.moment.value.epoch
  }

  /** The dispatcher's last reading of its route was this node. */
  predicate Read(x: Dispatcher, node: string) {
    x.tsid != "" && x.moment.Some? && x.moment.value.node == node
  }

  predicate RouteOk(sess: map<Sid, Session>, x: Dispatcher) {
    && (Routed(x.pc).Some? ==>
          Routed(x.pc).value in sess && (x.tsid == "" || Read(x, sess[Routed(x.pc).value].node)))
    && match x.pc
       case Entry => x.moment.None?
       case Pick(attempt) => attempt.Plain? <==> x.tsid == ""
       case Reserving(s, _) => s in sess && x.tsid != ""
       case Yielding(s, node, _) => s in sess && Read(x, node)
       case Find(node, _) => Read(x, node)
       case Acquiring(s, node, _) => s in sess && sess[s].node == node && Read(x, node)
       case Stale(node, _) => x.tsid != ""
       case _ => true
  }

  ghost predicate CurrentOk(st: State) {
    forall n :: n in st.current ==> st.current[n] in st.sess && st.sess[st.current[n]].node == n
  }

  ghost predicate MomentsOk(st: State) {
    forall d :: d in st.disp ==> MomentOk(st, st.disp[d])
  }

  ghost predicate MomentsAgree(st: State) {
    forall d, e :: d in st.disp && e in st.disp && SameMoment(st.disp[d], st.disp[e]) ==>
      st.disp[d].moment.value.node == st.disp[e].moment.value.node
  }

  ghost predicate RoutesOk(st: State) {
    forall d :: d in st.disp ==> RouteOk(st.sess, st.disp[d])
  }

  ghost predicate RoutingInv(st: State) {
    CurrentOk(st) && MomentsOk(st) && MomentsAgree(st) && RoutesOk(st)
  }

  // ---------- Primitive steps ----------

  lemma MoveRoutes(st: State, d: Did, pc: Pc)
    requires RoutingInv(st) && d in st.disp && RouteOk(st.sess, st.disp[d].(pc := pc))
    ensures RoutingInv(Goto(st, d, pc))
  {
    var after := Goto(st, d, pc);
    forall e | e in after.disp
      ensures MomentOk(after, after.disp[e])
    {
      assert MomentOk(st, st.disp[e]);
    }
    forall e, f | e in after.disp && f in after.disp && SameMoment(after.disp[e], after.disp[f])
      ensures after.disp[e].moment.value.node == after.disp[f].moment.value.node
    {
      assert SameMoment(st.disp[e], st.disp[f]);
    }
  }

  /** Steps that concern neither routes nor dispatchers nor nodes. */
  ghost predicate SameRouting(st: State, after: State) {
    && after.routes == st.routes && after.epochs == st.epochs && after.disp == st.disp && after.current == st.current
    && after.sess.Keys == st.sess.Keys
    && forall s :: s in st.sess ==> after.sess[s].node == st.sess[s].node
  }

  lemma SameRoutingRoutes(st: State, after: State)
    requires RoutingInv(st) && SameRouting(st, after)
    ensures RoutingInv(after)
  {
    forall d | d in after.disp
      ensures MomentOk(after, after.disp[d]) && RouteOk(after.sess, after.disp[d])
    {
      assert MomentOk(st, st.disp[d]) && RouteOk(st.sess, st.disp[d]);
    }
  }

  /** Replacing the table: an epoch ends exactly for the routes that vanish or change node. */
  lemma EpochAfter(st: State, fwd: Forward, t: string)
    ensures EpochOf(Reroute(st, fwd), t)
         == EpochOf(st, t)
            + if t in st.routes && (t !in fwd || fwd[t].nodeID != st.routes[t].nodeID) then 1 else 0
  {
  }

  lemma RerouteRoutes(st: State, fwd: Forward)
    requires RoutingInv(st)
    ensures RoutingInv(Reroute(st, fwd))
  {
    var after := Reroute(st, fwd);
    forall d | d in after.disp
      ensures MomentOk(after, after.disp[d])
    {
      assert MomentOk(st, st.disp[d]);
      EpochAfter(st, fwd, st.disp[d].tsid);
    }
    assert MomentsAgree(after);
  }

  lemma WitnessMoments(st: State, d: Did)
    requires MomentsOk(st) && d in st.disp && st.disp[d].tsid in st.routes && st.disp[d].tsid != ""
    ensures MomentsOk(Witness(st, d))
  {
    var after := Witness(st, d);
    forall e | e in after.disp
      ensures MomentOk(after, after.disp[e])
    {
      assert e != d ==> MomentOk(st, st.disp[e]);
    }
  }

  lemma WitnessAgrees(st: State, d: Did)
    requires MomentsOk(st) && MomentsAgree(st) && d in st.disp && st.disp[d].tsid in st.routes && st.disp[d].tsid != ""
    ensures MomentsAgree(Witness(st, d))
  {
    var after := Witness(st, d);
    forall e, f | e in after.disp && f in after.disp && SameMoment(after.disp[e], after.disp[f])
      ensures after.disp[e].moment.value.node == after.disp[f].moment.value.node
    {
      assert e != d ==> MomentOk(st, st.disp[e]);
      assert f != d ==> MomentOk(st, st.disp[f]);
      if e != d && f != d {
        assert SameMoment(st.disp[e], st.disp[f]);
      }
    }
  }

  /** A fresh reading agrees with every other reading of the same epoch; the dispatcher goes on
      to a point that fits it. */
  lemma WitnessRoutes(st: State, d: Did, pc: Pc)
    requires RoutingInv(st) && d in st.disp && st.disp[d].tsid in st.routes && st.disp[d].tsid != ""
    requires RouteOk(st.sess, Witness(st, d).disp[d].(pc := pc))
    ensures RoutingInv(Goto(Witness(st, d), d, pc))
  {
    var mid := Witness(st, d);
    var after := Goto(mid, d, pc);
    WitnessMoments(st, d);
    WitnessAgrees(st, d);
    forall e | e in after.disp
      ensures MomentOk(after, after.disp[e])
    {
      assert MomentOk(mid, mid.disp[e]);
    }
    forall e, f | e in after.disp && f in after.disp && SameMoment(after.disp[e], after.disp[f])
      ensures after.disp[e].moment.value.node == after.disp[f].moment.value.node
    {
      assert SameMoment(mid.disp[e], mid.disp[f]);
    }
    forall e | e in after.disp
      ensures RouteOk(after.sess, after.disp[e])
    {
      assert e != d ==> RouteOk(st.sess, st.disp[e]);
    }
  }

  lemma NewSessionRoutes(st: State, s: Sid, node: string, limits: map<string, nat>)
    requires RoutingInv(st) && s !in st.sess
    ensures RoutingInv(AddSession(st, s, node, limits))
  {
    var after := AddSession(st, s, node, limits);
    forall d | d in after.disp
      ensures MomentOk(after, after.disp[d]) && RouteOk(after.sess, after.disp[d])
    {
      assert MomentOk(st, st.disp[d]) && RouteOk(st.sess, st.disp[d]);
    }
  }

  lemma DropCurrentRoutes(st: State, node: string)
    requires RoutingInv(st)
    ensures RoutingInv(st.(current := st.current - {node}))
  {
    var after := st.(current := st.current - {node});
    forall d | d in after.disp
      ensures MomentOk(after, after.disp[d])
    {
      assert MomentOk(st, st.disp[d]);
    }
  }

  lemma StartRoutes(st: State, d: Did, cap: string, tsid: string)
    requires RoutingInv(st) && d !in st.disp
    ensures RoutingInv(Started(st, d, cap, tsid))
  {
    var after := Started(st, d, cap, tsid);
    forall e | e in after.disp
      ensures MomentOk(after, after.disp[e])
    {
      assert e != d ==> MomentOk(st, st.disp[e]);
    }
  }

  // ---------- What the invariant says ----------

  /** Once routed, a dispatcher for a terminal session sits on the node its reading named. */
  lemma RoutedWhereRead(st: State, d: Did)
    requires RoutingInv(st) && d in st.disp && st.disp[d].tsid != "" && Routed(st.disp[d].pc).Some?
    ensures Routed(st.disp[d].pc).value in st.sess && st.disp[d].moment.Some?
    ensures st.sess[Routed(st.disp[d].pc).value].node == st.disp[d].moment.value.node
  {
    assert RouteOk(st.sess, st.disp[d]);
  }
}
