/** Slot conservation: in every interleaving the inflight counter of a capability counts exactly
    the commands that occupy it, across the two locks that guard them. */
module DispatchSlots {
  import opened Prelude
  import opened SessionRuntime
  import opened Routes
  import opened Dispatch

  function HoldsOn(s: Sid, c: string): Dispatcher -> bool {
    (x: Dispatcher) => x.cap == c && Held(x.pc) == Some(s)
  }

  function OwesOn(s: Sid, c: string): Owed -> bool {
    (o: Owed) => o.s == s && o.cap == c && !o.released
  }

  /** Dispatchers between acquire and register, plus pending entries, plus removers that have
      deleted an entry and not yet released its slot. */
  ghost function Occupants(st: State, s: Sid, c: string): nat
    requires s in st.sess
  {
    Count(st.disp, HoldsOn(s, c)) + Count(st.sess[s].pending, IsCap(c)) + Count(st.owed, OwesOn(s, c))
  }

  ghost predicate Conserved(st: State, s: Sid, c: string)
    requires s in st.sess && c in st.sess[s].caps
  {
    && st.sess[s].caps[c].inflight == Occupants(st, s, c)
    && st.sess[s].caps[c].inflight <= st.sess[s].caps[c].maxInflight
    && st.sess[s].caps[c].maxInflight > 0
  }

  /** A capability the session offers. */
  predicate Offers(sess: map<Sid, Session>, s: Sid, c: string) {
    c != "" && s in sess && c in sess[s].caps
  }

  /** Every occupant names a capability its session offers. */
  ghost predicate Placed(st: State) {
    && (forall d :: d in st.disp && Held(st.disp[d].pc).Some? ==>
          Offers(st.sess, Held(st.disp[d].pc).value, st.disp[d].cap))
    && (forall s, k :: s in st.sess && k in st.sess[s].pending ==> Offers(st.sess, s, st.sess[s].pending[k]))
    && (forall k :: k in st.owed ==> Offers(st.sess, st.owed[k].s, st.owed[k].cap))
  }

  ghost predicate AllConserved(st: State) {
    forall s, c :: s in st.sess && c in st.sess[s].caps ==> Conserved(st, s, c)
  }

  // ---------- One capability, one primitive step ----------

  /** A move of one dispatcher shifts the first kind of occupant. */
  lemma HoldersMove(st: State, d: Did, x: Dispatcher, t: Sid, c: string)
    requires d in st.disp && x.cap == st.disp[d].cap
    ensures Count(st.disp[d := x], HoldsOn(t, c))
         == Count(st.disp, HoldsOn(t, c))
            - (if x.cap == c && Held(st.disp[d].pc) == Some(t) then 1 else 0)
            + (if x.cap == c && Held(x.pc) == Some(t) then 1 else 0)
  {
    CountUpdate(st.disp, d, x, HoldsOn(t, c));
  }

  lemma TakenConserves(st: State, d: Did, s: Sid, pc: Pc, t: Sid, c: string)
    requires d in st.disp && Held(st.disp[d].pc).None? && Held(pc) == Some(s)
    requires s in st.sess && CanAcquire(st.sess[s].caps, st.disp[d].cap)
    requires t in st.sess && c in st.sess[t].caps && Conserved(st, t, c)
    requires Conserved(st, s, st.disp[d].cap)
    ensures Conserved(Goto(SetCaps(st, s, Acquire(st.sess[s].caps, st.disp[d].cap)), d, pc), t, c)
  {
    hide Held;
    HoldersMove(st, d, st.disp[d].(pc := pc), t, c);
  }

  lemma ReturnedConserves(st: State, d: Did, s: Sid, pc: Pc, t: Sid, c: string)
    requires d in st.disp && Held(st.disp[d].pc) == Some(s) && Held(pc).None?
    requires Offers(st.sess, s, st.disp[d].cap) && Conserved(st, s, st.disp[d].cap)
    requires t in st.sess && c in st.sess[t].caps && Conserved(st, t, c)
    ensures st.sess[s].caps[st.disp[d].cap].inflight > 0
    ensures Conserved(Goto(SetCaps(st, s, Release(st.sess[s].caps, st.disp[d].cap)), d, pc), t, c)
  {
    hide Held;
    CountPositive(st.disp, d, HoldsOn(s, st.disp[d].cap));
    HoldersMove(st, d, st.disp[d].(pc := pc), t, c);
  }

  lemma RegisteredConserves(st: State, d: Did, s: Sid, id: string, pc: Pc, t: Sid, c: string)
    requires d in st.disp && Held(st.disp[d].pc) == Some(s) && Held(pc).None?
    requires s in st.sess && id !in st.sess[s].pending
    requires t in st.sess && c in st.sess[t].caps && Conserved(st, t, c)
    ensures Conserved(Goto(AddEntry(st, s, id, st.disp[d].cap, d), d, pc), t, c)
  {
    HoldersMove(st, d, st.disp[d].(pc := pc), t, c);
    CountUpdate(st.sess[s].pending, id, st.disp[d].cap, IsCap(c));
  }

  lemma EntryTakenConserves(st: State, s: Sid, k: string, via: Remover, outcome: Option<Outcome>, t: Sid, c: string)
    requires s in st.sess && k in st.sess[s].pending && k in st.cmds && k !in st.owed
    requires t in st.sess && c in st.sess[t].caps && Conserved(st, t, c)
    ensures Conserved(TakeEntry(st, s, k, via, outcome), t, c)
  {
    CountRemove(st.sess[s].pending, k, IsCap(c));
    CountUpdate(st.owed, k, Owed(s, st.sess[s].pending[k], via, outcome, false), OwesOn(t, c));
  }

  lemma MovedSlots(s: Sid, pending: map<string, string>, outcome: Option<Outcome>, t: Sid, c: string)
    ensures Count(Moved(s, pending, outcome), OwesOn(t, c)) == if t == s then Count(pending, IsCap(c)) else 0
  {
    if t == s {
      CountSame(Moved(s, pending, outcome), OwesOn(t, c), pending, IsCap(c));
    } else {
      CountZero(Moved(s, pending, outcome), OwesOn(t, c));
    }
  }

  lemma AllTakenConserves(st: State, s: Sid, outcome: Option<Outcome>, t: Sid, c: string)
    requires s in st.sess && st.sess[s].pending.Keys !! st.owed.Keys
    requires t in st.sess && c in st.sess[t].caps && Conserved(st, t, c)
    ensures Conserved(TakeAll(st, s, outcome), t, c)
  {
    var none: map<string, string> := map[];
    CountMerge(st.owed, Moved(s, st.sess[s].pending, outcome), OwesOn(t, c));
    MovedSlots(s, st.sess[s].pending, outcome, t, c);
    CountZero(none, IsCap(c));
  }

  lemma SettledConserves(st: State, k: string, t: Sid, c: string)
    requires k in st.owed && !st.owed[k].released
    requires Offers(st.sess, st.owed[k].s, st.owed[k].cap) && Conserved(st, st.owed[k].s, st.owed[k].cap)
    requires t in st.sess && c in st.sess[t].caps && Conserved(st, t, c)
    ensures st.sess[st.owed[k].s].caps[st.owed[k].cap].inflight > 0
    ensures Conserved(ReleaseEntry(st, k), t, c)
  {
    var o := st.owed[k];
    CountPositive(st.owed, k, OwesOn(o.s, o.cap));
    CountUpdate(st.owed, k, o.(released := true), OwesOn(t, c));
  }

  lemma FinishedConserves(st: State, k: string, t: Sid, c: string)
    requires k in st.owed && k in st.cmds && st.owed[k].released
    requires t in st.sess && c in st.sess[t].caps && Conserved(st, t, c)
    ensures Conserved(FinishEntry(st, k), t, c)
  {
    CountRemove(st.owed, k, OwesOn(t, c));
  }

  lemma NewSessionConserves(st: State, s: Sid, node: string, limits: map<string, nat>, c: string)
    requires Placed(st) && s !in st.sess && c in limits && limits[c] > 0
    ensures Conserved(AddSession(st, s, node, limits), s, c)
  {
    var none: map<string, string> := map[];
    CountZero(none, IsCap(c));
    CountZero(st.disp, HoldsOn(s, c)) by {
      forall d | d in st.disp
        ensures !HoldsOn(s, c)(st.disp[d])
      {
        assert Held(st.disp[d].pc).Some? ==> Held(st.disp[d].pc).value in st.sess;
      }
    }
    CountZero(st.owed, OwesOn(s, c));
  }

  // ---------- Placement, one primitive step ----------

  /** Changing counters withdraws no offer. */
  lemma OffersKept(st: State, s: Sid, caps: Capabilities)
    requires s in st.sess && caps.Keys == st.sess[s].caps.Keys
    ensures forall t, c :: Offers(st.sess, t, c) ==> Offers(SetCaps(st, s, caps).sess, t, c)
  {
  }

  /** A counter changes and one dispatcher moves. */
  lemma CountedMovePlaces(st: State, d: Did, s: Sid, caps: Capabilities, pc: Pc)
    requires Placed(st) && d in st.disp && s in st.sess && caps.Keys == st.sess[s].caps.Keys
    requires Held(pc).Some? ==> Offers(st.sess, Held(pc).value, st.disp[d].cap)
    ensures Placed(Goto(SetCaps(st, s, caps), d, pc))
  {
    OffersKept(st, s, caps);
    var after := Goto(SetCaps(st, s, caps), d, pc);
    forall t, k | t in after.sess && k in after.sess[t].pending
      ensures Offers(after.sess, t, after.sess[t].pending[k])
    {
      assert Offers(st.sess, t, st.sess[t].pending[k]);
    }
  }

  lemma TakenEntryPlaces(st: State, s: Sid, k: string, via: Remover, outcome: Option<Outcome>)
    requires Placed(st) && s in st.sess && k in st.sess[s].pending && k in st.cmds
    ensures Placed(TakeEntry(st, s, k, via, outcome))
  {
    var after := TakeEntry(st, s, k, via, outcome);
    assert Offers(st.sess, s, st.sess[s].pending[k]);
    forall t, c | Offers(st.sess, t, c)
      ensures Offers(after.sess, t, c)
    {
    }
    forall t, j | t in after.sess && j in after.sess[t].pending
      ensures Offers(after.sess, t, after.sess[t].pending[j])
    {
      assert Offers(st.sess, t, st.sess[t].pending[j]);
    }
  }

  lemma TakenAllPlaces(st: State, s: Sid, outcome: Option<Outcome>)
    requires Placed(st) && s in st.sess
    ensures Placed(TakeAll(st, s, outcome))
  {
    var after := TakeAll(st, s, outcome);
    forall t, c | Offers(st.sess, t, c)
      ensures Offers(after.sess, t, c)
    {
    }
    forall k | k in after.owed
      ensures Offers(after.sess, after.owed[k].s, after.owed[k].cap)
    {
      if k in st.sess[s].pending {
        assert Offers(st.sess, s, st.sess[s].pending[k]);
      } else {
        assert Offers(st.sess, st.owed[k].s, st.owed[k].cap);
      }
    }
    forall t, j | t in after.sess && j in after.sess[t].pending
      ensures Offers(after.sess, t, after.sess[t].pending[j])
    {
      assert Offers(st.sess, t, st.sess[t].pending[j]);
    }
  }

  lemma ReleasedEntryPlaces(st: State, k: string)
    requires Placed(st) && k in st.owed && st.owed[k].s in st.sess
    ensures Placed(ReleaseEntry(st, k))
  {
    var o, after := st.owed[k], ReleaseEntry(st, k);
    OffersKept(st, o.s, Release(st.sess[o.s].caps, o.cap));
    forall t, j | t in after.sess && j in after.sess[t].pending
      ensures Offers(after.sess, t, after.sess[t].pending[j])
    {
      assert Offers(st.sess, t, st.sess[t].pending[j]);
    }
  }

  lemma NewSessionPlaces(st: State, s: Sid, node: string, limits: map<string, nat>)
    requires Placed(st) && s !in st.sess
    ensures Placed(AddSession(st, s, node, limits))
  {
    var after := AddSession(st, s, node, limits);
    forall t, c | Offers(st.sess, t, c)
      ensures Offers(after.sess, t, c)
    {
    }
    forall t, j | t in after.sess && j in after.sess[t].pending
      ensures Offers(after.sess, t, after.sess[t].pending[j])
    {
      assert Offers(st.sess, t, st.sess[t].pending[j]);
    }
  }

  // ---------- All capabilities, one primitive step ----------

  lemma MoveConserves(st: State, d: Did, pc: Pc)
    requires AllConserved(st) && d in st.disp && Held(pc) == Held(st.disp[d].pc)
    ensures AllConserved(Goto(st, d, pc))
  {
    var after := Goto(st, d, pc);
    forall t, c | t in after.sess && c in after.sess[t].caps
      ensures Conserved(after, t, c)
    {
      assert Conserved(st, t, c);
      HoldersMove(st, d, st.disp[d].(pc := pc), t, c);
    }
  }

  lemma MovePlaces(st: State, d: Did, pc: Pc)
    requires Placed(st) && d in st.disp && Held(pc) == Held(st.disp[d].pc)
    ensures Placed(Goto(st, d, pc))
  {
  }

  /** Taken: held by nobody before, by `d` after. */
  lemma SlotTaken(st: State, d: Did, s: Sid, pc: Pc)
    requires AllConserved(st) && d in st.disp && Held(st.disp[d].pc).None? && Held(pc) == Some(s)
    requires s in st.sess && CanAcquire(st.sess[s].caps, st.disp[d].cap)
    ensures AllConserved(Goto(SetCaps(st, s, Acquire(st.sess[s].caps, st.disp[d].cap)), d, pc))
  {
    assert Conserved(st, s, st.disp[d].cap);
    var after := Goto(SetCaps(st, s, Acquire(st.sess[s].caps, st.disp[d].cap)), d, pc);
    forall t, c | t in after.sess && c in after.sess[t].caps
      ensures Conserved(after, t, c)
    {
      assert t in st.sess && c in st.sess[t].caps && Conserved(st, t, c);
      TakenConserves(st, d, s, pc, t, c);
    }
  }

  /** Returned: held by `d` before, by nobody after. The counter was positive: nothing is clamped. */
  lemma SlotReturned(st: State, d: Did, s: Sid, pc: Pc)
    requires AllConserved(st) && d in st.disp && Held(st.disp[d].pc) == Some(s) && Held(pc).None?
    requires Offers(st.sess, s, st.disp[d].cap)
    ensures st.sess[s].caps[st.disp[d].cap].inflight > 0
    ensures AllConserved(Goto(SetCaps(st, s, Release(st.sess[s].caps, st.disp[d].cap)), d, pc))
  {
    assert Conserved(st, s, st.disp[d].cap);
    ReturnedConserves(st, d, s, pc, s, st.disp[d].cap);
    var after := Goto(SetCaps(st, s, Release(st.sess[s].caps, st.disp[d].cap)), d, pc);
    forall t, c | t in after.sess && c in after.sess[t].caps
      ensures Conserved(after, t, c)
    {
      assert t in st.sess && c in st.sess[t].caps && Conserved(st, t, c);
      ReturnedConserves(st, d, s, pc, t, c);
    }
  }

  /** Registered: from the dispatcher to the pending entry. */
  lemma SlotRegistered(st: State, d: Did, s: Sid, id: string, pc: Pc)
    requires AllConserved(st) && d in st.disp && Held(st.disp[d].pc) == Some(s) && Held(pc).None?
    requires s in st.sess && id !in st.sess[s].pending
    ensures AllConserved(Goto(AddEntry(st, s, id, st.disp[d].cap, d), d, pc))
  {
    var after := Goto(AddEntry(st, s, id, st.disp[d].cap, d), d, pc);
    forall t, c | t in after.sess && c in after.sess[t].caps
      ensures Conserved(after, t, c)
    {
      assert t in st.sess && c in st.sess[t].caps && Conserved(st, t, c);
      RegisteredConserves(st, d, s, id, pc, t, c);
    }
  }

  lemma RegisteredPlaces(st: State, d: Did, s: Sid, id: string, pc: Pc)
    requires Placed(st) && d in st.disp && Held(st.disp[d].pc) == Some(s) && Held(pc).None? && s in st.sess
    ensures Placed(Goto(AddEntry(st, s, id, st.disp[d].cap, d), d, pc))
  {
    var after := Goto(AddEntry(st, s, id, st.disp[d].cap, d), d, pc);
    assert Offers(st.sess, s, st.disp[d].cap);
    forall t, c | Offers(st.sess, t, c)
      ensures Offers(after.sess, t, c)
    {
    }
    forall t, j | t in after.sess && j in after.sess[t].pending
      ensures Offers(after.sess, t, after.sess[t].pending[j])
    {
      assert j in st.sess[t].pending ==> Offers(st.sess, t, st.sess[t].pending[j]);
    }
  }

  /** Removed: from the pending entry to its remover. */
  lemma SlotRemoved(st: State, s: Sid, k: string, via: Remover, outcome: Option<Outcome>)
    requires AllConserved(st) && s in st.sess && k in st.sess[s].pending && k in st.cmds && k !in st.owed
    ensures AllConserved(TakeEntry(st, s, k, via, outcome))
  {
    var after := TakeEntry(st, s, k, via, outcome);
    forall t, c | t in after.sess && c in after.sess[t].caps
      ensures Conserved(after, t, c)
    {
      assert Conserved(st, t, c);
      EntryTakenConserves(st, s, k, via, outcome, t, c);
    }
  }

  /** Drained: every pending slot of a closing session at once. */
  lemma SlotsDrained(st: State, s: Sid, outcome: Option<Outcome>)
    requires AllConserved(st) && s in st.sess && st.sess[s].pending.Keys !! st.owed.Keys
    ensures AllConserved(TakeAll(st, s, outcome))
  {
    var after := TakeAll(st, s, outcome);
    forall t, c | t in after.sess && c in after.sess[t].caps
      ensures Conserved(after, t, c)
    {
      assert Conserved(st, t, c);
      AllTakenConserves(st, s, outcome, t, c);
    }
  }

  /** Given back by the remover; again nothing is clamped. */
  lemma SlotSettled(st: State, k: string)
    requires AllConserved(st) && k in st.owed && !st.owed[k].released
    requires Offers(st.sess, st.owed[k].s, st.owed[k].cap)
    ensures st.sess[st.owed[k].s].caps[st.owed[k].cap].inflight > 0
    ensures AllConserved(ReleaseEntry(st, k))
  {
    assert Conserved(st, st.owed[k].s, st.owed[k].cap);
    SettledConserves(st, k, st.owed[k].s, st.owed[k].cap);
    var after := ReleaseEntry(st, k);
    forall t, c | t in after.sess && c in after.sess[t].caps
      ensures Conserved(after, t, c)
    {
      assert t in st.sess && c in st.sess[t].caps && Conserved(st, t, c);
      SettledConserves(st, k, t, c);
    }
  }

  lemma SlotFinished(st: State, k: string)
    requires AllConserved(st) && k in st.owed && k in st.cmds && st.owed[k].released
    ensures AllConserved(FinishEntry(st, k))
  {
    forall t, c | t in st.sess && c in st.sess[t].caps
      ensures Conserved(FinishEntry(st, k), t, c)
    {
      assert Conserved(st, t, c);
      FinishedConserves(st, k, t, c);
    }
  }

  lemma FinishedPlaces(st: State, k: string)
    requires Placed(st) && k in st.owed && k in st.cmds
    ensures Placed(FinishEntry(st, k))
  {
  }

  lemma SlotsOfNewSession(st: State, s: Sid, node: string, limits: map<string, nat>)
    requires Placed(st) && AllConserved(st) && s !in st.sess && forall c :: c in limits ==> c != "" && limits[c] > 0
    ensures AllConserved(AddSession(st, s, node, limits))
  {
    var after := AddSession(st, s, node, limits);
    forall t, c | t in after.sess && c in after.sess[t].caps
      ensures Conserved(after, t, c)
    {
      if t == s {
        NewSessionConserves(st, s, node, limits, c);
      } else {
        assert Conserved(st, t, c);
      }
    }
  }

  lemma StartConserves(st: State, d: Did, cap: string, tsid: string)
    requires AllConserved(st) && d !in st.disp
    ensures AllConserved(Started(st, d, cap, tsid))
  {
    forall t, c | t in st.sess && c in st.sess[t].caps
      ensures Conserved(Started(st, d, cap, tsid), t, c)
    {
      assert Conserved(st, t, c);
      CountUpdate(st.disp, d, Dispatcher(cap, tsid, Entry, None), HoldsOn(t, c));
    }
  }

  lemma StartPlaces(st: State, d: Did, cap: string, tsid: string)
    requires Placed(st) && d !in st.disp
    ensures Placed(Started(st, d, cap, tsid))
  {
  }

  lemma RerouteSlots(st: State, fwd: Forward)
    requires Placed(st) && AllConserved(st)
    ensures Placed(Reroute(st, fwd)) && AllConserved(Reroute(st, fwd))
  {
    forall t, c | t in st.sess && c in st.sess[t].caps
      ensures Conserved(Reroute(st, fwd), t, c)
    {
      assert Conserved(st, t, c);
    }
  }

  lemma CloseMarkSlots(st: State, s: Sid, reason: string)
    requires Placed(st) && AllConserved(st) && s in st.sess
    ensures Placed(MarkClosed(st, s, reason)) && AllConserved(MarkClosed(st, s, reason))
  {
    var after := MarkClosed(st, s, reason);
    forall t, c | t in after.sess && c in after.sess[t].caps
      ensures Conserved(after, t, c)
    {
      assert Conserved(st, t, c);
    }
    forall t, c | Offers(st.sess, t, c)
      ensures Offers(after.sess, t, c)
    {
    }
    forall t, j | t in after.sess && j in after.sess[t].pending
      ensures Offers(after.sess, t, after.sess[t].pending[j])
    {
      assert Offers(st.sess, t, st.sess[t].pending[j]);
    }
  }

  /** Acquiring without room changes nothing where the limit is set. */
  lemma RefusedAcquire(st: State, s: Sid, c: string)
    requires AllConserved(st) && s in st.sess && !CanAcquire(st.sess[s].caps, c)
    ensures SetCaps(st, s, Acquire(st.sess[s].caps, c)) == st
  {
    if c in st.sess[s].caps {
      assert Conserved(st, s, c);
    }
    assert Acquire(st.sess[s].caps, c) == st.sess[s].caps;
    assert st.sess[s := st.sess[s]] == st.sess;
  }

  /** Recording a moment concerns nobody's slot. */
  lemma WitnessSlots(st: State, d: Did)
    requires Placed(st) && AllConserved(st) && d in st.disp && st.disp[d].tsid in st.routes
    ensures Placed(Witness(st, d)) && AllConserved(Witness(st, d))
  {
    forall t, c | t in st.sess && c in st.sess[t].caps
      ensures Conserved(Witness(st, d), t, c)
    {
      assert Conserved(st, t, c);
      HoldersMove(st, d, Witness(st, d).disp[d], t, c);
    }
  }

  // ---------- What conservation means ----------

  /** With no dispatcher past acquire, nothing pending and no remover at work, every count is zero. */
  lemma IdleMeansZero(st: State, s: Sid, c: string)
    requires AllConserved(st) && s in st.sess && c in st.sess[s].caps
    requires forall d :: d in st.disp ==> Held(st.disp[d].pc) != Some(s)
    requires st.sess[s].pending == map[]
    requires forall k :: k in st.owed ==> st.owed[k].s != s
    ensures st.sess[s].caps[c].inflight == 0
  {
    assert Conserved(st, s, c);
    CountZero(st.disp, HoldsOn(s, c));
    CountZero(st.sess[s].pending, IsCap(c));
    CountZero(st.owed, OwesOn(s, c));
  }
}
