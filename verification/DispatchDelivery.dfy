/** Exactly-once delivery: each registered command leaves the pending map once, its channel is
    finished once, and what it carries is the command's own answer or the session's close reason. */
module DispatchDelivery {
  import opened Prelude
  import opened SessionRuntime
  import opened Dispatch

  // ---------- What holds of commands ----------

  /** No remover has finished with the command. */
  predicate Untouched(c: Command) {
    c.chan == FRESH_CHAN && c.finishes == 0 && c.received == []
  }

  /** One remover has: one outcome at most, none only if the dispatcher removed the entry itself. */
  predicate Settled(c: Command) {
    && |c.removals| == 1 && c.finishes == 1 && c.chan.closed
    && |c.chan.buffer| + |c.received| == if c.removals[0].ByUnregister? then 0 else 1
  }

  /** The outcome is the command's own, or the reason its session closed. */
  predicate Honest(sess: map<Sid, Session>, s: Sid, k: string, o: Outcome) {
    match o
    case Answer(id, _) => id == k
    case Failure(id, _) => id == k
    case SessionLost(reason) => s in sess && sess[s].closedErr == Some(reason)
  }

  ghost predicate AllHonest(sess: map<Sid, Session>, k: string, c: Command) {
    forall o :: o in c.chan.buffer || o in c.received ==> Honest(sess, c.s, k, o)
  }

  /** Points of the program before the deferred unregister has run. */
  predicate Early(pc: Pc) {
    pc.Undoing? || pc.Enqueuing? || pc.Waiting? || pc.Settling?
  }

  /** The dispatcher's view of its own command. */
  predicate Owns(cmds: map<string, Command>, d: Did, pc: Pc) {
    CommandOf(pc).Some? ==>
      var k := CommandOf(pc).value;
      && k in cmds && cmds[k].owner == d
      && (Routed(pc).Some? ==> cmds[k].s == Routed(pc).value)
      && (Early(pc) ==> ByUnregister !in cmds[k].removals)
      && (pc.Enqueuing? || pc.Waiting? ==> cmds[k].received == [])
      && (pc.Settling? ==> cmds[k].received == [pc.outcome])
  }

  // ---------- The invariant ----------

  predicate PendingOk(st: State, s: Sid, k: string)
    requires s in st.sess && k in st.sess[s].pending
  {
    k in st.cmds && k !in st.owed && Untouched(st.cmds[k]) && st.cmds[k].s == s && st.cmds[k].removals == []
  }

  predicate OwedOk(st: State, k: string)
    requires k in st.owed
  {
    var o := st.owed[k];
    && k in st.cmds && Untouched(st.cmds[k]) && st.cmds[k].s == o.s && st.cmds[k].removals == [o.via]
    && (o.outcome.None? <==> o.via.ByUnregister?)
    && (o.outcome.Some? ==> Honest(st.sess, o.s, k, o.outcome.value))
  }

  ghost predicate CommandOk(st: State, k: string)
    requires k in st.cmds
  {
    var c := st.cmds[k];
    && c.s in st.sess
    && (k in st.sess[c.s].pending || k in st.owed || Settled(c))
    && AllHonest(st.sess, k, c)
  }

  predicate SessionOk(x: Session) {
    && (x.done <==> x.closedErr.Some?)
    && (x.drained ==> x.done && x.pending == map[])
  }

  ghost predicate PendingsOk(st: State) {
    forall s, k :: s in st.sess && k in st.sess[s].pending ==> PendingOk(st, s, k)
  }

  ghost predicate OwedsOk(st: State) {
    forall k :: k in st.owed ==> OwedOk(st, k)
  }

  ghost predicate CommandsOk(st: State) {
    forall k :: k in st.cmds ==> CommandOk(st, k)
  }

  ghost predicate SessionsOk(st: State) {
    forall s :: s in st.sess ==> SessionOk(st.sess[s])
  }

  ghost predicate OwnersOk(st: State) {
    forall d :: d in st.disp ==> Owns(st.cmds, d, st.disp[d].pc)
  }

  ghost predicate DeliveryInv(st: State) {
    PendingsOk(st) && OwedsOk(st) && CommandsOk(st) && SessionsOk(st) && OwnersOk(st)
  }

  // ---------- Primitive steps ----------

  /** All but the owners' view is indifferent to dispatchers. */
  lemma EntriesFollow(st: State, after: State)
    requires PendingsOk(st) && OwedsOk(st) && CommandsOk(st) && SessionsOk(st)
    requires after.sess == st.sess && after.owed == st.owed && after.cmds == st.cmds
    ensures PendingsOk(after) && OwedsOk(after) && CommandsOk(after) && SessionsOk(after)
  {
    forall s, k | s in after.sess && k in after.sess[s].pending
      ensures PendingOk(after, s, k)
    {
      assert PendingOk(st, s, k);
    }
    forall k | k in after.owed ensures OwedOk(after, k) { assert OwedOk(st, k); }
    forall k | k in after.cmds ensures CommandOk(after, k) { assert CommandOk(st, k); }
  }

  lemma MoveDelivers(st: State, d: Did, pc: Pc)
    requires DeliveryInv(st) && d in st.disp && Owns(st.cmds, d, pc)
    ensures DeliveryInv(Goto(st, d, pc))
  {
    EntriesFollow(st, Goto(st, d, pc));
  }

  /** Steps that change only counters, routes, moments, the current table or a release mark. */
  ghost predicate SameDelivery(st: State, after: State) {
    && after.cmds == st.cmds
    && after.owed.Keys == st.owed.Keys
    && (forall k :: k in st.owed ==> after.owed[k] == st.owed[k].(released := after.owed[k].released))
    && after.sess.Keys == st.sess.Keys
    && (forall s :: s in st.sess ==> after.sess[s] == st.sess[s].(caps := after.sess[s].caps))
    && after.disp.Keys == st.disp.Keys
    && (forall d :: d in st.disp ==> after.disp[d].pc == st.disp[d].pc)
  }

  lemma SameDeliveryDelivers(st: State, after: State)
    requires DeliveryInv(st) && SameDelivery(st, after)
    ensures DeliveryInv(after)
  {
    forall s, k | s in after.sess && k in after.sess[s].pending
      ensures PendingOk(after, s, k)
    {
      assert after.sess[s].pending == st.sess[s].pending;
      assert PendingOk(st, s, k);
    }
    forall k | k in after.owed
      ensures OwedOk(after, k)
    {
      assert OwedOk(st, k);
    }
    forall k | k in after.cmds
      ensures CommandOk(after, k)
    {
      assert CommandOk(st, k);
      SameHonest(st, after, k, st.cmds[k]);
    }
    forall s | s in after.sess
      ensures SessionOk(after.sess[s])
    {
      assert SessionOk(st.sess[s]);
    }
  }

  lemma SameHonest(st: State, after: State, k: string, c: Command)
    requires AllHonest(st.sess, k, c) && c.s in st.sess && c.s in after.sess
    requires st.sess[c.s].closedErr.Some? ==> after.sess[c.s].closedErr == st.sess[c.s].closedErr
    ensures AllHonest(after.sess, k, c)
  {
    forall o | o in c.chan.buffer || o in c.received
      ensures Honest(after.sess, c.s, k, o)
    {
      assert Honest(st.sess, c.s, k, o);
    }
  }

  lemma RegisterPendings(st: State, d: Did, s: Sid, id: string, cap: string)
    requires PendingsOk(st) && OwedsOk(st) && s in st.sess && id !in st.cmds
    ensures PendingsOk(AddEntry(st, s, id, cap, d)) && OwedsOk(AddEntry(st, s, id, cap, d))
  {
    var after := AddEntry(st, s, id, cap, d);
    forall t, k | t in after.sess && k in after.sess[t].pending
      ensures PendingOk(after, t, k)
    {
      if t == s && k == id {
        assert id in st.owed ==> OwedOk(st, id);
      } else {
        assert PendingOk(st, t, k);
      }
    }
    forall k | k in after.owed ensures OwedOk(after, k) { assert OwedOk(st, k); }
  }

  lemma RegisterCommands(st: State, d: Did, s: Sid, id: string, cap: string)
    requires CommandsOk(st) && SessionsOk(st) && s in st.sess && !st.sess[s].done && id !in st.cmds
    ensures CommandsOk(AddEntry(st, s, id, cap, d)) && SessionsOk(AddEntry(st, s, id, cap, d))
  {
    var after := AddEntry(st, s, id, cap, d);
    forall k | k in after.cmds
      ensures CommandOk(after, k)
    {
      if k != id {
        assert CommandOk(st, k);
        SameHonest(st, after, k, st.cmds[k]);
      }
    }
    forall t | t in after.sess ensures SessionOk(after.sess[t]) { assert SessionOk(st.sess[t]); }
  }

  /** Registering and moving on to the queue. */
  lemma RegisterDelivers(st: State, d: Did, s: Sid, id: string, cap: string, pc: Pc)
    requires DeliveryInv(st) && d in st.disp && s in st.sess && !st.sess[s].done && id !in st.cmds
    requires pc.Enqueuing? && pc.s == s && pc.cmd == id
    ensures DeliveryInv(Goto(AddEntry(st, s, id, cap, d), d, pc))
  {
    var mid := AddEntry(st, s, id, cap, d);
    RegisterPendings(st, d, s, id, cap);
    RegisterCommands(st, d, s, id, cap);
    forall e | e in mid.disp
      ensures Owns(mid.cmds, e, mid.disp[e].pc)
    {
      assert Owns(st.cmds, e, st.disp[e].pc);
    }
    MoveDelivers(mid, d, pc);
  }

  lemma TakePendings(st: State, s: Sid, k: string, via: Remover, outcome: Option<Outcome>)
    requires PendingsOk(st) && OwedsOk(st) && s in st.sess && k in st.sess[s].pending && k in st.cmds
    requires outcome.None? <==> via.ByUnregister?
    requires outcome.Some? ==> Honest(st.sess, s, k, outcome.value)
    ensures PendingsOk(TakeEntry(st, s, k, via, outcome)) && OwedsOk(TakeEntry(st, s, k, via, outcome))
  {
    var after := TakeEntry(st, s, k, via, outcome);
    assert PendingOk(st, s, k);
    forall t, j | t in after.sess && j in after.sess[t].pending
      ensures PendingOk(after, t, j)
    {
      assert PendingOk(st, t, j);
    }
    forall j | j in after.owed
      ensures OwedOk(after, j)
    {
      assert j != k ==> OwedOk(st, j);
    }
  }

  lemma TakeCommands(st: State, s: Sid, k: string, via: Remover, outcome: Option<Outcome>)
    requires CommandsOk(st) && SessionsOk(st) && s in st.sess && k in st.sess[s].pending && k in st.cmds
    ensures CommandsOk(TakeEntry(st, s, k, via, outcome)) && SessionsOk(TakeEntry(st, s, k, via, outcome))
  {
    var after := TakeEntry(st, s, k, via, outcome);
    forall j | j in after.cmds
      ensures CommandOk(after, j)
    {
      assert CommandOk(st, j);
      SameHonest(st, after, j, st.cmds[j]);
    }
    forall t | t in after.sess ensures SessionOk(after.sess[t]) { assert SessionOk(st.sess[t]); }
  }

  lemma TakeDelivers(st: State, s: Sid, k: string, via: Remover, outcome: Option<Outcome>)
    requires DeliveryInv(st) && s in st.sess && k in st.sess[s].pending && k in st.cmds
    requires outcome.None? <==> via.ByUnregister?
    requires outcome.Some? ==> Honest(st.sess, s, k, outcome.value)
    requires via.ByUnregister? ==>
               forall d :: d in st.disp && Early(st.disp[d].pc) ==> CommandOf(st.disp[d].pc) != Some(k)
    ensures DeliveryInv(TakeEntry(st, s, k, via, outcome))
  {
    var after := TakeEntry(st, s, k, via, outcome);
    TakePendings(st, s, k, via, outcome);
    TakeCommands(st, s, k, via, outcome);
    forall d | d in after.disp
      ensures Owns(after.cmds, d, after.disp[d].pc)
    {
      assert Owns(st.cmds, d, st.disp[d].pc);
    }
  }

  lemma DrainPendings(st: State, s: Sid, outcome: Option<Outcome>)
    requires PendingsOk(st) && OwedsOk(st) && s in st.sess
    requires outcome.Some? && outcome.value.SessionLost? && st.sess[s].closedErr == Some(outcome.value.reason)
    ensures PendingsOk(TakeAll(st, s, outcome)) && OwedsOk(TakeAll(st, s, outcome))
  {
    var after := TakeAll(st, s, outcome);
    var pending := st.sess[s].pending;
    forall t, j | t in after.sess && j in after.sess[t].pending
      ensures PendingOk(after, t, j)
    {
      assert PendingOk(st, t, j);
      assert j in pending ==> PendingOk(st, s, j);
    }
    forall j | j in after.owed
      ensures OwedOk(after, j)
    {
      if j in pending {
        assert PendingOk(st, s, j);
      } else {
        assert OwedOk(st, j);
      }
    }
  }

  lemma DrainCommands(st: State, s: Sid, outcome: Option<Outcome>)
    requires CommandsOk(st) && SessionsOk(st) && s in st.sess && st.sess[s].closedErr.Some?
    ensures CommandsOk(TakeAll(st, s, outcome)) && SessionsOk(TakeAll(st, s, outcome))
  {
    var after := TakeAll(st, s, outcome);
    forall j | j in after.cmds
      ensures CommandOk(after, j)
    {
      assert CommandOk(st, j);
      SameHonest(st, after, j, st.cmds[j]);
    }
    forall t | t in after.sess ensures SessionOk(after.sess[t]) { assert SessionOk(st.sess[t]); }
  }

  lemma DrainDelivers(st: State, s: Sid)
    requires DeliveryInv(st) && s in st.sess && st.sess[s].closedErr.Some? && !st.sess[s].drained
    ensures DeliveryInv(TakeAll(st, s, Some(SessionLost(st.sess[s].closedErr.value))))
  {
    var outcome := Some(SessionLost(st.sess[s].closedErr.value));
    var after := TakeAll(st, s, outcome);
    DrainPendings(st, s, outcome);
    DrainCommands(st, s, outcome);
    forall d | d in after.disp
      ensures Owns(after.cmds, d, after.disp[d].pc)
    {
      assert Owns(st.cmds, d, st.disp[d].pc);
    }
  }

  lemma FinishDelivers(st: State, k: string)
    requires DeliveryInv(st) && k in st.owed && k in st.cmds
    ensures DeliveryInv(FinishEntry(st, k))
  {
    FinishPendings(st, k);
    FinishCommands(st, k);
    var after := FinishEntry(st, k);
    assert OwedOk(st, k);
    forall d | d in after.disp
      ensures Owns(after.cmds, d, after.disp[d].pc)
    {
      assert Owns(st.cmds, d, st.disp[d].pc);
    }
  }

  lemma FinishPendings(st: State, k: string)
    requires PendingsOk(st) && OwedsOk(st) && k in st.owed && k in st.cmds
    ensures PendingsOk(FinishEntry(st, k)) && OwedsOk(FinishEntry(st, k))
  {
    var after := FinishEntry(st, k);
    forall t, j | t in after.sess && j in after.sess[t].pending
      ensures PendingOk(after, t, j)
    {
      assert PendingOk(st, t, j);
    }
    forall j | j in after.owed ensures OwedOk(after, j) { assert OwedOk(st, j); }
  }

  lemma FinishCommands(st: State, k: string)
    requires OwedsOk(st) && CommandsOk(st) && k in st.owed && k in st.cmds
    ensures CommandsOk(FinishEntry(st, k))
  {
    var after := FinishEntry(st, k);
    assert OwedOk(st, k);
    forall j | j in after.cmds ensures CommandOk(after, j) { assert CommandOk(st, j); }
  }

  lemma ReceivePendings(st: State, k: string)
    requires PendingsOk(st) && OwedsOk(st) && k in st.cmds && st.cmds[k].chan.buffer != []
    ensures PendingsOk(Deliver(st, k)) && OwedsOk(Deliver(st, k))
  {
    var after := Deliver(st, k);
    forall t, j | t in after.sess && j in after.sess[t].pending
      ensures PendingOk(after, t, j)
    {
      assert PendingOk(st, t, j);
    }
    forall j | j in after.owed ensures OwedOk(after, j) { assert OwedOk(st, j); }
  }

  lemma ReceiveCommands(st: State, k: string)
    requires PendingsOk(st) && OwedsOk(st) && CommandsOk(st) && k in st.cmds && st.cmds[k].chan.buffer != []
    ensures CommandsOk(Deliver(st, k))
  {
    var after, c := Deliver(st, k), st.cmds[k];
    forall j | j in after.cmds
      ensures CommandOk(after, j)
    {
      assert CommandOk(st, j);
      if j == k {
        assert c.chan.buffer == [c.chan.buffer[0]] + c.chan.buffer[1..];
        assert Honest(st.sess, c.s, k, c.chan.buffer[0]);
      }
    }
  }

  lemma ReceiveOwners(st: State, d: Did, pc: Pc)
    requires OwnersOk(st) && d in st.disp && st.disp[d].pc.Waiting?
    requires var k := st.disp[d].pc.cmd;
             && k in st.cmds && st.cmds[k].chan.buffer != []
             && pc == Settling(st.disp[d].pc.s, k, st.cmds[k].chan.buffer[0])
    ensures OwnersOk(Goto(Deliver(st, st.disp[d].pc.cmd), d, pc))
  {
    var k := st.disp[d].pc.cmd;
    var after := Goto(Deliver(st, k), d, pc);
    assert Owns(st.cmds, d, st.disp[d].pc);
    forall e | e in after.disp
      ensures Owns(after.cmds, e, after.disp[e].pc)
    {
      assert Owns(st.cmds, e, st.disp[e].pc);
    }
  }

  lemma ReceiveDelivers(st: State, d: Did, pc: Pc)
    requires DeliveryInv(st) && d in st.disp && st.disp[d].pc.Waiting?
    requires var k := st.disp[d].pc.cmd;
             && k in st.cmds && st.cmds[k].chan.buffer != []
             && pc == Settling(st.disp[d].pc.s, k, st.cmds[k].chan.buffer[0])
    ensures DeliveryInv(Goto(Deliver(st, st.disp[d].pc.cmd), d, pc))
  {
    var k := st.disp[d].pc.cmd;
    ReceivePendings(st, k);
    ReceiveCommands(st, k);
    EntriesFollow(Deliver(st, k), Goto(Deliver(st, k), d, pc));
    ReceiveOwners(st, d, pc);
  }

  lemma NewSessionDelivers(st: State, s: Sid, node: string, limits: map<string, nat>)
    requires DeliveryInv(st) && s !in st.sess
    ensures DeliveryInv(AddSession(st, s, node, limits))
  {
    var after := AddSession(st, s, node, limits);
    forall t, j | t in after.sess && j in after.sess[t].pending
      ensures PendingOk(after, t, j)
    {
      assert PendingOk(st, t, j);
    }
    forall j | j in after.owed ensures OwedOk(after, j) { assert OwedOk(st, j); assert CommandOk(st, j); }
    forall j | j in after.cmds
      ensures CommandOk(after, j)
    {
      assert CommandOk(st, j);
      SameHonest(st, after, j, st.cmds[j]);
    }
    forall t | t in after.sess
      ensures SessionOk(after.sess[t])
    {
      assert t in st.sess ==> SessionOk(st.sess[t]);
    }
  }

  lemma CloseMarkDelivers(st: State, s: Sid, reason: string)
    requires DeliveryInv(st) && s in st.sess && !st.sess[s].done
    ensures DeliveryInv(MarkClosed(st, s, reason))
  {
    var after := MarkClosed(st, s, reason);
    assert SessionOk(st.sess[s]);
    forall t, j | t in after.sess && j in after.sess[t].pending
      ensures PendingOk(after, t, j)
    {
      assert PendingOk(st, t, j);
    }
    forall j | j in after.owed ensures OwedOk(after, j) { assert OwedOk(st, j); }
    forall j | j in after.cmds
      ensures CommandOk(after, j)
    {
      assert CommandOk(st, j);
      SameHonest(st, after, j, st.cmds[j]);
    }
    forall t | t in after.sess ensures SessionOk(after.sess[t]) { assert SessionOk(st.sess[t]); }
  }

  lemma StartDelivers(st: State, d: Did, cap: string, tsid: string)
    requires DeliveryInv(st) && d !in st.disp
    ensures DeliveryInv(Started(st, d, cap, tsid))
  {
    EntriesFollow(st, Started(st, d, cap, tsid));
  }

  // ---------- Every pending entry has its dispatcher still to come ----------

  predicate Attends(pc: Pc, k: string) {
    CommandOf(pc) == Some(k) && !pc.Leaving?
  }

  /** The deferred unregister of the entry's own dispatcher has not run. */
  predicate Attended(st: State, k: string) {
    k in st.cmds && st.cmds[k].owner in st.disp && Attends(st.disp[st.cmds[k].owner].pc, k)
  }

  ghost predicate AttendedInv(st: State) {
    forall s, k :: s in st.sess && k in st.sess[s].pending ==> Attended(st, k)
  }

  predicate Unpended(st: State, k: string) {
    forall s :: s in st.sess ==> k !in st.sess[s].pending
  }

  /** The dispatcher keeps its entry, or the entry is gone. */
  predicate KeepsAttending(st: State, before: Pc, after: Pc) {
    CommandOf(before).Some? && !before.Leaving? ==>
      Attends(after, CommandOf(before).value) || Unpended(st, CommandOf(before).value)
  }

  lemma MoveAttends(st: State, d: Did, pc: Pc)
    requires AttendedInv(st) && d in st.disp && KeepsAttending(st, st.disp[d].pc, pc)
    ensures AttendedInv(Goto(st, d, pc))
  {
    var after := Goto(st, d, pc);
    forall s, k | s in after.sess && k in after.sess[s].pending
      ensures Attended(after, k)
    {
      assert Attended(st, k);
    }
  }

  /** Steps that add no entry, keep owners and move no dispatcher. */
  lemma StillAttended(st: State, after: State)
    requires AttendedInv(st)
    requires forall s, k :: s in after.sess && k in after.sess[s].pending ==> s in st.sess && k in st.sess[s].pending
    requires forall k :: k in st.cmds ==> k in after.cmds && after.cmds[k].owner == st.cmds[k].owner
    requires forall d :: d in st.disp ==> d in after.disp && after.disp[d].pc == st.disp[d].pc
    ensures AttendedInv(after)
  {
    forall s, k | s in after.sess && k in after.sess[s].pending
      ensures Attended(after, k)
    {
      assert Attended(st, k);
    }
  }

  lemma RegisterAttends(st: State, d: Did, s: Sid, id: string, cap: string, pc: Pc)
    requires AttendedInv(st) && d in st.disp && s in st.sess && id !in st.cmds
    requires CommandOf(st.disp[d].pc).None? && Attends(pc, id)
    ensures AttendedInv(Goto(AddEntry(st, s, id, cap, d), d, pc))
  {
    var after := Goto(AddEntry(st, s, id, cap, d), d, pc);
    forall t, k | t in after.sess && k in after.sess[t].pending
      ensures Attended(after, k)
    {
      if k != id {
        assert k in st.sess[t].pending;
        assert Attended(st, k);
      }
    }
  }

  lemma TakenIsUnpended(st: State, s: Sid, k: string, via: Remover, outcome: Option<Outcome>)
    requires PendingsOk(st) && s in st.sess && k in st.sess[s].pending && k in st.cmds
    ensures Unpended(TakeEntry(st, s, k, via, outcome), k)
  {
    assert PendingOk(st, s, k);
    forall t | t in st.sess && k in st.sess[t].pending
      ensures t == s
    {
      assert PendingOk(st, t, k);
    }
  }

  lemma AbsentIsUnpended(st: State, k: string)
    requires PendingsOk(st) && k in st.cmds
    requires st.cmds[k].s in st.sess ==> k !in st.sess[st.cmds[k].s].pending
    ensures Unpended(st, k)
  {
    forall t | t in st.sess
      ensures k !in st.sess[t].pending
    {
    }
  }

  // ---------- What the invariant says ----------

  /** A waiting dispatcher whose channel is closed finds a value in it: the branch for a channel
      closed bare is unreachable. */
  lemma NoBareClose(st: State, d: Did)
    requires DeliveryInv(st) && d in st.disp && st.disp[d].pc.Waiting?
    ensures var k := st.disp[d].pc.cmd;
            k in st.cmds && (st.cmds[k].chan.closed ==> st.cmds[k].chan.buffer != [])
  {
    var k := st.disp[d].pc.cmd;
    assert Owns(st.cmds, d, st.disp[d].pc);
    assert CommandOk(st, k);
    assert k in st.sess[st.cmds[k].s].pending ==> PendingOk(st, st.cmds[k].s, k);
    assert k in st.owed ==> OwedOk(st, k);
    assert Settled(st.cmds[k]) ==> st.cmds[k].removals[0] in st.cmds[k].removals;
  }

  /** Each command is in exactly one place: pending, with one remover, or settled for good after
      exactly one removal, one finish and at most one outcome. */
  lemma ExactlyOnePlace(st: State, k: string)
    requires DeliveryInv(st) && k in st.cmds
    ensures st.cmds[k].s in st.sess
    ensures var c := st.cmds[k];
            var pending := k in st.sess[c.s].pending;
            && |c.removals| == (if pending then 0 else 1)
            && c.finishes == (if pending || k in st.owed then 0 else 1)
            && c.chan.closed == (c.finishes == 1)
            && !(pending && k in st.owed)
            && |c.chan.buffer| + |c.received|
               == (if c.finishes == 1 && !c.removals[0].ByUnregister? then 1 else 0)
            && forall s :: s in st.sess && k in st.sess[s].pending ==> s == c.s
  {
    var c := st.cmds[k];
    assert CommandOk(st, k);
    assert k in st.sess[c.s].pending ==> PendingOk(st, c.s, k);
    assert k in st.owed ==> OwedOk(st, k);
    forall s | s in st.sess && k in st.sess[s].pending
      ensures s == c.s
    {
      assert PendingOk(st, s, k);
    }
  }

  /** What a dispatcher settles with is its own command's answer or its session's close reason. */
  lemma OutcomeIsMine(st: State, d: Did)
    requires DeliveryInv(st) && d in st.disp && st.disp[d].pc.Settling?
    ensures var pc := st.disp[d].pc;
            match pc.outcome
            case Answer(id, _) => id == pc.cmd
            case Failure(id, _) => id == pc.cmd
            case SessionLost(reason) => pc.s in st.sess && st.sess[pc.s].closedErr == Some(reason)
  {
    var pc := st.disp[d].pc;
    assert Owns(st.cmds, d, pc);
    assert CommandOk(st, pc.cmd);
    assert pc.outcome in st.cmds[pc.cmd].received;
    assert Honest(st.sess, st.cmds[pc.cmd].s, pc.cmd, pc.outcome);
  }
}
