/** Choosing a worker session for a capability (service_dispatch.go) and the admission check that
    runs before a task is accepted (task.go). */
module Scheduler {
  import opened Prelude
  import opened SessionRuntime

  datatype PickError = NoWorker | NoCapacity

  /** What the scheduler sees of one listed node; None when no live session of it serves the
      capability. */
  type Load = Option<Slots>

  const MAX_INT := 0x7FFF_FFFF_FFFF_FFFF

  predicate HasRoom(load: Load) {
    load.Some? && load.value.inflight < Limit(load.value)
  }

  predicate NoneHasRoom(loads: seq<Load>) {
    forall j :: 0 <= j < |loads| ==> !HasRoom(loads[j])
  }

  predicate NoneServes(loads: seq<Load>) {
    forall j :: 0 <= j < |loads| ==> loads[j].None?
  }

  // ---------- Rotation ----------

  /** The node a pick that starts at `start` looks at in its round `i`. */
  function Turn(n: nat, start: nat, i: nat): (k: nat)
    requires i < n
    ensures k < n
  {
    (start + i) % n
  }

  lemma MulAtLeast(a: int, n: nat)
    requires a >= 1
    ensures a * n >= n
  {
  }

  lemma Wraps(q: int, k: nat, n: nat)
    requires k < n
    ensures (q * n + k) % n == k
  {
    var d, r := (q * n + k) / n, (q * n + k) % n;
    assert (q - d) * n == r - k && (d - q) * n == k - r;
    if q > d {
      MulAtLeast(q - d, n);
    } else if q < d {
      MulAtLeast(d - q, n);
    }
  }

  lemma TurnIs(n: nat, start: nat, i: nat)
    requires i < n
    ensures Turn(n, start, i) == if start % n + i < n then start % n + i else start % n + i - n
  {
    var q, off := start / n, start % n;
    assert start == q * n + off;
    if off + i < n {
      Wraps(q, off + i, n);
    } else {
      Wraps(q + 1, off + i - n, n);
      assert (q + 1) * n == q * n + n;
    }
  }

  /** One round looks at every node, and at none twice. */
  lemma TurnsCover(n: nat, start: nat, k: nat)
    requires k < n
    ensures exists i | 0 <= i < n :: Turn(n, start, i) == k
    ensures forall i, j | 0 <= i < n && 0 <= j < n && Turn(n, start, i) == Turn(n, start, j) :: i == j
  {
    forall i | 0 <= i < n
      ensures Turn(n, start, i) == if start % n + i < n then start % n + i else start % n + i - n
    {
      TurnIs(n, start, i);
    }
    var off := start % n;
    assert Turn(n, start, if k >= off then k - off else k + n - off) == k;
  }

  /** The loads in the order in which one pick looks at them. */
  function Rotated(loads: seq<Load>, start: nat): seq<Load> {
    seq(|loads|, i requires 0 <= i < |loads| => loads[Turn(|loads|, start, i)])
  }

  /** The listed nodes in the same order. */
  function InTurn(nodeIDs: seq<string>, start: nat): seq<string> {
    seq(|nodeIDs|, i requires 0 <= i < |nodeIDs| => nodeIDs[Turn(|nodeIDs|, start, i)])
  }

  /** Rotation changes the order of the loads and nothing else. */
  lemma RotationKeepsLoads(loads: seq<Load>, start: nat)
    ensures NoneHasRoom(Rotated(loads, start)) <==> NoneHasRoom(loads)
    ensures NoneServes(Rotated(loads, start)) <==> NoneServes(loads)
  {
    hide HasRoom, Turn;
    var order := Rotated(loads, start);
    forall k | 0 <= k < |loads|
      ensures exists i | 0 <= i < |order| :: order[i] == loads[k]
    {
      TurnsCover(|loads|, start, k);
      var i :| 0 <= i < |loads| && Turn(|loads|, start, i) == k;
      assert order[i] == loads[k];
    }
  }

  // ---------- Which node a pick prefers ----------

  /** Place `i` holds the least load with room, and the first such. */
  predicate FirstLeast(order: seq<Load>, i: nat) {
    && i < |order| && HasRoom(order[i])
    && (forall j | 0 <= j < |order| && HasRoom(order[j]) :: order[i].value.inflight <= order[j].value.inflight)
    && (forall j | 0 <= j < i && HasRoom(order[j]) :: order[i].value.inflight < order[j].value.inflight)
  }

  /** The right answer of an undisturbed pick: the first least load with room, if any has room. */
  predicate Best(order: seq<Load>, place: Option<nat>) {
    if place.Some? then FirstLeast(order, place.value) else NoneHasRoom(order)
  }

  /** There is one right answer. */
  lemma BestIsUnique(order: seq<Load>, p: Option<nat>, q: Option<nat>)
    requires Best(order, p) && Best(order, q)
    ensures p == q
  {
    assert p.Some? ==> HasRoom(order[p.value]);
    assert q.Some? ==> HasRoom(order[q.value]);
  }

  lemma BestHasRoom(order: seq<Load>, place: Option<nat>)
    requires Best(order, place) && place.Some?
    ensures place.value < |order| && HasRoom(order[place.value])
  {
  }

  lemma BestExtends(order: seq<Load>, i: nat, place: Option<nat>)
    requires i < |order| && Best(order[..i], place)
    ensures Best(order[..i + 1],
                 if HasRoom(order[i]) && (place.None? || order[i].value.inflight < order[place.value].value.inflight)
                 then Some(i) else place)
  {
    assert forall j | 0 <= j < i :: order[..i + 1][j] == order[..i][j] == order[j];
    assert order[..i + 1][i] == order[i];
  }

  lemma NothingSeen(order: seq<Load>)
    ensures Best(order[..0], None)
  {
  }

  // ---------- What the pool looks like to a pick ----------

  /** The capability table of every node's session. */
  type Tables = map<string, Capabilities>

  function LoadOf(tables: Tables, node: string, cap: string): Load {
    if cap != "" && node in tables && cap in tables[node] then Some(tables[node][cap]) else None
  }

  function Loads(tables: Tables, nodeIDs: seq<string>, cap: string): seq<Load> {
    seq(|nodeIDs|, i requires 0 <= i < |nodeIDs| => LoadOf(tables, nodeIDs[i], cap))
  }

  predicate Free(tables: Tables, node: string, cap: string) {
    node in tables && CanAcquire(tables[node], cap)
  }

  /** Acquiring and releasing never changes which capabilities a session has. */
  ghost predicate SameNames(before: Tables, after: Tables) {
    before.Keys == after.Keys && forall n | n in before :: before[n].Keys == after[n].Keys
  }

  /** Writing out missing limits is all that reading the loads does to a session. */
  predicate SameButLimit(before: Capabilities, after: Capabilities, cap: string) {
    WithLimit(after, cap) == WithLimit(before, cap)
  }

  ghost predicate SameSlots(before: Tables, after: Tables, cap: string) {
    before.Keys == after.Keys && forall n | n in before :: SameButLimit(before[n], after[n], cap)
  }

  lemma SameNamesSameServers(before: Tables, after: Tables, node: string, cap: string)
    requires SameNames(before, after)
    ensures LoadOf(before, node, cap).Some? <==> LoadOf(after, node, cap).Some?
  {
  }

  lemma SameSlotsSameLoad(before: Tables, after: Tables, node: string, cap: string)
    requires SameSlots(before, after, cap)
    ensures var x, y := LoadOf(before, node, cap), LoadOf(after, node, cap);
            && (x.Some? <==> y.Some?)
            && (x.Some? ==> Limit(x.value) == Limit(y.value) && x.value.inflight == y.value.inflight)
            && (HasRoom(x) ==> Free(after, node, cap))
  {
    if node in before {
      assert WithLimit(before[node], cap).Keys == before[node].Keys;
      assert WithLimit(after[node], cap).Keys == after[node].Keys;
    }
  }

  lemma Unchanged(tables: Tables, cap: string)
    ensures SameNames(tables, tables) && SameSlots(tables, tables, cap)
  {
  }

  lemma SameSlotsCompose(a: Tables, b: Tables, c: Tables, cap: string)
    requires SameSlots(a, b, cap) && SameSlots(b, c, cap)
    ensures SameSlots(a, c, cap)
  {
  }

  lemma SameNamesCompose(a: Tables, b: Tables, c: Tables)
    requires SameNames(a, b) && SameNames(b, c)
    ensures SameNames(a, c)
  {
  }

  lemma SameSlotsSameNames(before: Tables, after: Tables, cap: string)
    requires SameSlots(before, after, cap)
    ensures SameNames(before, after)
  {
    forall n | n in before
      ensures before[n].Keys == after[n].Keys
    {
      assert SameButLimit(before[n], after[n], cap);
      assert WithLimit(before[n], cap).Keys == before[n].Keys;
      assert WithLimit(after[n], cap).Keys == after[n].Keys;
    }
  }

  lemma LimitIsSettled(before: Capabilities, after: Capabilities, cap: string)
    requires SameButLimit(before, after, cap)
    ensures Acquire(before, cap) == Acquire(after, cap)
    ensures CanAcquire(before, cap) <==> CanAcquire(after, cap)
  {
    assert WithLimit(before, cap).Keys == before.Keys && WithLimit(after, cap).Keys == after.Keys;
  }

  lemma NothingListed(tables: Tables, cap: string, start: nat)
    ensures NoneServes(Loads(tables, [], cap)) && Best(Rotated(Loads(tables, [], cap), start), None)
  {
    assert Loads(tables, [], cap) == [];
  }

  /** A pick's whole effect on the slots: one more in use on the chosen node, if there is one. */
  ghost predicate OneTaken(before: Tables, after: Tables, cap: string, node: Option<string>) {
    && before.Keys == after.Keys
    && forall n | n in before ::
         if node == Some(n) then CanAcquire(before[n], cap) && after[n] == Acquire(before[n], cap)
         else SameButLimit(before[n], after[n], cap)
  }

  lemma NoneTaken(before: Tables, after: Tables, cap: string)
    requires SameSlots(before, after, cap)
    ensures OneTaken(before, after, cap, None)
  {
  }

  lemma FreeMeans(tables: Tables, node: string, cap: string)
    requires Free(tables, node, cap)
    ensures node in tables && CanAcquire(tables[node], cap)
  {
  }

  lemma TakenOnTop(a: Tables, b: Tables, c: Tables, cap: string, node: Option<string>)
    requires OneTaken(a, b, cap, None) && OneTaken(b, c, cap, node)
    ensures OneTaken(a, c, cap, node)
  {
    forall n | n in a
      ensures Acquire(a[n], cap) == Acquire(b[n], cap) && (CanAcquire(a[n], cap) <==> CanAcquire(b[n], cap))
    {
      LimitIsSettled(a[n], b[n], cap);
    }
    hide Acquire, CanAcquire, WithLimit;
  }

  /** Giving the one slot back leaves every counter as it was. */
  lemma TakenAndGivenBack(before: Tables, mid: Tables, after: Tables, cap: string, node: string)
    requires OneTaken(before, mid, cap, Some(node)) && node in mid
    requires InRange(before[node]) && after == mid[node := Release(mid[node], cap)]
    ensures OneTaken(before, after, cap, None)
  {
    AcquireRelease(before[node], cap);
    SettledTwice(before[node], cap);
  }

  lemma SettledTwice(caps: Capabilities, cap: string)
    ensures SameButLimit(caps, WithLimit(caps, cap), cap)
  {
  }

  lemma OneTakenAfter(before: Tables, mid: Tables, after: Tables, cap: string, node: string)
    requires SameSlots(before, mid, cap) && mid.Keys == after.Keys && node in mid
    requires CanAcquire(mid[node], cap) && after[node] == Acquire(mid[node], cap)
    requires forall n | n in mid && n != node :: after[n] == mid[n]
    ensures OneTaken(before, after, cap, Some(node))
  {
    LimitIsSettled(before[node], mid[node], cap);
  }

  /** The account of every node's session. */
  type Ledgers = map<string, Ledger>

  ghost function One(yes: bool): int {
    if yes then 1 else 0
  }

  /** The accounts show one slot less on one node and one more on another, where there are such. */
  ghost predicate Booked(before: Ledgers, after: Ledgers, cap: string, less: Option<string>, more: Option<string>) {
    && before.Keys == after.Keys
    && forall n, c | n in before ::
         Balance(after[n], c)
         == Balance(before[n], c) - One(less == Some(n) && c == cap) + One(more == Some(n) && c == cap)
  }

  lemma NothingBooked(ledgers: Ledgers, cap: string, node: Option<string>)
    ensures Booked(ledgers, ledgers, cap, node, node)
  {
  }

  lemma SlotBooked(before: Ledgers, after: Ledgers, cap: string, node: string)
    requires node in before && after == before[node := Book(before[node], cap, 1)]
    ensures Booked(before, after, cap, None, Some(node))
  {
  }

  lemma SlotRepaid(before: Ledgers, after: Ledgers, cap: string, node: string)
    requires node in before && after == before[node := Book(before[node], cap, -1)]
    ensures Booked(before, after, cap, Some(node), None)
  {
  }

  lemma BooksAddUp(a: Ledgers, b: Ledgers, c: Ledgers, cap: string, less: Option<string>, mid: Option<string>,
                   more: Option<string>)
    requires Booked(a, b, cap, less, mid) && Booked(b, c, cap, mid, more)
    ensures Booked(a, c, cap, less, more)
  {
    hide Balance;
  }

  // ---------- The code ----------

  /** Counters are not negative and limits are machine integers. */
  predicate InRange(caps: Capabilities) {
    forall c | c in caps :: caps[c].maxInflight <= MAX_INT && 0 <= caps[c].inflight
  }

  /** The capability has just been acquired where there was room. */
  ghost predicate TookOne(after: Capabilities, cap: string) {
    exists caps :: CanAcquire(caps, cap) && after == Acquire(caps, cap)
  }

  lemma AcquiredServes(caps: Capabilities, cap: string)
    requires CanAcquire(caps, cap)
    ensures TookOne(Acquire(caps, cap), cap)
  {
  }

  lemma TookOneServes(after: Capabilities, cap: string)
    requires TookOne(after, cap)
    ensures cap != "" && cap in after
  {
  }

  lemma StaysInRange(caps: Capabilities, cap: string)
    requires InRange(caps)
    ensures InRange(Acquire(caps, cap)) && InRange(Release(caps, cap)) && InRange(WithLimit(caps, cap))
  {
  }

  datatype Candidate = Candidate(session: ActiveSession, inflight: int)

  /** The preferred all have the least load, the others more. */
  ghost predicate Leveled(preferred: seq<Candidate>, fallback: seq<Candidate>, least: int) {
    (forall c | c in preferred :: c.inflight == least) && (forall c | c in fallback :: c.inflight > least)
  }

  function NodesOf(candidates: seq<Candidate>): seq<string> {
    seq(|candidates|, i requires 0 <= i < |candidates| => candidates[i].session.nodeID)
  }

  /** Somewhere before place `j` there is room under a smaller load. */
  predicate Beaten(order: seq<Load>, j: nat)
    requires j < |order| && order[j].Some?
  {
    exists k | 0 <= k < j :: HasRoom(order[k]) && order[k].value.inflight < order[j].value.inflight
  }

  /** Every node with room under the least load is among the preferred, and every one that came after a
      lesser load is kept as a fallback. */
  ghost predicate Sorted(order: seq<Load>, nodes: seq<string>, least: int, preferred: seq<string>,
                         fallback: seq<string>)
    requires |nodes| == |order|
  {
    forall j | 0 <= j < |order| && HasRoom(order[j]) ::
      && order[j].value.inflight >= least
      && (order[j].value.inflight == least ==> nodes[j] in preferred)
      && (Beaten(order, j) ==> nodes[j] in fallback)
  }

  lemma SortedExtends(order: seq<Load>, nodes: seq<string>, i: nat, least: int, preferred: seq<string>,
                      fallback: seq<string>)
    requires |nodes| == |order| && i < |order| && Sorted(order[..i], nodes[..i], least, preferred, fallback)
    ensures var load, node := order[i], nodes[i];
            var (l, p, f) := if !HasRoom(load) then (least, preferred, fallback)
                             else if load.value.inflight < least then (load.value.inflight, [node], fallback)
                             else if load.value.inflight == least then (least, preferred + [node], fallback)
                             else (least, preferred, fallback + [node]);
            Sorted(order[..i + 1], nodes[..i + 1], l, p, f)
  {
    var next := order[..i + 1];
    forall j | 0 <= j < i && HasRoom(order[j])
      ensures Beaten(next, j) <==> Beaten(order[..i], j)
      ensures order[..i][j] == order[j] == next[j] && nodes[..i][j] == nodes[j] == nodes[..i + 1][j]
      ensures order[j].value.inflight >= least
    {
      assert order[..i][j] == order[j] && HasRoom(order[..i][j]);
    }
    forall k | 0 <= k < i && HasRoom(next[k])
      ensures next[k].value.inflight >= least
    {
      assert next[k] == order[k];
    }
  }

  /** What a survey has so far: the place of the best load, that load, and the candidates' nodes. */
  datatype Ranking = Ranking(place: Option<nat>, least: int, preferred: seq<string>, fallback: seq<string>)

  function Ranked(rank: Ranking, load: Load, node: string, i: nat): Ranking {
    if !HasRoom(load) then rank
    else if load.value.inflight < rank.least then Ranking(Some(i), load.value.inflight, [node], rank.fallback)
    else if load.value.inflight == rank.least then rank.(preferred := rank.preferred + [node])
    else rank.(fallback := rank.fallback + [node])
  }

  ghost predicate Faithful(order: seq<Load>, nodes: seq<string>, rank: Ranking)
    requires |nodes| == |order|
  {
    && Best(order, rank.place) && Sorted(order, nodes, rank.least, rank.preferred, rank.fallback)
    && (rank.place.Some? <==> rank.preferred != [])
    && (if rank.place.Some? then
          && order[rank.place.value].Some? && rank.least == order[rank.place.value].value.inflight
          && rank.preferred[0] == nodes[rank.place.value]
        else rank.least == MAX_INT)
  }

  lemma NothingRanked(order: seq<Load>, nodes: seq<string>)
    requires |nodes| == |order|
    ensures Faithful(order[..0], nodes[..0], Ranking(None, MAX_INT, NodesOf([]), NodesOf([])))
  {
    assert NodesOf([]) == [];
    NothingSeen(order);
  }

  lemma NothingLeveled(least: int)
    ensures Leveled([], [], least)
  {
  }

  lemma FirstNode(candidates: seq<Candidate>)
    ensures NodesOf(candidates) == [] <==> candidates == []
    ensures candidates != [] ==> NodesOf(candidates)[0] == candidates[0].session.nodeID
  {
  }

  lemma BestOfAll(order: seq<Load>, nodes: seq<string>, rank: Ranking)
    requires |nodes| == |order| && Faithful(order, nodes, rank) && rank.place.Some?
    ensures rank.place.value < |order| && HasRoom(order[rank.place.value])
  {
  }

  lemma FaithfulMeans(order: seq<Load>, nodes: seq<string>, rank: Ranking)
    requires |nodes| == |order| && Faithful(order, nodes, rank)
    ensures Best(order, rank.place) && Sorted(order, nodes, rank.least, rank.preferred, rank.fallback)
    ensures rank.place.Some? <==> rank.preferred != []
    ensures rank.place.Some? ==> rank.place.value < |nodes| && rank.preferred[0] == nodes[rank.place.value]
  {
  }

  lemma RankedStaysFaithful(order: seq<Load>, nodes: seq<string>, i: nat, rank: Ranking)
    requires |nodes| == |order| && i < |order| && Faithful(order[..i], nodes[..i], rank)
    requires HasRoom(order[i]) ==> order[i].value.inflight < MAX_INT
    ensures Faithful(order[..i + 1], nodes[..i + 1], Ranked(rank, order[i], nodes[i], i))
  {
    hide Best, Sorted;
    if rank.place.Some? {
      BestHasRoom(order[..i], rank.place);
      assert order[..i][rank.place.value] == order[..i + 1][rank.place.value] == order[rank.place.value];
      assert nodes[..i][rank.place.value] == nodes[..i + 1][rank.place.value];
    }
    BestExtends(order, i, rank.place);
    SortedExtends(order, nodes, i, rank.least, rank.preferred, rank.fallback);
  }

  /** The same with what one round has seen of the node. */
  lemma RoundStaysFaithful(was: Tables, before: Tables, nodeIDs: seq<string>, cap: string, start: nat, i: nat,
                           seen: Load, rank: Ranking)
    requires i < |nodeIDs| && SameSlots(was, before, cap)
    requires var node := nodeIDs[Turn(|nodeIDs|, start, i)];
             var load := LoadOf(before, node, cap);
             && (seen.Some? <==> load.Some?)
             && (seen.Some? ==> seen.value == Slots(Limit(load.value), load.value.inflight)
                                && seen.value.maxInflight <= MAX_INT)
    requires Faithful(Rotated(Loads(was, nodeIDs, cap), start)[..i], InTurn(nodeIDs, start)[..i], rank)
    ensures Faithful(Rotated(Loads(was, nodeIDs, cap), start)[..i + 1], InTurn(nodeIDs, start)[..i + 1],
                     Ranked(rank, seen, nodeIDs[Turn(|nodeIDs|, start, i)], i))
  {
    hide Faithful, SameSlots, Turn, LoadOf;
    var order, nodes := Rotated(Loads(was, nodeIDs, cap), start), InTurn(nodeIDs, start);
    SameSlotsSameLoad(was, before, nodes[i], cap);
    RankedStaysFaithful(order, nodes, i, rank);
  }

  /** The session is one of the candidates, and the attempts made are on those up to it, in order. */
  ghost predicate FoundAfter(before: seq<string>, attempts: seq<string>, candidates: seq<Candidate>,
                             session: ActiveSession)
  {
    exists k | 0 <= k < |candidates| :: FoundAt(before, attempts, candidates, session, k)
  }

  ghost predicate FoundAt(before: seq<string>, attempts: seq<string>, candidates: seq<Candidate>,
                          session: ActiveSession, k: nat)
  {
    k < |candidates| && candidates[k].session == session && attempts == before + NodesOf(candidates[..k + 1])
  }

  lemma FoundHere(before: seq<string>, attempts: seq<string>, candidates: seq<Candidate>, i: nat)
    requires i < |candidates| && attempts == before + NodesOf(candidates[..i + 1])
    ensures FoundAfter(before, attempts, candidates, candidates[i].session)
  {
    assert FoundAt(before, attempts, candidates, candidates[i].session, i);
  }

  lemma OneMoreNode(candidates: seq<Candidate>, i: nat)
    requires i < |candidates|
    ensures NodesOf(candidates[..i + 1]) == NodesOf(candidates[..i]) + [candidates[i].session.nodeID]
  {
  }

  lemma FoundSooner(before: seq<string>, attempts: seq<string>, first: seq<Candidate>, rest: seq<Candidate>,
                    session: ActiveSession)
    requires FoundAfter(before, attempts, first, session)
    ensures FoundAfter(before, attempts, first + rest, session)
  {
    var k :| 0 <= k < |first| && FoundAt(before, attempts, first, session, k);
    assert (first + rest)[..k + 1] == first[..k + 1];
    assert FoundAt(before, attempts, first + rest, session, k);
  }

  lemma FoundLater(before: seq<string>, attempts: seq<string>, first: seq<Candidate>, rest: seq<Candidate>,
                   session: ActiveSession)
    requires FoundAfter(before + NodesOf(first), attempts, rest, session)
    ensures FoundAfter(before, attempts, first + rest, session)
  {
    var k :| 0 <= k < |rest| && FoundAt(before + NodesOf(first), attempts, rest, session, k);
    var all := first + rest;
    assert all[..|first| + k + 1] == first + rest[..k + 1];
    assert NodesOf(all[..|first| + k + 1]) == NodesOf(first) + NodesOf(rest[..k + 1]);
    assert FoundAt(before, attempts, all, session, |first| + k);
  }

  /** The node of the session picked, if one was. */
  function NodeOf(r: Result<ActiveSession, PickError>): Option<string> {
    if r.Ok? then Some(r.value.nodeID) else None
  }

  class Pool {
    var sessions: map<string, ActiveSession>
    var roundRobin: nat

    /** The nodes on which the caller has attempted to take a slot, in order. */
    ghost var attempts: seq<string>

    constructor ()
      ensures sessions == map[] && roundRobin == 0 && attempts == []
    {
      sessions, roundRobin, attempts := map[], 0, [];
    }

    /** Each session is filed under its node, with counters and limits in range. */
    ghost predicate Valid()
      reads this`sessions, sessions.Values`capabilities
    {
      && (forall n | n in sessions :: sessions[n].nodeID == n)
      && (forall n | n in sessions :: InRange(sessions[n].capabilities))
    }

    ghost predicate Has(session: ActiveSession)
      reads this`sessions
    {
      session.nodeID in sessions && sessions[session.nodeID] == session
    }

    ghost function AllTables(): Tables
      reads this`sessions, sessions.Values`capabilities
    {
      map n | n in sessions :: sessions[n].capabilities
    }

    ghost function AllLedgers(): Ledgers
      reads this`sessions, sessions.Values`ledger
    {
      map n | n in sessions :: sessions[n].ledger
    }

    /** Whatever other goroutines do to the counters meanwhile; nothing if the call is `quiet`. */
    method Others(quiet: bool)
      requires Valid()
      modifies sessions.Values`capabilities
      ensures Valid()
      ensures SameNames(old(AllTables()), AllTables())
      ensures quiet ==> AllTables() == old(AllTables())
    {
      if quiet {
        return;
      }
      var todo := sessions.Keys;
      while todo != {}
        invariant Valid()
        invariant SameNames(old(AllTables()), AllTables())
      {
        var n :| n in todo;
        var caps: Capabilities := *;
        if caps.Keys == sessions[n].capabilities.Keys && InRange(caps) {
          sessions[n].capabilities := caps;
        }
        todo := todo - {n};
      }
    }

    /** tryAcquireCapability on one session: in the counters and on the books of its node alone. */
    method TryAcquire(session: ActiveSession, cap: string) returns (taken: bool)
      requires Valid() && Has(session)
      modifies session`capabilities, session`ledger
      ensures Valid()
      ensures var n := session.nodeID;
              && taken == CanAcquire(old(AllTables())[n], cap)
              && AllTables() == old(AllTables())[n := Acquire(old(AllTables())[n], cap)]
              && AllLedgers() == if taken then old(AllLedgers())[n := Book(old(AllLedgers())[n], cap, 1)]
                                 else old(AllLedgers())
    {
      hide CanAcquire, Acquire, Attempted, Book, InRange;
      StaysInRange(session.capabilities, cap);
      taken := session.TryAcquireCapability(cap);
    }

    /** The same for a candidate of a pick. */
    method Attempt(session: ActiveSession, cap: string) returns (taken: bool)
      requires Valid() && Has(session)
      modifies session`capabilities, session`ledger, this`attempts
      ensures Valid() && attempts == old(attempts) + [session.nodeID]
      ensures taken ==> TookOne(AllTables()[session.nodeID], cap)
      ensures Booked(old(AllLedgers()), AllLedgers(), cap, None, if taken then Some(session.nodeID) else None)
      ensures !taken ==> AllLedgers() == old(AllLedgers())
      ensures taken == CanAcquire(old(AllTables())[session.nodeID], cap)
      ensures AllTables() == old(AllTables())[session.nodeID := Acquire(old(AllTables())[session.nodeID], cap)]
    {
      hide CanAcquire, Acquire, Booked, Book, TookOne, InRange, Balance;
      ghost var tables, books := AllTables(), AllLedgers();
      NothingBooked(books, cap, None);
      taken := TryAcquire(session, cap);
      attempts := attempts + [session.nodeID];
      if taken {
        AcquiredServes(tables[session.nodeID], cap);
        SlotBooked(books, AllLedgers(), cap, session.nodeID);
      }
    }

    /** releaseCapability on one session, likewise. */
    method Release(session: ActiveSession, cap: string)
      requires Valid() && Has(session)
      modifies session`capabilities, session`ledger
      ensures Valid()
      ensures var n := session.nodeID;
              && AllTables() == old(AllTables())[n := SessionRuntime.Release(old(AllTables())[n], cap)]
              && AllLedgers() == old(AllLedgers())[n := Repaid(old(AllLedgers())[n], old(AllTables())[n], cap)]
    {
      hide SessionRuntime.Release, GivenBack, Repaid, InRange;
      StaysInRange(session.capabilities, cap);
      session.ReleaseCapability(cap);
    }

    /** getSession, hasCapability and inflightSnapshot for one node. */
    method Snapshot(node: string, cap: string) returns (session: Option<ActiveSession>, slots: Slots)
      requires Valid()
      modifies sessions.Values`capabilities
      ensures Valid() && SameSlots(old(AllTables()), AllTables(), cap)
      ensures var load := LoadOf(old(AllTables()), node, cap);
              && (session.Some? <==> load.Some?)
              && (load.Some? ==> Has(session.value) && session.value.nodeID == node && slots.maxInflight <= MAX_INT)
              && (load.Some? ==> slots == Slots(Limit(load.value), load.value.inflight))
    {
      hide SlotsBecome, LimitIs;
      slots := Slots(0, 0);
      if node !in sessions {
        return None, slots;
      }
      var serves := sessions[node].HasCapability(cap);
      if !serves {
        return None, slots;
      }
      var snapshot := sessions[node].InflightSnapshot(cap);
      return Some(sessions[node]), snapshot.value;
    }

    /** One round's look, with others about. */
    method LookAt(node: string, cap: string, quiet: bool) returns (session: Option<ActiveSession>, slots: Slots)
      requires Valid()
      modifies sessions.Values`capabilities
      ensures Valid() && SameNames(old(AllTables()), AllTables())
      ensures session.Some? <==> LoadOf(old(AllTables()), node, cap).Some?
      ensures session.Some? ==> Has(session.value) && session.value.nodeID == node && slots.maxInflight <= MAX_INT
      ensures quiet ==> SameSlots(old(AllTables()), AllTables(), cap)
      ensures quiet && session.Some? ==>
                var load := LoadOf(old(AllTables()), node, cap).value;
                slots == Slots(Limit(load), load.inflight)
    {
      hide SameSlots, SameNames, LoadOf, InRange;
      ghost var was := AllTables();
      Others(quiet);
      ghost var now := AllTables();
      session, slots := Snapshot(node, cap);
      SameNamesSameServers(was, now, node, cap);
      SameSlotsSameNames(now, AllTables(), cap);
      SameNamesCompose(was, now, AllTables());
    }

    /** A candidate joins the preferred, replaces them, or is kept as a fallback. */
    method SortIn(candidate: Candidate, preferred: seq<Candidate>, fallback: seq<Candidate>, least: int)
      returns (p: seq<Candidate>, f: seq<Candidate>, l: int)
      requires Leveled(preferred, fallback, least) && Has(candidate.session)
      requires forall c | c in preferred + fallback :: Has(c.session)
      ensures Leveled(p, f, l) && forall c | c in p + f :: Has(c.session)
      ensures l == if candidate.inflight < least then candidate.inflight else least
      ensures p != [] <==> preferred != [] || candidate.inflight <= least
      ensures var n := candidate.session.nodeID;
              && NodesOf(p) == (if candidate.inflight < least then [n]
                                else if candidate.inflight == least then NodesOf(preferred) + [n]
                                else NodesOf(preferred))
              && NodesOf(f) == if candidate.inflight > least then NodesOf(fallback) + [n] else NodesOf(fallback)
      ensures candidate.inflight >= least && preferred != [] ==> p[0] == preferred[0]
      ensures candidate.inflight < least ==> p == [candidate]
      ensures p != [] ==> p[0].inflight == l
    {
      p, f, l := preferred, fallback, least;
      if candidate.inflight < least {
        l := candidate.inflight;
        p := [candidate];
      } else if candidate.inflight == least {
        p := p + [candidate];
      } else {
        f := f + [candidate];
      }
    }

    /** Looks at every listed node once: the least loaded with room are preferred, later ones with
        more load are kept as a fallback. */
    method Survey(nodeIDs: seq<string>, cap: string, start: nat, quiet: bool)
      returns (preferred: seq<Candidate>, fallback: seq<Candidate>, hasSession: bool, ghost place: Option<nat>)
      requires Valid()
      modifies sessions.Values`capabilities
      ensures Valid()
      ensures hasSession <==> !NoneServes(Rotated(Loads(old(AllTables()), nodeIDs, cap), start))
      ensures preferred != [] ==> hasSession
      ensures place.Some? ==> place.value < |nodeIDs|
      ensures forall c | c in preferred + fallback :: Has(c.session)
      ensures preferred != [] ==> Leveled(preferred, fallback, preferred[0].inflight)
      ensures quiet && preferred != [] ==>
                Sorted(Rotated(Loads(old(AllTables()), nodeIDs, cap), start), InTurn(nodeIDs, start),
                       preferred[0].inflight, NodesOf(preferred), NodesOf(fallback))
      ensures quiet ==>
                && SameSlots(old(AllTables()), AllTables(), cap)
                && Best(Rotated(Loads(old(AllTables()), nodeIDs, cap), start), place)
                && (place.Some? <==> preferred != [])
                && (place.Some? ==>
                      var node := nodeIDs[Turn(|nodeIDs|, start, place.value)];
                      preferred[0].session.nodeID == node && Free(AllTables(), node, cap))
    {
      hide Turn, Best, Sorted, SameSlots, SameNames, Valid, LoadOf, Has, Free, NodesOf, Leveled, Faithful;
      ghost var was := AllTables();
      ghost var order, nodes := Rotated(Loads(was, nodeIDs, cap), start), InTurn(nodeIDs, start);
      var minInflight := MAX_INT;
      preferred, fallback, hasSession, place := [], [], false, None;
      NothingRanked(order, nodes);
      NothingLeveled(minInflight);
      Unchanged(was, cap);
      for i := 0 to |nodeIDs|
        invariant Valid() && SameNames(was, AllTables())
        invariant hasSession <==> !NoneServes(order[..i])
        invariant forall c | c in preferred + fallback :: Has(c.session)
        invariant preferred != [] ==> hasSession && preferred[0].inflight == minInflight
        invariant Leveled(preferred, fallback, minInflight)
        invariant place.Some? ==> place.value < i
        invariant quiet ==> SameSlots(was, AllTables(), cap)
        invariant quiet ==> Faithful(order[..i], nodes[..i],
                                     Ranking(place, minInflight, NodesOf(preferred), NodesOf(fallback)))
      {
        ghost var before := AllTables();
        assert order[..i + 1] == order[..i] + [order[i]];
        var node := nodeIDs[Turn(|nodeIDs|, start, i)];
        var session, slots := LookAt(node, cap, quiet);
        SameNamesSameServers(was, before, node, cap);
        SameNamesCompose(was, before, AllTables());
        if quiet {
          SameSlotsCompose(was, before, AllTables(), cap);
          RoundStaysFaithful(was, before, nodeIDs, cap, start, i, if session.Some? then Some(slots) else None,
                             Ranking(place, minInflight, NodesOf(preferred), NodesOf(fallback)));
        }
        if session.None? {
          continue;
        }
        hasSession := true;
        if slots.inflight >= slots.maxInflight {
          continue;
        }
        if slots.inflight < minInflight {
          place := Some(i);
        }
        preferred, fallback, minInflight :=
          SortIn(Candidate(session.value, slots.inflight), preferred, fallback, minInflight);
      }
      assert order[..|nodeIDs|] == order && nodes[..|nodeIDs|] == nodes;
      if quiet && place.Some? {
        BestOfAll(order, nodes, Ranking(place, minInflight, NodesOf(preferred), NodesOf(fallback)));
        SameSlotsSameLoad(was, AllTables(), nodeIDs[Turn(|nodeIDs|, start, place.value)], cap);
      }
      if quiet {
        FaithfulMeans(order, nodes, Ranking(place, minInflight, NodesOf(preferred), NodesOf(fallback)));
        FirstNode(preferred);
      }
    }

    /** Other goroutines may run before every lock section, unless the call is `quiet`. */
    method PickSessionForCapability(nodeIDs: seq<string>, cap: string, quiet: bool)
      returns (r: Result<ActiveSession, PickError>, ghost place: Option<nat>)
      requires Valid()
      modifies this`roundRobin, sessions.Values`capabilities, sessions.Values`ledger, this`attempts
      ensures Valid()
      ensures Booked(old(AllLedgers()), AllLedgers(), cap, None, NodeOf(r))
      ensures roundRobin == old(roundRobin) + if nodeIDs == [] then 0 else 1
      ensures r == Err(NoWorker) <==> NoneServes(Loads(old(AllTables()), nodeIDs, cap))
      ensures r.Ok? ==> Has(r.value) && TookOne(AllTables()[r.value.nodeID], cap)
      ensures place.Some? ==> place.value < |nodeIDs|
      ensures quiet ==>
                && Best(Rotated(Loads(old(AllTables()), nodeIDs, cap), old(roundRobin)), place)
                && (r.Ok? <==> place.Some?)
                && (r.Ok? ==> r.value.nodeID == nodeIDs[Turn(|nodeIDs|, old(roundRobin), place.value)])
                && OneTaken(old(AllTables()), AllTables(), cap, NodeOf(r))
    {
      hide Best, Rotated, NoneServes, OneTaken, Booked, InRange, Loads, TookOne, Has, Turn;
      if |nodeIDs| == 0 {
        NothingListed(AllTables(), cap, roundRobin);
        Unchanged(AllTables(), cap);
        NoneTaken(AllTables(), AllTables(), cap);
        NothingBooked(AllLedgers(), cap, None);
        return Err(NoWorker), None;
      }
      roundRobin := roundRobin + 1;
      r, place := PickFrom(nodeIDs, cap, roundRobin - 1, quiet);
    }

    /** The pick that has drawn `start` from the counter. */
    method PickFrom(nodeIDs: seq<string>, cap: string, start: nat, quiet: bool)
      returns (r: Result<ActiveSession, PickError>, ghost place: Option<nat>)
      requires Valid() && nodeIDs != []
      modifies sessions.Values`capabilities, sessions.Values`ledger, this`attempts
      ensures Valid()
      ensures Booked(old(AllLedgers()), AllLedgers(), cap, None, NodeOf(r))
      ensures r == Err(NoWorker) <==> NoneServes(Loads(old(AllTables()), nodeIDs, cap))
      ensures r.Ok? ==> Has(r.value) && TookOne(AllTables()[r.value.nodeID], cap)
      ensures place.Some? ==> place.value < |nodeIDs|
      ensures quiet ==>
                && Best(Rotated(Loads(old(AllTables()), nodeIDs, cap), start), place)
                && (r.Ok? <==> place.Some?)
                && (r.Ok? ==> r.value.nodeID == nodeIDs[Turn(|nodeIDs|, start, place.value)])
                && OneTaken(old(AllTables()), AllTables(), cap, NodeOf(r))
    {
      hide Best, Rotated, NoneServes, Acquire, CanAcquire, SameSlots, OneTaken, Booked, InRange, Loads, TookOne;
      hide Free, Has;
      hide Turn, Valid;
      ghost var was := AllTables();
      NothingBooked(AllLedgers(), cap, None);
      RotationKeepsLoads(Loads(was, nodeIDs, cap), start);
      var preferred, fallback, hasSession;
      preferred, fallback, hasSession, place := Survey(nodeIDs, cap, start, quiet);
      ghost var mid := AllTables();
      if preferred == [] {
        if quiet {
          NoneTaken(was, mid, cap);
        }
        return Err(if hasSession then NoCapacity else NoWorker), place;
      }
      r := TakeFrom(preferred, fallback, cap, quiet);
      if quiet {
        FreeMeans(mid, r.value.nodeID, cap);
        OneTakenAfter(was, mid, AllTables(), cap, r.value.nodeID);
      }
    }

    /** The preferred candidates first, then the others. */
    method TakeFrom(preferred: seq<Candidate>, fallback: seq<Candidate>, cap: string, quiet: bool)
      returns (r: Result<ActiveSession, PickError>)
      requires Valid() && preferred != [] && forall c | c in preferred + fallback :: Has(c.session)
      modifies sessions.Values`capabilities, sessions.Values`ledger, this`attempts
      ensures Valid()
      ensures Booked(old(AllLedgers()), AllLedgers(), cap, None, NodeOf(r))
      ensures r.Err? ==> r.error == NoCapacity && attempts == old(attempts) + NodesOf(preferred + fallback)
      ensures r.Ok? ==> FoundAfter(old(attempts), attempts, preferred + fallback, r.value)
      ensures r.Ok? ==> Has(r.value) && TookOne(AllTables()[r.value.nodeID], cap)
      ensures quiet && Free(old(AllTables()), preferred[0].session.nodeID, cap) ==>
                && r == Ok(preferred[0].session)
                && var n := r.value.nodeID;
                   AllTables() == old(AllTables())[n := Acquire(old(AllTables())[n], cap)]
    {
      hide CanAcquire, Acquire, Booked, TookOne, InRange, Free, FoundAfter;
      r := TryInOrder(preferred, cap, quiet);
      ghost var before := old(attempts);
      if r.Err? {
        assert NodesOf(preferred + fallback) == NodesOf(preferred) + NodesOf(fallback);
        r := TryInOrder(fallback, cap, quiet);
        if r.Ok? {
          FoundLater(before, attempts, preferred, fallback, r.value);
        }
      } else {
        FoundSooner(before, attempts, preferred, fallback, r.value);
      }
    }

    /** Takes a slot on the first candidate that still has one. */
    method TryInOrder(candidates: seq<Candidate>, cap: string, quiet: bool)
      returns (r: Result<ActiveSession, PickError>)
      requires Valid() && forall c | c in candidates :: Has(c.session)
      modifies sessions.Values`capabilities, sessions.Values`ledger, this`attempts
      ensures Valid()
      ensures Booked(old(AllLedgers()), AllLedgers(), cap, None, NodeOf(r))
      ensures r.Err? ==> r.error == NoCapacity && AllLedgers() == old(AllLedgers())
      ensures r.Err? ==> attempts == old(attempts) + NodesOf(candidates)
      ensures r.Ok? ==> FoundAfter(old(attempts), attempts, candidates, r.value)
      ensures r.Ok? ==> Has(r.value) && TookOne(AllTables()[r.value.nodeID], cap)
      ensures quiet && candidates != [] && Free(old(AllTables()), candidates[0].session.nodeID, cap) ==>
                && r == Ok(candidates[0].session)
                && var n := r.value.nodeID;
                   AllTables() == old(AllTables())[n := Acquire(old(AllTables())[n], cap)]
    {
      hide CanAcquire, Acquire, Booked, TookOne, InRange, SameNames, FoundAfter, AllLedgers;
      ghost var tables, books := AllTables(), AllLedgers();
      NothingBooked(books, cap, None);
      for i := 0 to |candidates|
        invariant Valid() && AllLedgers() == books && attempts == old(attempts) + NodesOf(candidates[..i])
        invariant i == 0 ==> AllTables() == tables
        invariant i > 0 ==> !(quiet && Free(tables, candidates[0].session.nodeID, cap))
      {
        Others(quiet);
        assert candidates[i] in candidates;
        OneMoreNode(candidates, i);
        var taken := Attempt(candidates[i].session, cap);
        if taken {
          FoundHere(old(attempts), attempts, candidates, i);
          return Ok(candidates[i].session);
        }
      }
      assert candidates[..|candidates|] == candidates;
      return Err(NoCapacity);
    }

    /** The check that admits a task: it changes nothing but missing limits. */
    method CheckCapabilityAvailability(nodeIDs: seq<string>, cap: string) returns (r: Result<(), PickError>)
      requires Valid()
      modifies sessions.Values`capabilities
      ensures Valid()
      ensures r.Ok? <==> !NoneHasRoom(Loads(old(AllTables()), nodeIDs, cap))
      ensures r.Err? ==> r.error == if nodeIDs == [] then NoWorker else NoCapacity
      ensures SameSlots(old(AllTables()), AllTables(), cap)
    {
      if |nodeIDs| == 0 {
        return Err(NoWorker);
      }
      hide SameSlots;
      ghost var was := AllTables();
      Unchanged(was, cap);
      ghost var loads := Loads(was, nodeIDs, cap);
      for i := 0 to |nodeIDs|
        invariant Valid()
        invariant NoneHasRoom(loads[..i])
        invariant SameSlots(was, AllTables(), cap)
      {
        assert loads[..i + 1] == loads[..i] + [loads[i]];
        ghost var now := AllTables();
        var session, slots := Snapshot(nodeIDs[i], cap);
        SameSlotsSameLoad(was, now, nodeIDs[i], cap);
        SameSlotsCompose(was, now, AllTables(), cap);
        if session.Some? && slots.inflight < slots.maxInflight {
          assert HasRoom(loads[i]);
          return Ok(());
        }
      }
      assert loads[..|nodeIDs|] == loads;
      return Err(NoCapacity);
    }
  }

  // ---------- Undisturbed picks in sequence ----------

  function Settle(load: Load): Load {
    if load.Some? then Some(Slots(Limit(load.value), load.value.inflight)) else None
  }

  /** The loads with every limit written out. */
  function Settled(loads: seq<Load>): seq<Load> {
    seq(|loads|, i requires 0 <= i < |loads| => Settle(loads[i]))
  }

  function OneMore(load: Load): Load {
    if load.Some? then Some(load.value.(inflight := load.value.inflight + 1)) else None
  }

  function OneLess(load: Load): Load {
    if load.Some? then Some(load.value.(inflight := load.value.inflight - 1)) else None
  }

  /** The node an undisturbed pick takes: the first least in rotated order. */
  ghost predicate Takes(loads: seq<Load>, start: nat, k: nat) {
    exists i | 0 <= i < |loads| :: FirstLeast(Rotated(loads, start), i) && k == Turn(|loads|, start, i)
  }

  /** What an undisturbed pick on a pool does, seen through the loads. */
  lemma PickOnLoads(before: Tables, after: Tables, nodeIDs: seq<string>, cap: string, start: nat, place: Option<nat>)
    requires forall i, j | 0 <= i < j < |nodeIDs| :: nodeIDs[i] != nodeIDs[j]
    requires Best(Rotated(Loads(before, nodeIDs, cap), start), place)
    requires OneTaken(before, after, cap,
                      if place.Some? then Some(nodeIDs[Turn(|nodeIDs|, start, place.value)]) else None)
    ensures var was, now := Settled(Loads(before, nodeIDs, cap)), Settled(Loads(after, nodeIDs, cap));
            if place.None? then NoneHasRoom(was) && now == was
            else
              var k := Turn(|nodeIDs|, start, place.value);
              Takes(was, start, k) && now == was[k := OneMore(was[k])]
  {
    var was, now := Settled(Loads(before, nodeIDs, cap)), Settled(Loads(after, nodeIDs, cap));
    SettledRotates(Loads(before, nodeIDs, cap), start);
    SettledPrefersAlike(Rotated(Loads(before, nodeIDs, cap), start), place);
    var node := if place.Some? then Some(nodeIDs[Turn(|nodeIDs|, start, place.value)]) else None;
    forall i | 0 <= i < |nodeIDs|
      ensures now[i] == if node == Some(nodeIDs[i]) then OneMore(was[i]) else was[i]
    {
      OneTakenAt(before, after, cap, node, nodeIDs[i]);
    }
    if place.None? {
      RotationKeepsLoads(was, start);
      assert now == was;
    } else {
      var k := Turn(|nodeIDs|, start, place.value);
      assert FirstLeast(Rotated(was, start), place.value);
      assert now == was[k := OneMore(was[k])];
    }
  }

  lemma SettledRotates(loads: seq<Load>, start: nat)
    ensures Rotated(Settled(loads), start) == Settled(Rotated(loads, start))
  {
  }

  lemma SettledPrefersAlike(order: seq<Load>, place: Option<nat>)
    requires Best(order, place)
    ensures Best(Settled(order), place)
  {
    assert forall j | 0 <= j < |order| :: Settled(order)[j] == Settle(order[j]);
    assert forall j | 0 <= j < |order| :: HasRoom(Settle(order[j])) ==> HasRoom(order[j]);
  }

  lemma OneTakenAt(before: Tables, after: Tables, cap: string, node: Option<string>, n: string)
    requires OneTaken(before, after, cap, node)
    ensures var was, now := Settle(LoadOf(before, n, cap)), Settle(LoadOf(after, n, cap));
            now == if node == Some(n) then OneMore(was) else was
  {
    if n in before {
      assert WithLimit(before[n], cap).Keys == before[n].Keys;
      assert WithLimit(after[n], cap).Keys == after[n].Keys;
    }
  }

  /** Picks alone, each undisturbed; `starts` are the rotation counters they drew. */
  ghost predicate Picks(states: seq<seq<Load>>, starts: seq<nat>, taken: seq<nat>) {
    && |states| == |taken| + 1 && |starts| == |taken|
    && forall i | 0 <= i < |taken| ::
         && Takes(states[i], starts[i], taken[i]) && taken[i] < |states[i]|
         && states[i + 1] == states[i][taken[i] := OneMore(states[i][taken[i]])]
  }

  predicate Idle(loads: seq<Load>) {
    forall k | 0 <= k < |loads| && loads[k].Some? :: loads[k].value.inflight == 0
  }

  /** No node is more than one ahead of a node that still has room. */
  predicate Level(loads: seq<Load>) {
    forall a, b | 0 <= a < |loads| && 0 <= b < |loads| && HasRoom(loads[a]) && loads[b].Some? ::
      loads[b].value.inflight <= loads[a].value.inflight + 1
  }

  lemma TakesLeast(loads: seq<Load>, start: nat, k: nat)
    requires Takes(loads, start, k)
    ensures k < |loads| && HasRoom(loads[k])
    ensures forall j | 0 <= j < |loads| && HasRoom(loads[j]) :: loads[k].value.inflight <= loads[j].value.inflight
  {
    var i :| 0 <= i < |loads| && FirstLeast(Rotated(loads, start), i) && k == Turn(|loads|, start, i);
    var order := Rotated(loads, start);
    forall j | 0 <= j < |loads| && HasRoom(loads[j])
      ensures loads[k].value.inflight <= loads[j].value.inflight
    {
      TurnsCover(|loads|, start, j);
      var m :| 0 <= m < |loads| && Turn(|loads|, start, m) == j;
      assert order[m] == loads[j] && order[i] == loads[k];
    }
  }

  lemma TakingStaysLevel(loads: seq<Load>, start: nat, k: nat)
    requires Level(loads) && Takes(loads, start, k) && k < |loads|
    ensures Level(loads[k := OneMore(loads[k])])
  {
    hide Takes;
    TakesLeast(loads, start, k);
  }

  /** From an idle pool with no releases, two nodes that both still have room never differ by more
      than one, and no node is more than one ahead of a node with room. */
  lemma {:induction false} PicksStayLevel(states: seq<seq<Load>>, starts: seq<nat>, taken: seq<nat>, i: nat)
    requires Picks(states, starts, taken) && Idle(states[0]) && i < |states|
    ensures Level(states[i])
  {
    if i > 0 {
      PicksStayLevel(states, starts, taken, i - 1);
      TakingStaysLevel(states[i - 1], starts[i - 1], taken[i - 1]);
    }
  }

  /** Slots in use, and slots there are, over all nodes. */
  function InUse(loads: seq<Load>): int {
    if loads == [] then 0
    else InUse(loads[..|loads| - 1]) + if loads[|loads| - 1].Some? then loads[|loads| - 1].value.inflight else 0
  }

  function Capacity(loads: seq<Load>): int {
    if loads == [] then 0
    else Capacity(loads[..|loads| - 1]) + if loads[|loads| - 1].Some? then Limit(loads[|loads| - 1].value) else 0
  }

  lemma {:induction false} OneMoreInUse(loads: seq<Load>, k: nat)
    requires k < |loads| && loads[k].Some?
    ensures InUse(loads[k := OneMore(loads[k])]) == InUse(loads) + 1
    ensures Capacity(loads[k := OneMore(loads[k])]) == Capacity(loads)
  {
    var n := |loads| - 1;
    var after := loads[k := OneMore(loads[k])];
    if k < n {
      assert after[..n] == loads[..n][k := OneMore(loads[k])];
      OneMoreInUse(loads[..n], k);
    } else {
      assert after[..n] == loads[..n];
    }
  }

  /** All full means all slots in use, and conversely while no node is over its limit. */
  lemma {:induction false} FullMeansNoRoom(loads: seq<Load>)
    requires forall k | 0 <= k < |loads| && loads[k].Some? :: loads[k].value.inflight <= Limit(loads[k].value)
    ensures InUse(loads) <= Capacity(loads)
    ensures NoneHasRoom(loads) <==> InUse(loads) == Capacity(loads)
  {
    if loads != [] {
      var n := |loads| - 1;
      FullMeansNoRoom(loads[..n]);
      assert NoneHasRoom(loads) <==> NoneHasRoom(loads[..n]) && !HasRoom(loads[n]);
    }
  }

  lemma {:induction false} NothingInUse(loads: seq<Load>)
    requires Idle(loads)
    ensures InUse(loads) == 0
  {
    if loads != [] {
      NothingInUse(loads[..|loads| - 1]);
    }
  }

  lemma {:induction false} EachPickUsesOne(states: seq<seq<Load>>, starts: seq<nat>, taken: seq<nat>, i: nat)
    requires Picks(states, starts, taken) && Idle(states[0]) && i < |states|
    ensures InUse(states[i]) == i && Capacity(states[i]) == Capacity(states[0])
    ensures forall k | 0 <= k < |states[i]| && states[i][k].Some? ::
              states[i][k].value.inflight <= Limit(states[i][k].value)
  {
    if i == 0 {
      NothingInUse(states[0]);
    } else {
      EachPickUsesOne(states, starts, taken, i - 1);
      TakesLeast(states[i - 1], starts[i - 1], taken[i - 1]);
      OneMoreInUse(states[i - 1], taken[i - 1]);
    }
  }

  /** From an idle pool with no releases, exactly the sum of the limits is handed out before the
      first pick that finds no room. */
  lemma CapacityIsHandedOut(states: seq<seq<Load>>, starts: seq<nat>, taken: seq<nat>)
    requires Picks(states, starts, taken) && Idle(states[0])
    ensures |taken| <= Capacity(states[0])
    ensures NoneHasRoom(states[|taken|]) <==> |taken| == Capacity(states[0])
  {
    EachPickUsesOne(states, starts, taken, |taken|);
    FullMeansNoRoom(states[|taken|]);
  }

  /** Picks with counters that follow each other, the slot given back before the next. */
  ghost predicate PicksAndReleases(states: seq<seq<Load>>, start: nat, taken: seq<nat>) {
    && |states| == |taken| + 1
    && forall i | 0 <= i < |taken| ::
         && Takes(states[i], start + i, taken[i]) && taken[i] < |states[i]|
         && var busy := states[i][taken[i] := OneMore(states[i][taken[i]])];
            states[i + 1] == busy[taken[i] := OneLess(busy[taken[i]])]
  }

  predicate EquallyLoaded(loads: seq<Load>) {
    forall a, b | 0 <= a < |loads| && 0 <= b < |loads| ::
      HasRoom(loads[a]) && HasRoom(loads[b]) && loads[a].value.inflight == loads[b].value.inflight
  }

  lemma EqualTakesFirst(loads: seq<Load>, start: nat, k: nat)
    requires EquallyLoaded(loads) && Takes(loads, start, k)
    ensures |loads| > 0 && k == Turn(|loads|, start, 0)
  {
    var i :| 0 <= i < |loads| && FirstLeast(Rotated(loads, start), i) && k == Turn(|loads|, start, i);
    var order := Rotated(loads, start);
    assert order[0] == loads[Turn(|loads|, start, 0)] && order[i] == loads[Turn(|loads|, start, i)];
  }

  lemma {:induction false} ReleasedPicksRotate(states: seq<seq<Load>>, start: nat, taken: seq<nat>, i: nat)
    requires PicksAndReleases(states, start, taken) && EquallyLoaded(states[0]) && i < |states|
    ensures states[i] == states[0]
    ensures i < |taken| && i < |states[0]| ==> taken[i] == Turn(|states[0]|, start, i)
  {
    if i > 0 {
      ReleasedPicksRotate(states, start, taken, i - 1);
      assert states[i] == states[i - 1];
    }
    if i < |taken| {
      EqualTakesFirst(states[i], start + i, taken[i]);
    }
  }

  /** With each slot released before the next pick, n consecutive picks over n equally loaded nodes
      visit every node exactly once. */
  lemma PicksVisitEachOnce(states: seq<seq<Load>>, start: nat, taken: seq<nat>)
    requires PicksAndReleases(states, start, taken) && EquallyLoaded(states[0]) && |taken| == |states[0]|
    ensures forall k | 0 <= k < |states[0]| :: k in taken
    ensures forall i, j | 0 <= i < j < |taken| :: taken[i] != taken[j]
  {
    var n := |states[0]|;
    forall i | 0 <= i < n
      ensures taken[i] == Turn(n, start, i)
    {
      ReleasedPicksRotate(states, start, taken, i);
    }
    hide PicksAndReleases, EquallyLoaded, Turn;
    forall k | 0 <= k < n
      ensures k in taken
    {
      TurnsCover(n, start, k);
    }
    forall i, j | 0 <= i < j < n
      ensures taken[i] != taken[j]
    {
      TurnsCover(n, start, i);
    }
  }

  // ---------- Admission and scheduling ----------

  /** The admission check and an undisturbed pick agree on success; on failure they differ exactly
      when nodes are listed and none of them has a live session for the capability. */
  lemma AdmissionAgrees(tables: Tables, nodeIDs: seq<string>, cap: string, start: nat, place: Option<nat>)
    requires Best(Rotated(Loads(tables, nodeIDs, cap), start), place)
    ensures place.Some? <==> !NoneHasRoom(Loads(tables, nodeIDs, cap))
    ensures var admission := if nodeIDs == [] then NoWorker else NoCapacity;
            var scheduler := if NoneServes(Loads(tables, nodeIDs, cap)) then NoWorker else NoCapacity;
            admission != scheduler <==> nodeIDs != [] && NoneServes(Loads(tables, nodeIDs, cap))
  {
    RotationKeepsLoads(Loads(tables, nodeIDs, cap), start);
    if place.Some? {
      assert HasRoom(Rotated(Loads(tables, nodeIDs, cap), start)[place.value]);
    }
  }
}
