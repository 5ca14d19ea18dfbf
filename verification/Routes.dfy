/** The terminal-session routing table (terminal_session_routes.go): a forward map from session
    to node, a reverse index from node to sessions, and throttled expiry. */
module Routes {
  import opened Prelude
  import opened Text
  import opened Throttle

  datatype Route = Route(nodeID: string, lastUsedUnixMs: int)

  type Forward = map<string, Route>
  type Index = map<string, set<string>>

  // ---------- Effects on the forward map, for trimmed non-blank IDs ----------

  function Bound(fwd: Forward, sid: string, node: string, now: int): Forward {
    fwd[sid := Route(node, now)]
  }

  /** The table after a reservation; the route found or made is the one then stored. */
  function Reserved(fwd: Forward, sid: string, preferred: string, now: int): Forward {
    fwd[sid := Route(if sid in fwd then fwd[sid].nodeID else preferred, now)]
  }

  function Touched(fwd: Forward, sid: string, now: int): Forward {
    if sid in fwd then fwd[sid := Route(fwd[sid].nodeID, now)] else fwd
  }

  /** A blank expectation matches any node. */
  function Cleared(fwd: Forward, sid: string, expected: string): Forward {
    if sid in fwd && (expected == "" || fwd[sid].nodeID == expected) then fwd - {sid} else fwd
  }

  function ClearedByNode(fwd: Forward, node: string): Forward {
    map s | s in fwd && fwd[s].nodeID != node :: fwd[s]
  }

  function Pruned(fwd: Forward, expireBefore: int): Forward {
    map s | s in fwd && fwd[s].lastUsedUnixMs > expireBefore :: fwd[s]
  }

  /** The route of `sid` is this one afterwards, and every other is as it was. */
  ghost predicate SetsOne(before: Forward, after: Forward, sid: string, node: string, now: int) {
    && sid in after && after[sid] == Route(node, now)
    && OthersKept(before, after, sid)
  }

  ghost predicate OthersKept(before: Forward, after: Forward, sid: string) {
    forall s | s != sid :: (s in after <==> s in before) && (s in before ==> after[s] == before[s])
  }

  /** Exactly the routes that are not dropped are left, as they were. */
  ghost predicate Drops(before: Forward, after: Forward, dropped: set<string>) {
    && (forall s :: s in after <==> s in before && s !in dropped)
    && (forall s | s in after :: after[s] == before[s])
  }

  ghost function UsedUpTo(fwd: Forward, time: int): set<string> {
    set s | s in fwd && fwd[s].lastUsedUnixMs <= time
  }

  // ---------- Agreement of the two maps ----------

  ghost predicate Agree(fwd: Forward, index: Index) {
    && (forall s :: s in fwd ==> fwd[s].nodeID in index && s in index[fwd[s].nodeID])
    && (forall n, s :: n in index && s in index[n] ==> s in fwd && fwd[s].nodeID == n)
    && (forall n :: n in index ==> index[n] != {})
  }

  ghost function NodesOf(fwd: Forward): set<string> {
    set s | s in fwd :: fwd[s].nodeID
  }

  ghost function SessionsOn(fwd: Forward, node: string): set<string> {
    set s | s in fwd && fwd[s].nodeID == node
  }

  ghost function ReverseIndex(fwd: Forward): Index {
    map n | n in NodesOf(fwd) :: SessionsOn(fwd, n)
  }

  /** Agreement leaves no freedom: the index is the inverse image of the forward map. */
  lemma AgreementIsExact(fwd: Forward, index: Index)
    ensures Agree(fwd, index) <==> index == ReverseIndex(fwd)
  {
    var reverse := ReverseIndex(fwd);
    if Agree(fwd, index) {
      forall n | n in index
        ensures n in reverse && index[n] == reverse[n]
      {
        var s :| s in index[n];
        assert fwd[s].nodeID == n;
      }
      assert index.Keys == reverse.Keys;
    }
    assert Agree(fwd, reverse) by {
      forall n | n in reverse
        ensures reverse[n] != {}
      {
        var s :| s in fwd && fwd[s].nodeID == n;
        assert s in reverse[n];
      }
    }
  }

  function AddTo(index: Index, node: string, sid: string): Index {
    index[node := (if node in index then index[node] else {}) + {sid}]
  }

  function DropFrom(index: Index, node: string, sid: string): Index {
    if node !in index then index
    else if index[node] - {sid} == {} then index - {node}
    else index[node := index[node] - {sid}]
  }

  lemma NodesAreOccupied(fwd: Forward, n: string)
    ensures n in NodesOf(fwd) <==> SessionsOn(fwd, n) != {}
  {
    if n in NodesOf(fwd) {
      var s :| s in fwd && fwd[s].nodeID == n;
      assert s in SessionsOn(fwd, n);
    }
  }

  /** An index is the reverse index once it agrees on which sessions each node has. */
  lemma IndexFromSessions(fwd: Forward, index: Index)
    requires forall n :: n in index <==> SessionsOn(fwd, n) != {}
    requires forall n :: n in index ==> index[n] == SessionsOn(fwd, n)
    ensures index == ReverseIndex(fwd)
  {
    forall n
      ensures n in index <==> n in ReverseIndex(fwd)
    {
      NodesAreOccupied(fwd, n);
    }
    assert index.Keys == ReverseIndex(fwd).Keys;
  }

  lemma ReverseIndexSessions(fwd: Forward)
    ensures forall n :: n in ReverseIndex(fwd) <==> SessionsOn(fwd, n) != {}
    ensures forall n :: n in ReverseIndex(fwd) ==> ReverseIndex(fwd)[n] == SessionsOn(fwd, n)
  {
    forall n
      ensures n in ReverseIndex(fwd) <==> SessionsOn(fwd, n) != {}
    {
      NodesAreOccupied(fwd, n);
    }
  }

  lemma SessionsAfterAdd(fwd: Forward, sid: string, node: string, now: int, n: string)
    requires sid in fwd ==> fwd[sid].nodeID == node
    ensures SessionsOn(fwd[sid := Route(node, now)], n) == SessionsOn(fwd, n) + if n == node then {sid} else {}
  {
  }

  lemma AddKeepsAgreement(fwd: Forward, sid: string, node: string, now: int)
    requires sid in fwd ==> fwd[sid].nodeID == node
    ensures AddTo(ReverseIndex(fwd), node, sid) == ReverseIndex(fwd[sid := Route(node, now)])
  {
    var after := fwd[sid := Route(node, now)];
    ReverseIndexSessions(fwd);
    forall n
      ensures SessionsOn(after, n) == SessionsOn(fwd, n) + if n == node then {sid} else {}
    {
      SessionsAfterAdd(fwd, sid, node, now, n);
    }
    IndexFromSessions(after, AddTo(ReverseIndex(fwd), node, sid));
  }

  lemma SessionsAfterDrop(fwd: Forward, sid: string, n: string)
    requires sid in fwd
    ensures SessionsOn(fwd - {sid}, n) == SessionsOn(fwd, n) - if n == fwd[sid].nodeID then {sid} else {}
  {
  }

  lemma DropKeepsAgreement(fwd: Forward, sid: string)
    requires sid in fwd
    ensures DropFrom(ReverseIndex(fwd), fwd[sid].nodeID, sid) == ReverseIndex(fwd - {sid})
  {
    ReverseIndexSessions(fwd);
    forall n
      ensures SessionsOn(fwd - {sid}, n) == SessionsOn(fwd, n) - if n == fwd[sid].nodeID then {sid} else {}
    {
      SessionsAfterDrop(fwd, sid, n);
    }
    IndexFromSessions(fwd - {sid}, DropFrom(ReverseIndex(fwd), fwd[sid].nodeID, sid));
  }

  /** Refreshing a timestamp does not concern the index. */
  lemma RestampKeepsAgreement(fwd: Forward, sid: string, now: int)
    requires sid in fwd
    ensures ReverseIndex(fwd[sid := Route(fwd[sid].nodeID, now)]) == ReverseIndex(fwd)
  {
    ReverseIndexSessions(fwd);
    forall n
      ensures SessionsOn(fwd[sid := Route(fwd[sid].nodeID, now)], n) == SessionsOn(fwd, n)
    {
      SessionsAfterAdd(fwd, sid, fwd[sid].nodeID, now, n);
    }
    IndexFromSessions(fwd[sid := Route(fwd[sid].nodeID, now)], ReverseIndex(fwd));
  }

  lemma ClearByNodeKeepsAgreement(fwd: Forward, node: string)
    ensures ReverseIndex(fwd) - {node} == ReverseIndex(ClearedByNode(fwd, node))
    ensures node !in ReverseIndex(fwd) ==> ClearedByNode(fwd, node) == fwd
  {
    var after := ClearedByNode(fwd, node);
    ReverseIndexSessions(fwd);
    forall n
      ensures SessionsOn(after, n) == if n == node then {} else SessionsOn(fwd, n)
    {
      assert SessionsOn(after, n) == if n == node then {} else SessionsOn(fwd, n);
    }
    IndexFromSessions(after, ReverseIndex(fwd) - {node});
    if node !in ReverseIndex(fwd) {
      assert forall s :: s in fwd ==> s !in SessionsOn(fwd, node);
    }
  }

  // ---------- The code ----------

  class RouteTable {
    var forward: Forward
    var index: Index
    const ttlMs: int
    var lastPruneUnixMs: int

    constructor (ttlMs: int)
      ensures Valid() && forward == map[] && lastPruneUnixMs == 0 && this.ttlMs == ttlMs
    {
      forward, index := map[], map[];
      this.ttlMs := ttlMs;
      lastPruneUnixMs := 0;
    }

    ghost predicate Valid()
      reads this
    {
      index == ReverseIndex(forward) && NoBlankNode(forward)
    }

    method DropFromIndex(node: string, sid: string)
      modifies this`index
      ensures index == DropFrom(old(index), node, sid)
    {
      if node in index {
        var bucket := index[node] - {sid};
        if bucket == {} {
          index := index - {node};
        } else {
          index := index[node := bucket];
        }
      }
    }

    method AddToIndex(node: string, sid: string)
      modifies this`index
      ensures index == AddTo(old(index), node, sid)
    {
      if node !in index {
        index := index[node := {}];
      }
      index := index[node := index[node] + {sid}];
    }

    method Bind(sessionID: string, nodeID: string, now: int)
      requires Valid()
      modifies this`forward, this`index
      ensures Valid()
      ensures forward == if Trim(sessionID) == "" || Trim(nodeID) == "" then old(forward)
                         else Bound(old(forward), Trim(sessionID), Trim(nodeID), now)
      ensures Trim(sessionID) != "" && Trim(nodeID) != "" ==>
                SetsOne(old(forward), forward, Trim(sessionID), Trim(nodeID), now)
    {
      hide ReverseIndex, Trim;
      var sid, node := Trim(sessionID), Trim(nodeID);
      if sid == "" || node == "" {
        return;
      }
      TrimTight(nodeID);
      if sid in forward && forward[sid].nodeID != node {
        DropKeepsAgreement(forward, sid);
        DropFromIndex(forward[sid].nodeID, sid);
        AddKeepsAgreement(forward - {sid}, sid, node, now);
        assert (forward - {sid})[sid := Route(node, now)] == forward[sid := Route(node, now)];
      } else {
        AddKeepsAgreement(forward, sid, node, now);
      }
      forward := forward[sid := Route(node, now)];
      AddToIndex(node, sid);
    }

    method Reserve(sessionID: string, preferredNodeID: string, now: int) returns (node: string, created: bool)
      requires Valid()
      modifies this`forward, this`index
      ensures Valid()
      ensures var sid, preferred := Trim(sessionID), Trim(preferredNodeID);
              if sid == "" || preferred == "" then
                node == "" && !created && forward == old(forward)
              else
                && forward == Reserved(old(forward), sid, preferred, now)
                && node == forward[sid].nodeID
                && created == (sid !in old(forward))
                && node == (if sid in old(forward) then old(forward)[sid].nodeID else preferred)
                && SetsOne(old(forward), forward, sid, node, now)
      ensures Trim(node) == node
    {
      hide ReverseIndex, Trim;
      var sid, preferred := Trim(sessionID), Trim(preferredNodeID);
      TrimTight("");
      if sid == "" || preferred == "" {
        return "", false;
      }
      if sid in forward {
        TrimTight(forward[sid].nodeID);
        RestampKeepsAgreement(forward, sid, now);
        forward := forward[sid := forward[sid].(lastUsedUnixMs := now)];
        return forward[sid].nodeID, false;
      }
      TrimTight(preferredNodeID);
      TrimTight(preferred);
      AddKeepsAgreement(forward, sid, preferred, now);
      forward := forward[sid := Route(preferred, now)];
      AddToIndex(preferred, sid);
      return preferred, true;
    }

    method Touch(sessionID: string, now: int) returns (node: Option<string>)
      requires Valid()
      modifies this`forward
      ensures Valid()
      ensures var sid := Trim(sessionID);
              if sid == "" then node == None && forward == old(forward)
              else
                && forward == Touched(old(forward), sid, now)
                && node == (if sid in old(forward) then Some(old(forward)[sid].nodeID) else None)
                && if node.Some? then SetsOne(old(forward), forward, sid, node.value, now) else forward == old(forward)
      ensures node.Some? ==> Trim(node.value) == node.value != ""
    {
      hide ReverseIndex, Trim;
      var sid := Trim(sessionID);
      if sid == "" {
        return None;
      }
      if sid !in forward {
        return None;
      }
      TrimTight(forward[sid].nodeID);
      if Trim(forward[sid].nodeID) == "" {
        return None;
      }
      RestampKeepsAgreement(forward, sid, now);
      forward := forward[sid := forward[sid].(lastUsedUnixMs := now)];
      return Some(forward[sid].nodeID);
    }

    method Clear(sessionID: string, expectedNodeID: string)
      requires Valid()
      modifies this`forward, this`index
      ensures Valid()
      ensures forward == if Trim(sessionID) == "" then old(forward)
                         else Cleared(old(forward), Trim(sessionID), Trim(expectedNodeID))
      ensures var sid, expected := Trim(sessionID), Trim(expectedNodeID);
              var clears :=
                sid != "" && sid in old(forward) && (expected == "" || old(forward)[sid].nodeID == expected);
              Drops(old(forward), forward, if clears then {sid} else {})
    {
      hide ReverseIndex, Trim;
      var sid := Trim(sessionID);
      if sid == "" {
        return;
      }
      var expected := Trim(expectedNodeID);
      if sid !in forward {
        return;
      }
      var route := forward[sid];
      if expected != "" && route.nodeID != expected {
        return;
      }
      DropKeepsAgreement(forward, sid);
      forward := forward - {sid};
      DropFromIndex(route.nodeID, sid);
    }

    /** Walks one index bucket; the result is the forward map filtered by node. */
    method ClearByNode(nodeID: string)
      requires Valid()
      modifies this`forward, this`index
      ensures Valid()
      ensures forward == if Trim(nodeID) == "" then old(forward) else ClearedByNode(old(forward), Trim(nodeID))
      ensures Trim(nodeID) != "" ==>
                Drops(old(forward), forward, set s | s in old(forward) && old(forward)[s].nodeID == Trim(nodeID))
    {
      hide ReverseIndex, Trim;
      var node := Trim(nodeID);
      ClearByNodeKeepsAgreement(forward, node);
      ReverseIndexSessions(forward);
      if node == "" || node !in index {
        return;
      }
      var bucket := index[node];
      var todo := bucket;
      while todo != {}
        invariant todo <= bucket && index == old(index)
        invariant forall s :: s in forward <==> s in old(forward) && (s in bucket ==> s in todo)
        invariant forall s :: s in forward ==> forward[s] == old(forward)[s]
        decreases todo
      {
        var sid :| sid in todo;
        if sid in forward && forward[sid].nodeID == node {
          forward := forward - {sid};
        }
        todo := todo - {sid};
      }
      index := index - {node};
      assert forward == ClearedByNode(old(forward), node);
    }

    /** Deletes exactly the expired routes while iterating, and counts them. */
    method PruneExpired(now: int) returns (removed: nat)
      requires Valid()
      modifies this`forward, this`index
      ensures Valid()
      ensures forward == if ttlMs <= 0 then old(forward) else Pruned(old(forward), now - ttlMs)
      ensures ttlMs > 0 ==>
                && Drops(old(forward), forward, UsedUpTo(old(forward), now - ttlMs))
                && removed == |UsedUpTo(old(forward), now - ttlMs)|
      ensures ttlMs <= 0 ==> removed == 0
    {
      hide ReverseIndex, NoBlankNode, DropFrom;
      if ttlMs <= 0 {
        return 0;
      }
      var expireBefore := now - ttlMs;
      removed := 0;
      var todo := forward.Keys;
      while todo != {}
        invariant Valid()
        invariant todo <= forward.Keys <= old(forward).Keys
        invariant forall s :: s in forward ==> forward[s] == old(forward)[s]
        invariant forall s :: s in old(forward) && s !in todo ==>
                    (s in forward <==> old(forward)[s].lastUsedUnixMs > expireBefore)
        invariant removed == |old(forward)| - |forward|
        decreases todo
      {
        var sid :| sid in todo;
        todo := todo - {sid};
        var route := forward[sid];
        if route.lastUsedUnixMs <= expireBefore {
          DropKeepsAgreement(forward, sid);
          RemoveOne(forward, sid);
          NoBlankLeft(forward, sid);
          forward := forward - {sid};
          DropFromIndex(route.nodeID, sid);
          removed := removed + 1;
        }
      }
      assert forward == Pruned(old(forward), expireBefore);
      PruneDrops(old(forward), expireBefore);
    }

    method MaybePrune(now: int)
      requires Valid()
      modifies this`forward, this`index, this`lastPruneUnixMs
      ensures Valid()
      ensures (forward, lastPruneUnixMs)
           == MaybePruned(old(forward), old(lastPruneUnixMs), ttlMs, now)
      ensures if 0 < old(lastPruneUnixMs) && now - old(lastPruneUnixMs) < 60_000 then
                forward == old(forward) && lastPruneUnixMs == old(lastPruneUnixMs)
              else
                && lastPruneUnixMs == now
                && Drops(old(forward), forward, if ttlMs > 0 then UsedUpTo(old(forward), now - ttlMs) else {})
    {
      var last := lastPruneUnixMs;
      if last > 0 && now - last < TERMINAL_ROUTE_PRUNE_MIN_INTERVAL_MS {
        return;
      }
      lastPruneUnixMs := now;
      var removed := PruneExpired(now);
    }
  }

  ghost predicate NoBlankNode(fwd: Forward) {
    forall s :: s in fwd ==> fwd[s].nodeID != "" && Tight(fwd[s].nodeID)
  }

  lemma NoBlankLeft(fwd: Forward, sid: string)
    requires NoBlankNode(fwd)
    ensures NoBlankNode(fwd - {sid})
  {
  }

  lemma PruneDrops(fwd: Forward, time: int)
    ensures Drops(fwd, Pruned(fwd, time), UsedUpTo(fwd, time))
    ensures |UsedUpTo(fwd, time)| == |fwd| - |Pruned(fwd, time)|
  {
    assert fwd.Keys == UsedUpTo(fwd, time) + Pruned(fwd, time).Keys;
    assert UsedUpTo(fwd, time) !! Pruned(fwd, time).Keys;
  }

  lemma RemoveOne(fwd: Forward, sid: string)
    requires sid in fwd
    ensures |fwd - {sid}| == |fwd| - 1
  {
    assert (fwd - {sid}).Keys == fwd.Keys - {sid};
  }

  function MaybePruned(fwd: Forward, last: int, ttlMs: int, now: int): (Forward, int) {
    if Throttled(TERMINAL_ROUTE_PRUNE_MIN_INTERVAL_MS, last, now) then (fwd, last)
    else (if ttlMs <= 0 then fwd else Pruned(fwd, now - ttlMs), now)
  }

  // ---------- How stale a route can get in sequential use ----------

  datatype Op =
    | BindOp(sid: string, node: string)
    | ReserveOp(sid: string, preferred: string)
    | TouchOp(sid: string)
    | ClearOp(sid: string, expected: string)
    | ClearByNodeOp(node: string)
    | MaybePruneOp

  function ApplyOp(fwd: Forward, last: int, ttlMs: int, op: Op, now: int): (Forward, int) {
    match op
    case BindOp(s, n) => (Bound(fwd, s, n, now), last)
    case ReserveOp(s, n) => (Reserved(fwd, s, n, now), last)
    case TouchOp(s) => (Touched(fwd, s, now), last)
    case ClearOp(s, n) => (Cleared(fwd, s, n), last)
    case ClearByNodeOp(n) => (ClearedByNode(fwd, n), last)
    case MaybePruneOp => MaybePruned(fwd, last, ttlMs, now)
  }

  function ApplyOps(ttlMs: int, ops: seq<(Op, int)>): (Forward, int) {
    if ops == [] then (map[], 0)
    else
      var n := |ops| - 1;
      var before := ApplyOps(ttlMs, ops[..n]);
      ApplyOp(before.0, before.1, ttlMs, ops[n].0, ops[n].1)
  }

  /** The clock is positive and does not run backwards. */
  predicate Clocked(ops: seq<(Op, int)>) {
    forall i :: 0 <= i < |ops| ==> ops[i].1 > 0 && forall j :: i <= j < |ops| ==> ops[i].1 <= ops[j].1
  }

  lemma {:induction false} NoneOlderThanLastPrune(ttlMs: int, ops: seq<(Op, int)>)
    requires Clocked(ops) && ttlMs > 0
    ensures var (fwd, last) := ApplyOps(ttlMs, ops);
            && last >= 0
            && (last > 0 ==> ops != [] && last <= ops[|ops| - 1].1)
            && (last > 0 ==> forall s :: s in fwd ==> fwd[s].lastUsedUnixMs > last - ttlMs)
  {
    if ops != [] {
      var n := |ops| - 1;
      NoneOlderThanLastPrune(ttlMs, ops[..n]);
      if n > 0 {
        assert ops[..n][n - 1].1 == ops[n - 1].1 <= ops[n].1;
      }
    }
  }

  /** After every throttled call, run or skipped, at time `now`, no remaining route was last used
      at or before now - TTL - one minute. */
  lemma StalenessBound(ttlMs: int, ops: seq<(Op, int)>)
    requires Clocked(ops) && ttlMs > 0
    requires ops != [] && ops[|ops| - 1].0 == MaybePruneOp
    ensures var fwd := ApplyOps(ttlMs, ops).0;
            var now := ops[|ops| - 1].1;
            forall s :: s in fwd ==>
              fwd[s].lastUsedUnixMs > now - ttlMs - 60_000
  {
    NoneOlderThanLastPrune(ttlMs, ops[..|ops| - 1]);
  }

  /** The call takes the route of `sid` out of the table, whatever its age. */
  predicate Clears(fwd: Forward, op: Op, sid: string) {
    match op
    case ClearOp(s, expected) => s == sid && (expected == "" || (sid in fwd && fwd[sid].nodeID == expected))
    case ClearByNodeOp(node) => sid in fwd && fwd[sid].nodeID == node
    case _ => false
  }

  lemma OneCallKeeps(fwd: Forward, last: int, ttlMs: int, op: Op, now: int, sid: string, used: int)
    requires ttlMs > 0 && sid in fwd && used <= fwd[sid].lastUsedUnixMs
    requires used <= now < used + ttlMs && !Clears(fwd, op, sid)
    ensures var after := ApplyOp(fwd, last, ttlMs, op, now).0;
            sid in after && used <= after[sid].lastUsedUnixMs
  {
  }

  lemma LastCall(ttlMs: int, ops: seq<(Op, int)>)
    requires ops != []
    ensures var n := |ops| - 1;
            var before := ApplyOps(ttlMs, ops[..n]);
            ApplyOps(ttlMs, ops) == ApplyOp(before.0, before.1, ttlMs, ops[n].0, ops[n].1)
  {
  }

  lemma OneCallStamps(fwd: Forward, last: int, ttlMs: int, op: Op, now: int, time: int)
    requires time <= now && forall s | s in fwd :: fwd[s].lastUsedUnixMs <= time
    ensures forall s | s in ApplyOp(fwd, last, ttlMs, op, now).0 ::
              ApplyOp(fwd, last, ttlMs, op, now).0[s].lastUsedUnixMs <= now
  {
  }

  /** No route was used later than now. */
  lemma {:induction false} NoneUsedLater(ttlMs: int, ops: seq<(Op, int)>)
    requires Clocked(ops) && ops != []
    ensures forall s | s in ApplyOps(ttlMs, ops).0 :: ApplyOps(ttlMs, ops).0[s].lastUsedUnixMs <= ops[|ops| - 1].1
  {
    var n := |ops| - 1;
    LastCall(ttlMs, ops);
    var (fwd, last) := ApplyOps(ttlMs, ops[..n]);
    if n > 0 {
      assert ops[..n][n - 1] == ops[n - 1];
      NoneUsedLater(ttlMs, ops[..n]);
      hide ApplyOps, ApplyOp;
      OneCallStamps(fwd, last, ttlMs, ops[n].0, ops[n].1, ops[n - 1].1);
    } else {
      OneCallStamps(fwd, last, ttlMs, ops[n].0, ops[n].1, ops[n].1);
    }
  }

  /** The other half: in any sequential use, a route that was used less than the TTL ago and has not been
      cleared since is still in the table. */
  lemma {:induction false} FreshRoutesStay(ttlMs: int, ops: seq<(Op, int)>, i: nat, sid: string)
    requires Clocked(ops) && ttlMs > 0 && 0 < i <= |ops| && sid in ApplyOps(ttlMs, ops[..i]).0
    requires ops[|ops| - 1].1 < ApplyOps(ttlMs, ops[..i]).0[sid].lastUsedUnixMs + ttlMs
    requires forall k | i <= k < |ops| :: !Clears(ApplyOps(ttlMs, ops[..k]).0, ops[k].0, sid)
    ensures sid in ApplyOps(ttlMs, ops).0
    ensures ApplyOps(ttlMs, ops).0[sid].lastUsedUnixMs >= ApplyOps(ttlMs, ops[..i]).0[sid].lastUsedUnixMs
    decreases |ops|
  {
    hide ApplyOps, ApplyOp, Clears;
    var n := |ops| - 1;
    if i == |ops| {
      assert ops[..i] == ops;
    } else {
      var before := ops[..n];
      assert before[..i] == ops[..i] && before[n - 1] == ops[n - 1];
      forall k | i <= k < n
        ensures !Clears(ApplyOps(ttlMs, before[..k]).0, before[k].0, sid)
      {
        assert before[..k] == ops[..k];
      }
      FreshRoutesStay(ttlMs, before, i, sid);
      NoneUsedLater(ttlMs, ops[..i]);
      LastCall(ttlMs, ops);
      var (fwd, last) := ApplyOps(ttlMs, before);
      OneCallKeeps(fwd, last, ttlMs, ops[n].0, ops[n].1, sid, ApplyOps(ttlMs, ops[..i]).0[sid].lastUsedUnixMs);
    }
  }
}
