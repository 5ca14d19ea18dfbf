/** Picking a session for a dispatch (service_dispatch.go): the route of a terminal session first, the
    scheduler otherwise, and the reserve-and-retry protocol between them. Each session's account of
    slots taken minus slots given back says, whoever interferes, what a call is left with. */
module SessionPicker {
  import opened Prelude
  import opened Text
  import opened SessionRuntime
  import opened Routes
  import opened Scheduler

  /** The node of the session picked, if one was. */
  function PickedNode(r: Result<(ActiveSession, bool), PickError>): Option<string> {
    if r.Ok? then Some(r.value.0.nodeID) else None
  }

  /** The same, with whether its route was newly made. */
  function PickedRoute(r: Result<(ActiveSession, bool), PickError>): Option<(string, bool)> {
    if r.Ok? then Some((r.value.0.nodeID, r.value.1)) else None
  }

  class SessionPicker {
    const pool: Pool
    const routes: RouteTable

    constructor (pool: Pool, routes: RouteTable)
      ensures this.pool == pool && this.routes == routes
    {
      this.pool := pool;
      this.routes := routes;
    }

    /** Nodes have trimmed, non-blank IDs. */
    ghost predicate Valid()
      reads this, pool`sessions, pool.sessions.Values`capabilities, routes
    {
      pool.Valid() && routes.Valid() && Named(pool.sessions.Keys)
    }

    /** Other goroutines take and give back slots, and bind, clear and prune routes. */
    method Others(quiet: bool)
      requires Valid()
      modifies pool.sessions.Values`capabilities, routes`forward, routes`index
      ensures Valid() && SameNames(old(pool.AllTables()), pool.AllTables())
      ensures quiet ==> pool.AllTables() == old(pool.AllTables()) && routes.forward == old(routes.forward)
    {
      hide ReverseIndex, NoBlankNode, Trim, SameNames, InRange;
      pool.Others(quiet);
      RouteChanges(quiet);
    }

    /** Routes bound, cleared and pruned by others. */
    method RouteChanges(quiet: bool)
      requires routes.Valid()
      modifies routes`forward, routes`index
      ensures routes.Valid()
      ensures quiet ==> routes.forward == old(routes.forward)
    {
      hide ReverseIndex, NoBlankNode, Trim, Bound, Cleared, ClearedByNode, Pruned;
      var turns: int := *;
      if quiet || turns < 0 {
        turns := 0;
      }
      for i := 0 to turns
        invariant routes.Valid()
        invariant quiet ==> routes.forward == old(routes.forward)
      {
        var sid: string, node: string, now: int := *, *, *;
        if * {
          routes.Bind(sid, node, now);
        } else if * {
          routes.Clear(sid, node);
        } else if * {
          routes.ClearByNode(node);
        } else {
          var removed := routes.PruneExpired(now);
        }
      }
    }

    method PickSessionForNodeAndCapability(nodeID: string, cap: string, quiet: bool)
      returns (r: Result<ActiveSession, PickError>)
      requires Valid()
      modifies pool.sessions.Values`capabilities, pool.sessions.Values`ledger, pool`attempts
      modifies routes`forward, routes`index
      ensures Valid()
      ensures Booked(old(pool.AllLedgers()), pool.AllLedgers(), cap, None, NodeOf(r))
      ensures r.Ok? ==>
                pool.Has(r.value) && r.value.nodeID == Trim(nodeID) && TookOne(pool.AllTables()[r.value.nodeID], cap)
      ensures r == Err(NoWorker) <==> LoadOf(old(pool.AllTables()), Trim(nodeID), cap).None?
      ensures r == Err(NoWorker) ==> pool.AllTables() == old(pool.AllTables())
      ensures quiet ==> routes.forward == old(routes.forward)
      ensures quiet ==> r.Ok? == HasRoom(LoadOf(old(pool.AllTables()), Trim(nodeID), cap))
      ensures quiet ==>
                OneTaken(old(pool.AllTables()), pool.AllTables(), cap, if r.Ok? then Some(Trim(nodeID)) else None)
    {
      hide Trim, OneTaken, HasRoom, LoadOf, Booked, InRange, TookOne, ReverseIndex, NoBlankNode, Pool.AllLedgers;
      NothingBooked(pool.AllLedgers(), cap, None);
      var node := Trim(nodeID);
      ghost var was := pool.AllTables();
      WhoServes(was, node, cap);
      NoneTaken(was, was, cap);
      if node == "" || node !in pool.sessions {
        return Err(NoWorker);
      }
      var session := pool.sessions[node];
      var serves := session.HasCapability(cap);
      if !serves {
        return Err(NoWorker);
      }
      var taken := TakeSlot(node, cap, quiet);
      if !taken {
        return Err(NoCapacity);
      }
      return Ok(session);
    }

    /** tryAcquireCapability on the session of a node: it succeeds exactly if there is room when it
        runs, and then takes one slot. */
    method TakeSlot(node: string, cap: string, quiet: bool) returns (taken: bool)
      requires Valid() && node in pool.sessions
      modifies pool.sessions.Values`capabilities, pool.sessions.Values`ledger, pool`attempts
      modifies routes`forward, routes`index
      ensures Valid()
      ensures exists caps ::
                taken == CanAcquire(caps, cap) && pool.AllTables()[node] == Acquire(caps, cap)
      ensures taken ==> TookOne(pool.AllTables()[node], cap)
      ensures Booked(old(pool.AllLedgers()), pool.AllLedgers(), cap, None, if taken then Some(node) else None)
      ensures quiet ==> routes.forward == old(routes.forward)
      ensures quiet ==> taken == HasRoom(LoadOf(old(pool.AllTables()), node, cap))
      ensures quiet ==> OneTaken(old(pool.AllTables()), pool.AllTables(), cap, if taken then Some(node) else None)
    {
      hide OneTaken, HasRoom, CanAcquire, Acquire, LoadOf, SameNames, InRange, Book, Booked, TookOne;
      hide ReverseIndex, NoBlankNode, Named;
      ghost var books := pool.AllLedgers();
      Others(quiet);
      ghost var before := pool.AllTables();
      taken := pool.TryAcquire(pool.sessions[node], cap);
      SlotOutcome(before, pool.AllTables(), books, pool.AllLedgers(), cap, node, taken);
    }

    /** The scheduler's pick, with others about. */
    method PickSessionForCapability(nodeIDs: seq<string>, cap: string, quiet: bool)
      returns (r: Result<ActiveSession, PickError>)
      requires Valid()
      modifies pool`roundRobin, pool.sessions.Values`capabilities, pool.sessions.Values`ledger, pool`attempts
      modifies routes`forward, routes`index
      ensures Valid()
      ensures Booked(old(pool.AllLedgers()), pool.AllLedgers(), cap, None, NodeOf(r))
      ensures r.Ok? ==>
                && pool.Has(r.value) && TookOne(pool.AllTables()[r.value.nodeID], cap)
                && Trim(r.value.nodeID) == r.value.nodeID != ""
      ensures r == Err(NoWorker) ==> NoneServes(Loads(old(pool.AllTables()), nodeIDs, cap))
      ensures quiet ==> r.Ok? == !NoneHasRoom(Loads(old(pool.AllTables()), nodeIDs, cap))
      ensures quiet ==> routes.forward == old(routes.forward)
      ensures quiet ==>
                OneTaken(old(pool.AllTables()), pool.AllTables(), cap, NodeOf(r))
    {
      hide OneTaken, Best, Rotated, ReverseIndex, NoBlankNode, Trim, Booked, InRange, TookOne, NoneServes, Loads, Turn;
      hide Pool.Valid, Pool.AllTables, Pool.AllLedgers, SameNames, NoneHasRoom;
      ghost var was := pool.AllTables();
      Others(quiet);
      SameNamesSameNone(was, pool.AllTables(), nodeIDs, cap);
      BestMeansRoom(Loads(pool.AllTables(), nodeIDs, cap), pool.roundRobin);
      ghost var place;
      r, place := pool.PickSessionForCapability(nodeIDs, cap, quiet);
      if r.Ok? {
        TrimTight(r.value.nodeID);
      }
    }

    /** With a slot in hand, reserve the route for its node; if another request was first, give the
        slot back and go where the route points. Whoever interferes, the slot in hand is either the one
        returned or back on the books. */
    method ReserveOrFollow(session: ActiveSession, cap: string, sid: string, now: int, quiet: bool)
      returns (r: Result<(ActiveSession, bool), PickError>, resolved: string)
      requires Valid() && sid != "" && Trim(sid) == sid && pool.Has(session)
      requires Trim(session.nodeID) == session.nodeID != "" && Serves(pool.AllTables(), session.nodeID, cap)
      modifies pool.sessions.Values`capabilities, pool.sessions.Values`ledger, pool`attempts
      modifies routes`forward, routes`index
      ensures Valid() && Trim(resolved) == resolved
      ensures r.Ok? ==> pool.Has(r.value.0)
      ensures Booked(old(pool.AllLedgers()), pool.AllLedgers(), cap, Some(session.nodeID), PickedNode(r))
      ensures quiet ==>
                && routes.forward == Reserved(old(routes.forward), sid, session.nodeID, now)
                && resolved == routes.forward[sid].nodeID
                && if resolved == session.nodeID then
                     r == Ok((session, sid !in old(routes.forward))) && pool.AllTables() == old(pool.AllTables())
                   else
                     && Followed(old(pool.AllTables()), pool.AllTables(), cap, session.nodeID, resolved, r.Ok?)
                     && (r.Err? ==> Lacks(old(pool.AllTables()), resolved, cap, r.error))
                     && (r.Ok? ==> r.value.0.nodeID == resolved && !r.value.1)
    {
      hide Followed, Reserved, ReverseIndex, NoBlankNode, Trim, Booked, InRange, Named, SameNames, Serves, Lacks;
      hide Pool.Valid, Pool.AllTables, Pool.AllLedgers;
      NothingBooked(pool.AllLedgers(), cap, Some(session.nodeID));
      ghost var was := pool.AllTables();
      Others(quiet);
      StillServes(was, pool.AllTables(), session.nodeID, cap);
      var created;
      resolved, created := routes.Reserve(sid, session.nodeID, now);
      if resolved == session.nodeID {
        return Ok((session, created)), resolved;
      }
      r := FollowTo(session, cap, resolved, quiet);
    }

    /** Give the slot in hand back and take one on another node, if it has one. */
    method FollowTo(session: ActiveSession, cap: string, node: string, quiet: bool)
      returns (r: Result<(ActiveSession, bool), PickError>)
      requires Valid() && pool.Has(session) && Serves(pool.AllTables(), session.nodeID, cap) && Trim(node) == node
      modifies pool.sessions.Values`capabilities, pool.sessions.Values`ledger, pool`attempts
      modifies routes`forward, routes`index
      ensures Valid()
      ensures r.Ok? ==> pool.Has(r.value.0) && r.value.0.nodeID == node && !r.value.1
      ensures Booked(old(pool.AllLedgers()), pool.AllLedgers(), cap, Some(session.nodeID), PickedNode(r))
      ensures quiet ==> routes.forward == old(routes.forward)
      ensures quiet ==> Followed(old(pool.AllTables()), pool.AllTables(), cap, session.nodeID, node, r.Ok?)
      ensures quiet && node != session.nodeID && r.Err? ==> Lacks(old(pool.AllTables()), node, cap, r.error)
    {
      hide OneTaken, Followed, ReverseIndex, NoBlankNode, Trim, Release, Booked, Book, InRange, LoadOf, Named, TookOne;
      hide HasRoom;
      ghost var was, books := pool.AllTables(), pool.AllLedgers();
      pool.Release(session, cap);
      ghost var repaid := pool.AllLedgers();
      SlotRepaid(books, repaid, cap, session.nodeID);
      assert pool.AllTables() == was[session.nodeID := Release(was[session.nodeID], cap)];
      var other := PickSessionForNodeAndCapability(node, cap, quiet);
      r := if other.Ok? then Ok((other.value, false)) else Err(other.error);
      BooksAddUp(books, repaid, pool.AllLedgers(), cap, Some(session.nodeID), None,
                 if r.Ok? then Some(node) else None);
      if quiet {
        FollowsFrom(was, pool.AllTables(), cap, session.nodeID, node, r.Ok?);
        if node != session.nodeID {
          LacksStill(was, session.nodeID, node, cap);
        }
      }
    }

    /** One round: pick, then reserve or follow. `stale` is a route's node that no longer serves the
        capability. */
    method PickAndReserve(nodeIDs: seq<string>, cap: string, sid: string, now: int, quiet: bool)
      returns (r: Result<(ActiveSession, bool), PickError>, stale: Option<string>)
      requires Valid() && sid != "" && Trim(sid) == sid
      modifies pool`roundRobin, pool.sessions.Values`capabilities, pool.sessions.Values`ledger, pool`attempts
      modifies routes`forward, routes`index
      ensures Valid()
      ensures r.Ok? ==> pool.Has(r.value.0)
      ensures stale.Some? ==> r == Err(NoWorker) && Trim(stale.value) == stale.value
      ensures r == Err(NoWorker) && stale.None? ==> NoneServes(Loads(old(pool.AllTables()), nodeIDs, cap))
      ensures quiet ==> Explained(old(pool.AllTables()), nodeIDs, cap, RouteNode(old(routes.forward), sid), r, stale)
      ensures Booked(old(pool.AllLedgers()), pool.AllLedgers(), cap, None, PickedNode(r))
      ensures quiet ==>
                && OneTaken(old(pool.AllTables()), pool.AllTables(), cap, PickedNode(r))
                && (r.Ok? ==> routes.forward == Bound(old(routes.forward), sid, r.value.0.nodeID, now))
                && (stale.Some? ==> sid in old(routes.forward) && stale.value == old(routes.forward)[sid].nodeID
                                    && routes.forward == Touched(old(routes.forward), sid, now))
                && (sid !in old(routes.forward) ==>
                      stale.None? && (r.Ok? ==> r.value.1) && (r.Err? ==> routes.forward == old(routes.forward)))
    {
      hide OneTaken, Followed, ReverseIndex, NoBlankNode, Trim, Release, Booked, LoadOf, Named, TookOne, Serves;
      ghost var was, books := pool.AllTables(), pool.AllLedgers();
      var session := PickSessionForCapability(nodeIDs, cap, quiet);
      if session.Err? {
        return Err(session.error), None;
      }
      ghost var mid, booked := pool.AllTables(), pool.AllLedgers();
      TookOneHereServes(mid, session.value.nodeID, cap);
      var resolved;
      r, resolved := ReserveOrFollow(session.value, cap, sid, now, quiet);
      BooksAddUp(books, booked, pool.AllLedgers(), cap, None, Some(session.value.nodeID), PickedNode(r));
      if quiet && resolved != session.value.nodeID {
        GivenUpIsSettled(was, mid, pool.AllTables(), cap, session.value.nodeID, resolved, r.Ok?);
        LackedBefore(was, mid, session.value.nodeID, resolved, cap);
      }
      stale := if r == Err(NoWorker) then Some(resolved) else None;
    }

    /** If the route's node is gone, clear the route and try once more. Whoever interferes, a success
        leaves one more slot on the books of the session returned and none elsewhere, and a failure
        none at all. */
    method TryReserveAndPickTerminalSession(listed: seq<string>, relisted: seq<string>, cap: string, sid: string,
                                            now: int, quiet: bool)
      returns (r: Result<(ActiveSession, bool), PickError>)
      requires Valid() && sid != "" && Trim(sid) == sid
      modifies pool`roundRobin, pool.sessions.Values`capabilities, pool.sessions.Values`ledger, pool`attempts
      modifies routes`forward, routes`index
      ensures Valid()
      ensures r.Ok? ==> pool.Has(r.value.0)
      ensures Booked(old(pool.AllLedgers()), pool.AllLedgers(), cap, None, PickedNode(r))
      ensures quiet ==>
                && OneTaken(old(pool.AllTables()), pool.AllTables(), cap, PickedNode(r))
                && (r.Ok? ==> routes.forward == Bound(old(routes.forward), sid, r.value.0.nodeID, now))
                && (r.Err? ==>
                      GaveUp(old(pool.AllTables()), listed, relisted, cap, RouteNode(old(routes.forward), sid),
                             r.error))
                && (sid !in old(routes.forward) ==>
                      (r.Ok? ==> r.value.1) && (r.Err? ==> routes.forward == old(routes.forward)))
    {
      hide OneTaken, ReverseIndex, NoBlankNode, Trim, Booked, InRange, Bound, Touched, Cleared, Named, SameNames;
      hide TookOne, GaveUp, Explained, Pool.Valid, Pool.AllTables, Pool.AllLedgers;
      ghost var was, before, books := pool.AllTables(), routes.forward, pool.AllLedgers();
      var stale;
      r, stale := PickAndReserve(listed, cap, sid, now, quiet);
      ghost var route := RouteNode(before, sid);
      if stale.None? {
        if quiet && r.Err? {
          GaveUpAtOnce(was, listed, relisted, cap, route, r);
        }
        return;
      }
      Others(quiet);
      routes.Clear(sid, stale.value);
      if quiet {
        TouchedThenCleared(before, sid, now);
      }
      ghost var mid, unbooked := pool.AllTables(), pool.AllLedgers();
      r, stale := PickAndReserve(relisted, cap, sid, now, quiet);
      BooksAddUp(books, unbooked, pool.AllLedgers(), cap, None, None, PickedNode(r));
      if quiet {
        TakenOnTop(was, mid, pool.AllTables(), cap, PickedNode(r));
        if r.Err? {
          GaveUpAgain(was, mid, listed, relisted, cap, route, r, stale);
        }
        if r.Ok? {
          BoundAgain(before, sid, r.value.0.nodeID, now);
        }
      }
    }

    /** Clear the route that names a node without the capability, then reserve. */
    method ClearAndRetry(listed: seq<string>, relisted: seq<string>, cap: string, sid: string, stale: string,
                         now: int, quiet: bool)
      returns (r: Result<(ActiveSession, bool), PickError>)
      requires Valid() && sid != "" && Trim(sid) == sid && Trim(stale) == stale
      modifies pool`roundRobin, pool.sessions.Values`capabilities, pool.sessions.Values`ledger, pool`attempts
      modifies routes`forward, routes`index
      ensures Valid()
      ensures r.Ok? ==> pool.Has(r.value.0)
      ensures Booked(old(pool.AllLedgers()), pool.AllLedgers(), cap, None, PickedNode(r))
      ensures quiet ==>
                OneTaken(old(pool.AllTables()), pool.AllTables(), cap, PickedNode(r))
      ensures quiet && sid !in Cleared(old(routes.forward), sid, stale) ==>
                && (r.Ok? ==> r.value.1)
                && (r.Err? ==> GaveUp(old(pool.AllTables()), listed, relisted, cap, None, r.error))
                && var cleared := Cleared(old(routes.forward), sid, stale);
                   routes.forward == if r.Ok? then Bound(cleared, sid, r.value.0.nodeID, now) else cleared
    {
      hide OneTaken, ReverseIndex, NoBlankNode, Trim, LoadOf, Bound, Touched, Cleared;
      hide Booked, InRange, Pool.Valid, Pool.AllTables, Pool.AllLedgers, Named, SameNames, HasRoom, TookOne, GaveUp;
      Others(quiet);
      routes.Clear(sid, stale);
      r := TryReserveAndPickTerminalSession(listed, relisted, cap, sid, now, quiet);
    }

    /** The part of a pick that looks at the route of the terminal session. */
    method PickRouted(listed: seq<string>, relisted: seq<string>, cap: string, sid: string, now: int, quiet: bool)
      returns (r: Result<(ActiveSession, bool), PickError>)
      requires Valid() && sid != "" && Trim(sid) == sid
      modifies pool`roundRobin, pool.sessions.Values`capabilities, pool.sessions.Values`ledger, pool`attempts
      modifies routes`forward, routes`index
      ensures Valid()
      ensures r.Ok? ==> pool.Has(r.value.0)
      ensures Booked(old(pool.AllLedgers()), pool.AllLedgers(), cap, None, PickedNode(r))
      ensures quiet ==>
                && OneTaken(old(pool.AllTables()), pool.AllTables(), cap, PickedNode(r))
                && RouteFollows(old(routes.forward), routes.forward, old(pool.AllTables()), cap, sid, now,
                                PickedRoute(r))
                && (r.Err? ==>
                      PickFailed(old(pool.AllTables()), listed, relisted, cap, RouteNode(old(routes.forward), sid),
                                 r.error))
    {
      hide OneTaken, RouteFollows, ReverseIndex, NoBlankNode, Trim, LoadOf, Bound, Touched, Cleared;
      hide Booked, InRange, Pool.Valid, Pool.AllTables, Pool.AllLedgers, Named, SameNames, HasRoom, TookOne, GaveUp;
      ghost var before, tables, books := routes.forward, pool.AllTables(), pool.AllLedgers();
      Others(quiet);
      var node := routes.Touch(sid, now);
      if node.None? {
        AbsentIsUntouched(before, sid, now);
        r := TryReserveAndPickTerminalSession(listed, relisted, cap, sid, now, quiet);
        if quiet {
          StaleIsReplaced(before, routes.forward, tables, cap, sid, now, PickedRoute(r));
        }
        return;
      }
      var session := PickSessionForNodeAndCapability(node.value, cap, quiet);
      if session == Err(NoWorker) {
        ghost var unbooked := pool.AllLedgers();
        r := ClearAndRetry(listed, relisted, cap, sid, node.value, now, quiet);
        BooksAddUp(books, unbooked, pool.AllLedgers(), cap, None, None, PickedNode(r));
        if quiet {
          TouchedThenCleared(before, sid, now);
          StaleIsReplaced(before, routes.forward, tables, cap, sid, now, PickedRoute(r));
        }
        return;
      }
      if quiet {
        StickyIsFollowed(before, routes.forward, tables, cap, sid, now);
      }
      return if session.Ok? then Ok((session.value, false)) else Err(session.error);
    }

    /** The route of the terminal session decides if there is one and its node serves the capability;
        otherwise the scheduler does, and the route follows it. */
    method PickSessionForDispatch(listed: seq<string>, relisted: seq<string>, cap: string,
                                  terminalSessionID: string, now: int, quiet: bool)
      returns (r: Result<(ActiveSession, bool), PickError>)
      requires Valid()
      modifies pool`roundRobin, pool.sessions.Values`capabilities, pool.sessions.Values`ledger, pool`attempts
      modifies routes`forward, routes`index, routes`lastPruneUnixMs
      ensures Valid()
      ensures r.Ok? ==> pool.Has(r.value.0)
      ensures Booked(old(pool.AllLedgers()), pool.AllLedgers(), cap, None, PickedNode(r))
      ensures quiet ==>
                OneTaken(old(pool.AllTables()), pool.AllTables(), cap, PickedNode(r))
      ensures quiet && Trim(terminalSessionID) == "" ==> routes.forward == old(routes.forward) && (r.Ok? ==> !r.value.1)
      ensures quiet && Trim(terminalSessionID) != "" ==>
                RouteFollows(MaybePruned(old(routes.forward), old(routes.lastPruneUnixMs), routes.ttlMs, now).0,
                             routes.forward, old(pool.AllTables()), cap, Trim(terminalSessionID), now,
                             PickedRoute(r))
      ensures quiet && r.Err? ==>
                var sid := Trim(terminalSessionID);
                var known := MaybePruned(old(routes.forward), old(routes.lastPruneUnixMs), routes.ttlMs, now).0;
                PickFailed(old(pool.AllTables()), listed, if sid == "" then listed else relisted, cap,
                           if sid == "" then None else RouteNode(known, sid), r.error)
    {
      hide OneTaken, RouteFollows, ReverseIndex, NoBlankNode, Trim, LoadOf, MaybePruned, Booked, InRange, TookOne;
      hide Named, Pool.Valid, Pool.AllTables, Pool.AllLedgers;
      var sid := Trim(terminalSessionID);
      if sid == "" {
        var session := PickSessionForCapability(listed, cap, quiet);
        return if session.Ok? then Ok((session.value, false)) else Err(session.error);
      }
      TrimAgain(terminalSessionID);
      routes.MaybePrune(now);
      r := PickRouted(listed, relisted, cap, sid, now, quiet);
    }
  }

  function RouteNode(fwd: Forward, sid: string): Option<string> {
    if sid in fwd then Some(fwd[sid].nodeID) else None
  }

  /** Why a slot cannot be had on one node: it does not serve the capability, or has no room. */
  ghost predicate Lacks(tables: Tables, node: string, cap: string, error: PickError) {
    var load := LoadOf(tables, node, cap);
    if error == NoWorker then load.None? else load.Some? && !HasRoom(load)
  }

  lemma LacksStill(tables: Tables, given: string, node: string, cap: string)
    requires given in tables && given != node
    ensures LoadOf(tables[given := Release(tables[given], cap)], node, cap) == LoadOf(tables, node, cap)
  {
  }

  /** A slot taken elsewhere does not change what a node lacks. */
  lemma LackedBefore(before: Tables, after: Tables, picked: string, node: string, cap: string)
    requires OneTaken(before, after, cap, Some(picked)) && node != picked
    ensures forall error :: Lacks(before, node, cap, error) <==> Lacks(after, node, cap, error)
  {
    if node in before {
      assert SameButLimit(before[node], after[node], cap);
      assert WithLimit(before[node], cap).Keys == before[node].Keys;
      assert WithLimit(after[node], cap).Keys == after[node].Keys;
    }
  }

  /** Why an undisturbed round has failed: no listed node serves the capability or none has room, or the
      route names a node that has none, or that does not serve it, and then it is reported as stale. */
  ghost predicate Explained(tables: Tables, nodeIDs: seq<string>, cap: string, route: Option<string>,
                            r: Result<(ActiveSession, bool), PickError>, stale: Option<string>) {
    var full := route.Some? && LoadOf(tables, route.value, cap).Some? && !HasRoom(LoadOf(tables, route.value, cap));
    && (r == Err(NoWorker) ==>
          || NoneServes(Loads(tables, nodeIDs, cap))
          || (stale.Some? && stale == route && LoadOf(tables, route.value, cap).None?))
    && (r == Err(NoCapacity) ==> NoneHasRoom(Loads(tables, nodeIDs, cap)) || full)
  }

  /** The same for the whole protocol, which gives up only on its second list. */
  ghost predicate GaveUp(tables: Tables, listed: seq<string>, relisted: seq<string>, cap: string, route: Option<string>,
                         error: PickError) {
    var full := route.Some? && LoadOf(tables, route.value, cap).Some? && !HasRoom(LoadOf(tables, route.value, cap));
    if error == NoWorker then NoneServes(Loads(tables, listed, cap)) || NoneServes(Loads(tables, relisted, cap))
    else NoneHasRoom(Loads(tables, listed, cap)) || NoneHasRoom(Loads(tables, relisted, cap)) || full
  }

  /** Why an undisturbed pick for a terminal session has failed: the node of its route has no room, or
      that node does not serve the capability and neither does, or has room, any listed one. */
  ghost predicate PickFailed(tables: Tables, listed: seq<string>, relisted: seq<string>, cap: string,
                             route: Option<string>, error: PickError) {
    if route.Some? && LoadOf(tables, route.value, cap).Some? then
      error == NoCapacity && !HasRoom(LoadOf(tables, route.value, cap))
    else GaveUp(tables, listed, relisted, cap, None, error)
  }

  lemma GaveUpAtOnce(tables: Tables, listed: seq<string>, relisted: seq<string>, cap: string, route: Option<string>,
                     r: Result<(ActiveSession, bool), PickError>)
    requires r.Err? && Explained(tables, listed, cap, route, r, None)
    ensures GaveUp(tables, listed, relisted, cap, route, r.error)
  {
  }

  lemma GaveUpAgain(was: Tables, mid: Tables, listed: seq<string>, relisted: seq<string>, cap: string,
                    route: Option<string>, r: Result<(ActiveSession, bool), PickError>, stale: Option<string>)
    requires OneTaken(was, mid, cap, None) && r.Err? && stale.None? && Explained(mid, relisted, cap, None, r, stale)
    ensures GaveUp(was, listed, relisted, cap, route, r.error)
  {
    SameRoom(was, mid, relisted, cap);
    hide OneTaken, NoneServes, NoneHasRoom, Loads;
  }

  /** Limits written out do not matter to who serves and who has room. */
  lemma SameRoom(before: Tables, after: Tables, nodeIDs: seq<string>, cap: string)
    requires OneTaken(before, after, cap, None)
    ensures NoneServes(Loads(before, nodeIDs, cap)) <==> NoneServes(Loads(after, nodeIDs, cap))
    ensures NoneHasRoom(Loads(before, nodeIDs, cap)) <==> NoneHasRoom(Loads(after, nodeIDs, cap))
  {
    assert SameSlots(before, after, cap);
    hide LoadOf, OneTaken, SameSlots;
    forall i | 0 <= i < |nodeIDs|
      ensures var x, y := Loads(before, nodeIDs, cap)[i], Loads(after, nodeIDs, cap)[i];
              (x.None? <==> y.None?) && (HasRoom(x) <==> HasRoom(y))
    {
      SameSlotsSameLoad(before, after, nodeIDs[i], cap);
    }
  }

  lemma SameNamesSameNone(before: Tables, after: Tables, nodeIDs: seq<string>, cap: string)
    requires SameNames(before, after)
    ensures NoneServes(Loads(before, nodeIDs, cap)) <==> NoneServes(Loads(after, nodeIDs, cap))
  {
    hide LoadOf, SameNames;
    forall i | 0 <= i < |nodeIDs|
      ensures Loads(before, nodeIDs, cap)[i].None? <==> Loads(after, nodeIDs, cap)[i].None?
    {
      SameNamesSameServers(before, after, nodeIDs[i], cap);
    }
  }

  lemma BestMeansRoom(loads: seq<Load>, start: nat)
    ensures forall place :: Best(Rotated(loads, start), place) ==> (place.Some? <==> !NoneHasRoom(loads))
  {
    RotationKeepsLoads(loads, start);
    hide Rotated;
  }

  /** What giving up a slot for the node that a route names does to the counters. */
  ghost predicate Followed(before: Tables, after: Tables, cap: string, given: string, node: string, taken: bool) {
    && given in before
    && OneTaken(before[given := Release(before[given], cap)], after, cap, if taken then Some(node) else None)
  }

  /** Where the route of `sid` stands after an undisturbed pick, given the node picked and whether the
      route is reported as newly made: a route whose node serves the capability is followed and
      refreshed; any other is replaced by the pick, or cleared if there is none. */
  ghost predicate RouteFollows(before: Forward, after: Forward, tables: Tables, cap: string, sid: string, now: int,
                               picked: Option<(string, bool)>) {
    var sticky := sid in before && LoadOf(tables, before[sid].nodeID, cap).Some?;
    if picked.Some? then
      && after == Bound(before, sid, picked.value.0, now) && picked.value.1 == !sticky
      && (sticky ==> picked.value.0 == before[sid].nodeID)
    else after == if sticky then Touched(before, sid, now) else before - {sid}
  }

  lemma AbsentIsUntouched(before: Forward, sid: string, now: int)
    ensures sid !in before ==> Touched(before, sid, now) == before == before - {sid}
  {
  }

  lemma BoundAgain(before: Forward, sid: string, node: string, now: int)
    ensures Bound(before - {sid}, sid, node, now) == Bound(before, sid, node, now)
  {
  }

  lemma FollowsFrom(before: Tables, after: Tables, cap: string, given: string, node: string, taken: bool)
    requires given in before
    requires OneTaken(before[given := Release(before[given], cap)], after, cap, if taken then Some(node) else None)
    ensures Followed(before, after, cap, given, node, taken)
  {
  }

  /** A slot taken on one node and given up for another leaves at most the other one taken. */
  lemma GivenUpIsSettled(before: Tables, mid: Tables, after: Tables, cap: string, given: string, node: string,
                         taken: bool)
    requires OneTaken(before, mid, cap, Some(given)) && given in before && InRange(before[given])
    requires Followed(mid, after, cap, given, node, taken)
    ensures OneTaken(before, after, cap, if taken then Some(node) else None)
  {
    var back := mid[given := Release(mid[given], cap)];
    hide OneTaken, Release;
    TakenAndGivenBack(before, mid, back, cap, given);
    TakenOnTop(before, back, after, cap, if taken then Some(node) else None);
  }

  lemma StillServes(before: Tables, after: Tables, node: string, cap: string)
    requires SameNames(before, after) && Serves(before, node, cap)
    ensures Serves(after, node, cap)
  {
  }

  lemma TouchedThenCleared(before: Forward, sid: string, now: int)
    requires sid in before
    ensures Cleared(Touched(before, sid, now), sid, before[sid].nodeID) == before - {sid}
  {
  }

  lemma StickyIsFollowed(before: Forward, after: Forward, tables: Tables, cap: string, sid: string, now: int)
    requires sid in before && LoadOf(tables, before[sid].nodeID, cap).Some? && after == Touched(before, sid, now)
    ensures RouteFollows(before, after, tables, cap, sid, now, Some((before[sid].nodeID, false)))
    ensures RouteFollows(before, after, tables, cap, sid, now, None)
  {
  }

  lemma StaleIsReplaced(before: Forward, after: Forward, tables: Tables, cap: string, sid: string, now: int,
                        picked: Option<(string, bool)>)
    requires sid in before ==> LoadOf(tables, before[sid].nodeID, cap).None?
    requires after == if picked.Some? then Bound(before - {sid}, sid, picked.value.0, now) else before - {sid}
    requires picked.Some? ==> picked.value.1
    ensures RouteFollows(before, after, tables, cap, sid, now, picked)
  {
    hide LoadOf;
    assert (before - {sid})[sid := Route(if picked.Some? then picked.value.0 else "", now)]
        == before[sid := Route(if picked.Some? then picked.value.0 else "", now)];
  }

  ghost predicate Named(nodes: set<string>) {
    forall n | n in nodes :: n != "" && Tight(n)
  }

  predicate Serves(tables: Tables, node: string, cap: string) {
    cap != "" && node in tables && cap in tables[node]
  }

  lemma TookOneHereServes(tables: Tables, node: string, cap: string)
    requires node in tables && TookOne(tables[node], cap)
    ensures Serves(tables, node, cap)
  {
    TookOneServes(tables[node], cap);
  }

  lemma WhoServes(tables: Tables, node: string, cap: string)
    ensures LoadOf(tables, node, cap).Some? <==> cap != "" && node in tables && cap in tables[node]
    ensures HasRoom(LoadOf(tables, node, cap)) ==> LoadOf(tables, node, cap).Some?
    ensures SameSlots(tables, tables, cap)
  {
  }

  lemma TrimAgain(s: string)
    ensures Trim(Trim(s)) == Trim(s)
  {
    TrimTight(s);
    TrimTight(Trim(s));
  }

  /** What one attempt to take a slot comes to. */
  lemma SlotOutcome(before: Tables, after: Tables, books: Ledgers, booksAfter: Ledgers, cap: string, node: string,
                    taken: bool)
    requires node in before && after == before[node := Acquire(before[node], cap)]
    requires taken == CanAcquire(before[node], cap)
    requires node in books && booksAfter == if taken then books[node := Book(books[node], cap, 1)] else books
    ensures taken == HasRoom(LoadOf(before, node, cap)) && (taken ==> TookOne(after[node], cap))
    ensures OneTaken(before, after, cap, if taken then Some(node) else None)
    ensures Booked(books, booksAfter, cap, None, if taken then Some(node) else None)
  {
    hide Booked, OneTaken, Book;
    AcquireTakesOne(before, after, cap, node);
    NothingBooked(books, cap, None);
    if taken {
      AcquiredServes(before[node], cap);
      SlotBooked(books, booksAfter, cap, node);
    }
  }

  lemma AcquireTakesOne(before: Tables, after: Tables, cap: string, node: string)
    requires node in before && after == before[node := Acquire(before[node], cap)]
    ensures OneTaken(before, after, cap, if CanAcquire(before[node], cap) then Some(node) else None)
  {
  }
}
