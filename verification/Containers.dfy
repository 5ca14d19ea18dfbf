/** Terminal sessions on a worker and the containers behind them (terminal_exec.go,
    terminal_resource.go): one lock over a table of sessions, each owning one container. The
    functions are the effects of the lock sections; the classes are the code that performs them. */
module Containers {
  import opened Prelude
  import opened Text

  /** A session of the table. Its container name also identifies the session object: every object
      is made with a fresh name and keeps it. Times are in nanoseconds. */
  datatype Entry = Entry(container: string, lease: int, busy: bool)

  type Table = map<string, Entry>

  const SECOND := 1_000_000_000
  const MILLISECOND := 1_000_000

  // ---------- Lease configuration ----------

  datatype LeaseConfig = LeaseConfig(minSec: int, maxSec: int, defaultSec: int)

  function Clamped(cfg: LeaseConfig): LeaseConfig {
    var lo := if cfg.minSec <= 0 then 60 else cfg.minSec;
    var hi := Max(if cfg.maxSec <= 0 then 1800 else cfg.maxSec, lo);
    var d := if cfg.defaultSec <= 0 then 60 else cfg.defaultSec;
    LeaseConfig(lo, hi, if Max(d, lo) > hi then hi else Max(d, lo))
  }

  function Max(a: int, b: int): int {
    if a < b then b else a
  }

  predicate Resolvable(cfg: LeaseConfig, ttlSec: int) {
    cfg.minSec <= ttlSec <= cfg.maxSec
  }

  function Given(sec: int, otherwise: int): int {
    if sec > 0 then sec else otherwise
  }

  /** Whatever the configuration, leases have a positive range that contains the default: the minimum is
      as given or a minute, the maximum as given or half an hour but no less than the minimum, and the
      default the nearest in that range to what is given or a minute. A proper configuration is taken as
      it is. */
  lemma ClampedIsProper(cfg: LeaseConfig)
    ensures var c := Clamped(cfg);
            && 0 < c.minSec <= c.maxSec && c.minSec <= c.defaultSec <= c.maxSec
            && c.minSec == Given(cfg.minSec, 60)
            && c.maxSec >= Given(cfg.maxSec, 1800) && (c.maxSec > Given(cfg.maxSec, 1800) ==> c.maxSec == c.minSec)
            && forall sec | c.minSec <= sec <= c.maxSec ::
                 Distance(c.defaultSec, Given(cfg.defaultSec, 60)) <= Distance(sec, Given(cfg.defaultSec, 60))
    ensures 0 < cfg.minSec <= cfg.defaultSec <= cfg.maxSec ==> Clamped(cfg) == cfg
  {
  }

  function Distance(a: int, b: int): int {
    if a < b then b - a else a - b
  }

  // ---------- Effects of the lock sections ----------

  datatype Refusal = SessionNotFound | SessionBusy | InvalidPayload | NotAllocated

  /** Execute's section: reuse an idle session, or make a new one where that is asked for. */
  function ExecClaim(table: Table, sid: string, create: bool): Result<bool, Refusal> {
    if sid !in table then if create then Ok(true) else Err(SessionNotFound)
    else if table[sid].busy then Err(SessionBusy)
    else Ok(false)
  }

  function ExecClaimed(table: Table, sid: string, create: bool, container: string, target: int): Table {
    if sid !in table then if create then table[sid := Entry(container, target, true)] else table
    else if table[sid].busy then table
    else table[sid := Entry(table[sid].container, Max(table[sid].lease, target), true)]
  }

  /** ResolveResource's section: the same busy flag, no new session, no lease. */
  function ResourceClaim(table: Table, sid: string): Result<bool, Refusal> {
    ExecClaim(table, sid, false)
  }

  function ResourceClaimed(table: Table, sid: string): Table {
    if sid !in table || table[sid].busy then table else table[sid := table[sid].(busy := true)]
  }

  function Idled(table: Table, sid: string): Table {
    if sid in table then table[sid := table[sid].(busy := false)] else table
  }

  predicate Expired(e: Entry, now: int) {
    !e.busy && e.lease <= now
  }

  function Swept(table: Table, now: int): Table {
    map s | s in table && !Expired(table[s], now) :: table[s]
  }

  function SweptContainers(table: Table, now: int): set<string> {
    set s | s in table && Expired(table[s], now) :: table[s].container
  }

  /** What a sweep has collected once it has looked at these sessions. */
  ghost function SweptSoFar(table: Table, seen: set<string>, now: int): set<string> {
    set s | s in table && s in seen && Expired(table[s], now) :: table[s].container
  }

  lemma SeenOneMore(table: Table, seen: set<string>, now: int, s: string)
    requires s in table
    ensures SweptSoFar(table, seen + {s}, now)
         == SweptSoFar(table, seen, now) + if Expired(table[s], now) then {table[s].container} else {}
  {
  }

  lemma SeenAll(table: Table, seen: set<string>, now: int)
    requires table.Keys <= seen
    ensures SweptSoFar(table, seen, now) == SweptContainers(table, now)
  {
  }

  lemma SeenNone(table: Table, now: int)
    ensures SweptSoFar(table, {}, now) == {}
  {
  }

  // ---------- The code ----------

  class TerminalSession {
    const sessionID: string
    const containerName: string
    var leaseExpiresAt: int
    var busy: bool

    constructor (sessionID: string, containerName: string, leaseExpiresAt: int)
      ensures this.sessionID == sessionID && this.containerName == containerName
      ensures this.leaseExpiresAt == leaseExpiresAt && busy
    {
      this.sessionID := sessionID;
      this.containerName := containerName;
      this.leaseExpiresAt := leaseExpiresAt;
      this.busy := true;
    }
  }

  class TerminalSessionManager {
    var sessions: map<string, TerminalSession>
    const lease: LeaseConfig

    constructor (cfg: LeaseConfig)
      ensures Valid() && sessions == map[] && lease == Clamped(cfg)
    {
      var lo := if cfg.minSec <= 0 then 60 else cfg.minSec;
      var hi := if cfg.maxSec <= 0 then 1800 else cfg.maxSec;
      if hi < lo {
        hi := lo;
      }
      var d := if cfg.defaultSec <= 0 then 60 else cfg.defaultSec;
      if d < lo {
        d := lo;
      }
      if d > hi {
        d := hi;
      }
      lease := LeaseConfig(lo, hi, d);
      sessions := map[];
    }

    /** One object per session ID. */
    ghost predicate Valid()
      reads this`sessions
    {
      forall s, t | s in sessions && t in sessions && s != t :: sessions[s] != sessions[t]
    }

    ghost function View(): Table
      reads this`sessions, sessions.Values
    {
      map s | s in sessions :: Entry(sessions[s].containerName, sessions[s].leaseExpiresAt, sessions[s].busy)
    }

    method ResolveLeaseDuration(leaseTTLSec: Option<int>) returns (r: Result<int, Refusal>)
      ensures var sec := if leaseTTLSec.Some? then leaseTTLSec.value else lease.defaultSec;
              r == if lease.minSec <= sec <= lease.maxSec then Ok(sec * 1_000_000_000) else Err(InvalidPayload)
    {
      var sec := lease.defaultSec;
      if leaseTTLSec.Some? {
        sec := leaseTTLSec.value;
      }
      if sec < lease.minSec || sec > lease.maxSec {
        return Err(InvalidPayload);
      }
      return Ok(sec * SECOND);
    }

    /** The locked part of Execute for a given session ID; `newName` is what the random container
        name generator would yield. */
    method ClaimForExec(sid: string, create: bool, newName: Option<string>, target: int)
      returns (r: Result<(TerminalSession, bool), Refusal>)
      requires Valid()
      modifies this`sessions, sessions.Values
      ensures Valid()
      ensures var claim := ExecClaim(old(View()), sid, create);
              if claim == Ok(true) && newName.None? then
                r == Err(NotAllocated) && View() == old(View())
              else
                && View() == ExecClaimed(old(View()), sid, create,
                                         if newName.Some? then newName.value else "", target)
                && (claim.Err? ==> r == Err(claim.error))
                && (claim.Ok? ==> sid in sessions && r == Ok((sessions[sid], claim.value)))
    {
      if sid !in sessions {
        if !create {
          return Err(SessionNotFound);
        }
        if newName.None? {
          return Err(NotAllocated);
        }
        var session := new TerminalSession(sid, newName.value, target);
        sessions := sessions[sid := session];
        return Ok((session, true));
      }
      var existing := sessions[sid];
      if existing.busy {
        return Err(SessionBusy);
      }
      existing.busy := true;
      if existing.leaseExpiresAt < target {
        existing.leaseExpiresAt := target;
      }
      return Ok((existing, false));
    }

    method ClaimForResource(sid: string) returns (r: Result<TerminalSession, Refusal>)
      requires Valid()
      modifies sessions.Values
      ensures View() == ResourceClaimed(old(View()), sid)
      ensures var claim := ResourceClaim(old(View()), sid);
              r == if claim.Err? then Err(claim.error) else Ok(sessions[sid])
    {
      if sid !in sessions {
        return Err(SessionNotFound);
      }
      if sessions[sid].busy {
        return Err(SessionBusy);
      }
      sessions[sid].busy := true;
      return Ok(sessions[sid]);
    }

    method MarkSessionIdle(sessionID: string) returns (leaseExpiresAt: Option<int>)
      requires Valid()
      modifies sessions.Values
      ensures var sid := Trim(sessionID);
              if sid == "" || sid !in old(View()) then leaseExpiresAt == None && View() == old(View())
              else leaseExpiresAt == Some(old(View())[sid].lease) && View() == Idled(old(View()), sid)
    {
      var sid := Trim(sessionID);
      if sid == "" || sid !in sessions {
        return None;
      }
      sessions[sid].busy := false;
      return Some(sessions[sid].leaseExpiresAt);
    }

    method DropSession(sessionID: string)
      requires Valid()
      modifies this`sessions
      ensures Valid()
      ensures View() == if Trim(sessionID) == "" then old(View()) else old(View()) - {Trim(sessionID)}
    {
      var sid := Trim(sessionID);
      if sid == "" {
        return;
      }
      sessions := sessions - {sid};
    }

    /** The locked part of destroySession; the caller then force-removes the container, if any. */
    method DestroySession(sessionID: string) returns (container: Option<string>)
      requires Valid()
      modifies this`sessions
      ensures Valid()
      ensures var sid := Trim(sessionID);
              if sid == "" || sid !in old(View()) then container == None && View() == old(View())
              else container == Some(old(View())[sid].container) && View() == old(View()) - {sid}
    {
      var sid := Trim(sessionID);
      if sid == "" || sid !in sessions {
        return None;
      }
      container := Some(sessions[sid].containerName);
      sessions := sessions - {sid};
    }

    /** The locked part of cleanupExpiredSessions: deletes while iterating. */
    method CleanupExpiredSessions(now: int) returns (expired: set<string>)
      requires Valid()
      modifies this`sessions
      ensures Valid()
      ensures View() == Swept(old(View()), now)
      ensures expired == SweptContainers(old(View()), now)
    {
      ghost var was := View();
      var all := sessions;
      var todo := sessions.Keys;
      hide SweptSoFar, SweptContainers;
      expired := {};
      ghost var seen := {};
      SeenNone(was, now);
      while todo != {}
        invariant Valid() && todo <= sessions.Keys <= all.Keys && seen == all.Keys - todo
        invariant forall s | s in sessions :: sessions[s] == all[s]
        invariant forall s | s in all && s !in todo ::
                    (s in sessions <==> !Expired(was[s], now))
        invariant expired == SweptSoFar(was, seen, now)
        decreases todo
      {
        var s :| s in todo;
        todo := todo - {s};
        SeenOneMore(was, seen, now, s);
        seen := seen + {s};
        var session := sessions[s];
        if session.busy || session.leaseExpiresAt > now {
          continue;
        }
        expired := expired + {session.containerName};
        sessions := sessions - {s};
      }
      SeenAll(was, seen, now);
    }
  }
}
