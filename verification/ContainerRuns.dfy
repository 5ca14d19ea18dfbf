/** Runs of a worker's terminal sessions before Close: any number of execute and resource calls and
    the janitor interleave, with each lock section and each docker command as one step. Docker may
    succeed, fail, time out or report that the container is gone. */
module ContainerRuns {
  import opened Prelude
  import opened Containers

  datatype Kind =
    | Exec(create: bool, start: int, ttlSec: int) // create_if_missing, and the clock at the call
    | ExecNew(start: int, ttlSec: int)            // no session ID given: a fresh one is made up
    | Resource

  datatype Reply =
    | Refused(refusal: Refusal)
    | Failed     // docker error, or the caller's own context error
    | Gone       // no such container: reported as session not found
    | Vanished   // completed, but the session was not in the table any more
    | Completed(leaseExpiresUnixMs: int)

  /** Where one call is after entry. */
  datatype Phase =
    | Claiming
    | Creating
    | Starting
    | Withdrawing            // start failed: remove the container just created
    | Dropping
    | Running
    | Idling(ok: bool)
    | Destroying(gone: bool)
    | Removing(container: string, gone: bool)
    | Done(reply: Reply)

  datatype Call = Call(kind: Kind, sid: string, container: string, phase: Phase)

  /** `names`, `created`, `issued` and `starts` are history: container names handed out, containers
      made, removals issued, and the start times of the execute calls that claimed a container. */
  datatype State = State(cfg: LeaseConfig, table: Table, calls: map<nat, Call>, janitor: set<string>,
                         names: set<string>, created: set<string>, issued: set<string>,
                         starts: map<string, set<int>>)

  datatype DockerStep =
    | Create(ok: bool)
    | Start(ok: bool)
    | Withdraw
    | Run(outcome: RunOutcome)
    | Remove

  datatype RunOutcome = Finished | Errored | TimedOut | NoSuchContainer

  datatype LockStep =
    | Claim(name: Option<string>)
    | Drop
    | MarkIdle
    | Destroy

  datatype Action =
    | Begin(id: nat, kind: Kind, sid: string)
    | Lock(id: nat, lock: LockStep)
    | Docker(id: nat, docker: DockerStep)
    | Sweep(now: int)
    | JanitorRemoves(container: string)

  function Init(cfg: LeaseConfig): State {
    State(Clamped(cfg), map[], map[], {}, {}, {}, {}, map[])
  }

  function UnixMs(t: int): int {
    t / MILLISECOND
  }

  function Target(kind: Kind): int
    requires !kind.Resource?
  {
    kind.start + kind.ttlSec * SECOND
  }

  function Goto(st: State, id: nat, phase: Phase): State
    requires id in st.calls
  {
    st.(calls := st.calls[id := st.calls[id].(phase := phase)])
  }

  /** The call takes its session: the entry written is its own from here on. */
  function Take(st: State, id: nat, e: Entry, phase: Phase): State
    requires id in st.calls
  {
    var c := st.calls[id];
    st.(table := st.table[c.sid := e], calls := st.calls[id := c.(container := e.container, phase := phase)])
  }

  function NoteStart(st: State, container: string, start: int): State {
    st.(names := st.names + {container},
        starts := st.starts[container := (if container in st.starts then st.starts[container] else {}) + {start}])
  }

  function Creates(kind: Kind): bool {
    kind.ExecNew? || (kind.Exec? && kind.create)
  }

  /** What the claim of a call answers: whether it makes a session, or why it is refused. */
  function ClaimAnswer(table: Table, c: Call, name: Option<string>): Result<bool, Refusal> {
    var claim := if c.kind.Resource? then ResourceClaim(table, c.sid) else ExecClaim(table, c.sid, Creates(c.kind));
    if claim == Ok(true) && name.None? then Err(NotAllocated) else claim
  }

  function ClaimTable(table: Table, c: Call, name: Option<string>): Table {
    if c.kind.Resource? then ResourceClaimed(table, c.sid)
    else ExecClaimed(table, c.sid, Creates(c.kind), if name.Some? then name.value else "", Target(c.kind))
  }

  /** The entry as the claim leaves it. */
  function ClaimEntry(table: Table, c: Call, name: Option<string>): Entry
    requires ClaimAnswer(table, c, name).Ok?
  {
    ClaimTable(table, c, name)[c.sid]
  }

  function Claimed(st: State, id: nat, name: Option<string>): State
    requires id in st.calls
  {
    var c := st.calls[id];
    var answer := ClaimAnswer(st.table, c, name);
    if answer.Err? then Goto(st, id, Done(Refused(answer.error)))
    else
      var e := ClaimEntry(st.table, c, name);
      var taken := Take(st, id, e, if answer.value then Creating else Running);
      if c.kind.Resource? then taken else NoteStart(taken, e.container, c.kind.start)
  }

  /** What a claim writes is one entry, of a session that was idle or absent. */
  lemma ClaimWritesOneEntry(table: Table, c: Call, name: Option<string>)
    requires ClaimAnswer(table, c, name).Ok?
    ensures var e := ClaimEntry(table, c, name);
            && ClaimTable(table, c, name) == table[c.sid := e]
            && e.busy
            && (c.sid in table ==> !table[c.sid].busy && e.container == table[c.sid].container)
            && (c.sid !in table ==> name == Some(e.container))
            && (ClaimAnswer(table, c, name).value <==> c.sid !in table)
            && (c.kind.Resource? ==> c.sid in table && e.lease == table[c.sid].lease)
            && (!c.kind.Resource? ==>
                  e.lease == if c.sid in table then Max(table[c.sid].lease, Target(c.kind)) else Target(c.kind))
  {
  }

  predicate CanLock(st: State, id: nat, l: LockStep)
    requires id in st.calls
  {
    var c := st.calls[id];
    match l
    case Claim(name) =>
      && c.phase.Claiming?
      && (name.Some? ==> name.value !in st.names)
      && (c.kind.ExecNew? ==> c.sid !in st.table)
    case Drop => c.phase.Dropping?
    case MarkIdle => c.phase.Idling?
    case Destroy => c.phase.Destroying?
  }

  function Locked(st: State, id: nat, l: LockStep): State
    requires id in st.calls && CanLock(st, id, l)
  {
    var c := st.calls[id];
    match l
    case Claim(name) => Claimed(st, id, name)
    case Drop => Goto(st.(table := st.table - {c.sid}), id, Done(Failed))
    case MarkIdle =>
      Goto(st.(table := Idled(st.table, c.sid)), id,
           Done(if !c.phase.ok then Failed
                else if c.sid !in st.table then Vanished
                else Completed(UnixMs(st.table[c.sid].lease))))
    case Destroy =>
      Goto(st.(table := st.table - {c.sid}), id,
           if c.sid in st.table then Removing(st.table[c.sid].container, c.phase.gone) else Done(Lost(c.phase.gone)))
  }

  predicate CanDocker(st: State, id: nat, d: DockerStep)
    requires id in st.calls
  {
    var phase := st.calls[id].phase;
    match d
    case Create(ok) => phase.Creating?
    case Start(ok) => phase.Starting?
    case Withdraw => phase.Withdrawing?
    case Run(outcome) => phase.Running?
    case Remove => phase.Removing?
  }

  function Dockered(st: State, id: nat, d: DockerStep): State
    requires id in st.calls && CanDocker(st, id, d)
  {
    var c := st.calls[id];
    match d
    case Create(ok) =>
      if ok then Goto(st.(created := st.created + {c.container}), id, Starting) else Goto(st, id, Dropping)
    case Start(ok) => Goto(st, id, if ok then Running else Withdrawing)
    case Withdraw => Goto(st.(issued := st.issued + {c.container}), id, Dropping)
    case Run(outcome) => Goto(st, id, AfterRun(outcome))
    case Remove => Goto(st.(issued := st.issued + {c.phase.container}), id, Done(Lost(c.phase.gone)))
  }

  function Lost(gone: bool): Reply {
    if gone then Gone else Failed
  }

  function AfterRun(outcome: RunOutcome): Phase {
    match outcome
    case Finished => Idling(true)
    case Errored => Idling(false)
    case TimedOut => Destroying(false)
    case NoSuchContainer => Destroying(true)
  }

  predicate Enabled(st: State, a: Action) {
    match a
    case Begin(id, kind, sid) =>
      id !in st.calls && sid != "" && (!kind.Resource? ==> Resolvable(st.cfg, kind.ttlSec))
    case Lock(id, l) => id in st.calls && CanLock(st, id, l)
    case Docker(id, d) => id in st.calls && CanDocker(st, id, d)
    case Sweep(now) => st.janitor == {} // one janitor, which finishes a sweep before the next
    case JanitorRemoves(c) => c in st.janitor
  }

  function SweptState(st: State, now: int): State {
    st.(table := Swept(st.table, now), janitor := SweptContainers(st.table, now))
  }

  function Apply(st: State, a: Action): State
    requires Enabled(st, a)
  {
    match a
    case Begin(id, kind, sid) => st.(calls := st.calls[id := Call(kind, sid, "", Claiming)])
    case Lock(id, l) => Locked(st, id, l)
    case Docker(id, d) => Dockered(st, id, d)
    case Sweep(now) => SweptState(st, now)
    case JanitorRemoves(c) => st.(janitor := st.janitor - {c}, issued := st.issued + {c})
  }

  ghost predicate IsRun(cfg: LeaseConfig, trace: seq<State>, actions: seq<Action>) {
    && |trace| == |actions| + 1
    && trace[0] == Init(cfg)
    && forall i :: 0 <= i < |actions| ==> Enabled(trace[i], actions[i]) && trace[i + 1] == Apply(trace[i], actions[i])
  }

  // ---------- The invariant ----------

  /** The call is between claiming its session and letting go of it. */
  predicate InFlight(c: Call) {
    match c.phase
    case Creating => true
    case Starting => true
    case Withdrawing => true
    case Dropping => true
    case Running => true
    case Idling(_) => true
    case Destroying(_) => true
    case _ => false
  }

  /** The session in the table is the very one the call claimed, still marked busy. */
  predicate Holds(table: Table, c: Call) {
    c.sid in table && table[c.sid].container == c.container && table[c.sid].busy
  }

  ghost predicate HoldersOk(st: State) {
    && (forall i | i in st.calls && InFlight(st.calls[i]) :: Holds(st.table, st.calls[i]))
    && (forall i, j | i in st.calls && j in st.calls && InFlight(st.calls[i]) && InFlight(st.calls[j]) && i != j ::
          st.calls[i].sid != st.calls[j].sid)
  }

  predicate Owned(table: Table, container: string) {
    exists s | s in table :: table[s].container == container
  }

  /** Container names are handed out once, and no two sessions share one. */
  ghost predicate NamesOk(st: State) {
    && (forall s | s in st.table :: st.table[s].container in st.names)
    && (forall s, t | s in st.table && t in st.table && s != t :: st.table[s].container != st.table[t].container)
    && st.created <= st.names
  }

  /** Removals waiting with the janitor or a destroying call. */
  predicate RemovedByCall(c: Call, container: string) {
    c.phase.Removing? && c.phase.container == container
  }

  predicate Scheduled(st: State, container: string) {
    container in st.janitor || exists i | i in st.calls :: RemovedByCall(st.calls[i], container)
  }

  ghost predicate RemovalsOk(st: State) {
    && (forall c | c in st.janitor :: c in st.names && !Owned(st.table, c))
    && (forall i | i in st.calls && st.calls[i].phase.Removing? ::
          st.calls[i].phase.container in st.names && !Owned(st.table, st.calls[i].phase.container))
  }

  predicate Accounted(st: State, container: string) {
    Owned(st.table, container) || container in st.issued || Scheduled(st, container)
  }

  ghost predicate CreatedOk(st: State) {
    && (forall c | c in st.created :: Accounted(st, c))
    && (forall i | i in st.calls && st.calls[i].phase.Creating? :: st.calls[i].container !in st.created)
    && (forall i | i in st.calls && st.calls[i].phase.Dropping? ::
          st.calls[i].container in st.created ==> st.calls[i].container in st.issued)
  }

  /** Some execute call on the container started late enough for this lease. */
  ghost predicate Justified(st: State, container: string, lease: int) {
    container in st.starts && exists t | t in st.starts[container] :: lease <= t + st.cfg.maxSec * SECOND
  }

  ghost predicate LeaseOk(st: State, c: Call) {
    c.kind.Resource? ||
    match c.phase
    case Claiming => Resolvable(st.cfg, c.kind.ttlSec)
    case Done(Completed(ms)) =>
      && ms >= UnixMs(Target(c.kind))
      && c.container in st.starts
      && exists t | t in st.starts[c.container] :: ms <= UnixMs(t + st.cfg.maxSec * SECOND)
    case _ => InFlight(c) ==> c.sid in st.table && st.table[c.sid].lease >= Target(c.kind)
  }

  ghost predicate LeasesOk(st: State) {
    && (forall s | s in st.table :: Justified(st, st.table[s].container, st.table[s].lease))
    && (forall i | i in st.calls :: LeaseOk(st, st.calls[i]))
  }

  ghost predicate NoneVanished(st: State) {
    forall i | i in st.calls :: st.calls[i].phase != Done(Vanished)
  }

  ghost predicate Inv(st: State) {
    && HoldersOk(st) && NamesOk(st) && RemovalsOk(st) && CreatedOk(st) && LeasesOk(st) && NoneVanished(st)
  }

  lemma ClaimHolders(st: State, id: nat, name: Option<string>)
    requires HoldersOk(st) && id in st.calls && CanLock(st, id, Claim(name))
    ensures HoldersOk(Claimed(st, id, name))
  {
    hide ClaimTable, ClaimAnswer, ClaimEntry;
    if ClaimAnswer(st.table, st.calls[id], name).Ok? {
      ClaimWritesOneEntry(st.table, st.calls[id], name);
    }
  }

  lemma LockHolders(st: State, id: nat, l: LockStep)
    requires HoldersOk(st) && id in st.calls && CanLock(st, id, l) && !l.Claim?
    ensures HoldersOk(Locked(st, id, l))
  {
    match l { case Drop => case MarkIdle => case Destroy => }
  }

  lemma DockerHolders(st: State, id: nat, d: DockerStep)
    requires HoldersOk(st) && id in st.calls && CanDocker(st, id, d)
    ensures HoldersOk(Dockered(st, id, d))
  {
    match d { case Create(ok) => case Start(ok) => case Withdraw => case Run(o) => case Remove => }
  }

  lemma SweepHolders(st: State, now: int)
    requires HoldersOk(st) && st.janitor == {}
    ensures HoldersOk(SweptState(st, now))
  {
  }

  lemma JanitorHolders(st: State, c: string)
    requires HoldersOk(st) && c in st.janitor
    ensures HoldersOk(Apply(st, JanitorRemoves(c)))
  {
  }

  lemma ClaimNames(st: State, id: nat, name: Option<string>)
    requires HoldersOk(st) && NamesOk(st) && id in st.calls && CanLock(st, id, Claim(name))
    ensures NamesOk(Claimed(st, id, name))
  {
    hide ClaimTable, ClaimAnswer, ClaimEntry;
    if ClaimAnswer(st.table, st.calls[id], name).Ok? {
      ClaimWritesOneEntry(st.table, st.calls[id], name);
    }
  }

  lemma LockNames(st: State, id: nat, l: LockStep)
    requires HoldersOk(st) && NamesOk(st) && id in st.calls && CanLock(st, id, l) && !l.Claim?
    ensures NamesOk(Locked(st, id, l))
  {
    match l { case Drop => case MarkIdle => case Destroy => }
  }

  lemma DockerNames(st: State, id: nat, d: DockerStep)
    requires HoldersOk(st) && NamesOk(st) && id in st.calls && CanDocker(st, id, d)
    ensures NamesOk(Dockered(st, id, d))
  {
    match d { case Create(ok) => case Start(ok) => case Withdraw => case Run(o) => case Remove => }
  }

  lemma SweepNames(st: State, now: int)
    requires HoldersOk(st) && NamesOk(st) && st.janitor == {}
    ensures NamesOk(SweptState(st, now))
  {
  }

  lemma JanitorNames(st: State, c: string)
    requires HoldersOk(st) && NamesOk(st) && c in st.janitor
    ensures NamesOk(Apply(st, JanitorRemoves(c)))
  {
  }

  lemma ClaimRemovals(st: State, id: nat, name: Option<string>)
    requires HoldersOk(st) && NamesOk(st) && RemovalsOk(st) && id in st.calls && CanLock(st, id, Claim(name))
    ensures RemovalsOk(Claimed(st, id, name))
  {
    hide ClaimTable, ClaimAnswer, ClaimEntry;
    if ClaimAnswer(st.table, st.calls[id], name).Ok? {
      ClaimWritesOneEntry(st.table, st.calls[id], name);
    }
  }

  lemma LockRemovals(st: State, id: nat, l: LockStep)
    requires HoldersOk(st) && NamesOk(st) && RemovalsOk(st) && id in st.calls && CanLock(st, id, l) && !l.Claim?
    ensures RemovalsOk(Locked(st, id, l))
  {
    match l { case Drop => case MarkIdle => case Destroy => }
  }

  lemma DockerRemovals(st: State, id: nat, d: DockerStep)
    requires HoldersOk(st) && NamesOk(st) && RemovalsOk(st) && id in st.calls && CanDocker(st, id, d)
    ensures RemovalsOk(Dockered(st, id, d))
  {
    match d { case Create(ok) => case Start(ok) => case Withdraw => case Run(o) => case Remove => }
  }

  lemma SweepRemovals(st: State, now: int)
    requires HoldersOk(st) && NamesOk(st) && RemovalsOk(st) && st.janitor == {}
    ensures RemovalsOk(SweptState(st, now))
  {
  }

  lemma JanitorRemovals(st: State, c: string)
    requires HoldersOk(st) && NamesOk(st) && RemovalsOk(st) && c in st.janitor
    ensures RemovalsOk(Apply(st, JanitorRemoves(c)))
  {
  }

  /** A container keeps its account as long as its session or its scheduled removal is still there. */
  lemma StaysAccounted(st: State, after: State, c: string)
    requires Accounted(st, c) && st.issued <= after.issued
    requires forall s | s in st.table && st.table[s].container == c :: s in after.table && after.table[s].container == c
    requires c in st.janitor ==> c in after.janitor || c in after.issued
    requires forall i | i in st.calls && RemovedByCall(st.calls[i], c) ::
               i in after.calls && RemovedByCall(after.calls[i], c)
    ensures Accounted(after, c)
  {
    if Owned(st.table, c) {
      var s :| s in st.table && st.table[s].container == c;
      assert after.table[s].container == c;
    } else if c !in st.issued && c !in st.janitor {
      var i :| i in st.calls && RemovedByCall(st.calls[i], c);
      assert RemovedByCall(after.calls[i], c);
    }
  }

  lemma ClaimCreated(st: State, id: nat, name: Option<string>)
    requires HoldersOk(st) && NamesOk(st) && CreatedOk(st) && id in st.calls && CanLock(st, id, Claim(name))
    ensures CreatedOk(Claimed(st, id, name))
  {
    hide ClaimTable, ClaimAnswer, ClaimEntry;
    var after := Claimed(st, id, name);
    if ClaimAnswer(st.table, st.calls[id], name).Ok? {
      ClaimWritesOneEntry(st.table, st.calls[id], name);
    }
    forall c | c in after.created
      ensures Accounted(after, c)
    {
      StaysAccounted(st, after, c);
    }
  }

  lemma LockCreated(st: State, id: nat, l: LockStep)
    requires HoldersOk(st) && NamesOk(st) && CreatedOk(st) && id in st.calls && CanLock(st, id, l) && !l.Claim?
    ensures CreatedOk(Locked(st, id, l))
  {
    var after := Locked(st, id, l);
    forall c | c in after.created
      ensures Accounted(after, c)
    {
      if l.Destroy? && st.table[st.calls[id].sid].container == c {
        assert RemovedByCall(after.calls[id], c);
      } else if l.Drop? && st.table[st.calls[id].sid].container == c {
        assert c in after.issued;
      } else {
        StaysAccounted(st, after, c);
      }
    }
  }

  lemma DockerCreated(st: State, id: nat, d: DockerStep)
    requires HoldersOk(st) && NamesOk(st) && CreatedOk(st) && id in st.calls && CanDocker(st, id, d)
    ensures CreatedOk(Dockered(st, id, d))
  {
    var after := Dockered(st, id, d);
    forall c | c in after.created
      ensures Accounted(after, c)
    {
      if c in st.created && !(d.Remove? && c == st.calls[id].phase.container) {
        StaysAccounted(st, after, c);
      } else if c !in st.created {
        assert after.table[st.calls[id].sid].container == c;
      }
    }
  }

  lemma SweepCreated(st: State, now: int)
    requires HoldersOk(st) && NamesOk(st) && CreatedOk(st) && st.janitor == {}
    ensures CreatedOk(SweptState(st, now))
  {
    var after := SweptState(st, now);
    forall c | c in after.created
      ensures Accounted(after, c)
    {
      if c !in after.janitor {
        StaysAccounted(st, after, c);
      }
    }
  }

  lemma JanitorCreated(st: State, c: string)
    requires HoldersOk(st) && NamesOk(st) && CreatedOk(st) && c in st.janitor
    ensures CreatedOk(Apply(st, JanitorRemoves(c)))
  {
    var after := Apply(st, JanitorRemoves(c));
    forall d | d in after.created
      ensures Accounted(after, d)
    {
      if d != c {
        StaysAccounted(st, after, d);
      }
    }
  }

  /** Start times are only ever added, so what they justify stays justified. */
  predicate StartsGrow(st: State, after: State) {
    && after.cfg == st.cfg
    && forall c | c in st.starts :: c in after.starts && st.starts[c] <= after.starts[c]
  }

  lemma StaysJustified(st: State, after: State, c: string, lease: int)
    requires StartsGrow(st, after) && Justified(st, c, lease)
    ensures Justified(after, c, lease)
  {
    var t :| t in st.starts[c] && lease <= t + st.cfg.maxSec * SECOND;
    assert t in after.starts[c];
  }

  lemma StaysLeaseOk(st: State, after: State, c: Call)
    requires StartsGrow(st, after) && LeaseOk(st, c)
    requires InFlight(c) ==> c.sid in st.table && c.sid in after.table && after.table[c.sid] == st.table[c.sid]
    ensures LeaseOk(after, c)
  {
    if !c.kind.Resource? && c.phase.Done? && c.phase.reply.Completed? {
      var t :| t in st.starts[c.container] && c.phase.reply.leaseExpiresUnixMs <= UnixMs(t + st.cfg.maxSec * SECOND);
      assert t in after.starts[c.container];
    }
  }

  lemma ClaimedIsJustified(st: State, after: State, c: Call, e: Entry)
    requires !c.kind.Resource? && Resolvable(st.cfg, c.kind.ttlSec)
    requires StartsGrow(st, after) && e.container in after.starts && c.kind.start in after.starts[e.container]
    requires c.sid in st.table ==> Justified(st, e.container, st.table[c.sid].lease)
    requires e.lease == if c.sid in st.table then Max(st.table[c.sid].lease, Target(c.kind)) else Target(c.kind)
    ensures Justified(after, e.container, e.lease)
  {
    if e.lease == Target(c.kind) {
      assert e.lease <= c.kind.start + after.cfg.maxSec * SECOND;
    } else {
      StaysJustified(st, after, e.container, e.lease);
    }
  }

  lemma ClaimLeases(st: State, id: nat, name: Option<string>)
    requires HoldersOk(st) && NamesOk(st) && LeasesOk(st) && id in st.calls && CanLock(st, id, Claim(name))
    ensures LeasesOk(Claimed(st, id, name))
  {
    hide ClaimTable, ClaimAnswer, ClaimEntry, Justified, LeaseOk;
    var after := Claimed(st, id, name);
    var c := st.calls[id];
    var answer := ClaimAnswer(st.table, c, name);
    if answer.Ok? {
      ClaimWritesOneEntry(st.table, c, name);
      ClaimedLeaseOk(st, id, name);
    } else {
      RefusedLeaseOk(after, after.calls[id]);
    }
    forall s | s in after.table && (answer.Err? || s != c.sid)
      ensures Justified(after, after.table[s].container, after.table[s].lease)
    {
      StaysJustified(st, after, st.table[s].container, st.table[s].lease);
    }
    forall i | i in after.calls && i != id
      ensures LeaseOk(after, after.calls[i])
    {
      StaysLeaseOk(st, after, st.calls[i]);
    }
  }

  lemma ClaimedLeaseOk(st: State, id: nat, name: Option<string>)
    requires LeasesOk(st) && id in st.calls && CanLock(st, id, Claim(name))
    requires ClaimAnswer(st.table, st.calls[id], name).Ok?
    ensures var after, c := Claimed(st, id, name), st.calls[id];
            && LeaseOk(after, after.calls[id])
            && Justified(after, after.table[c.sid].container, after.table[c.sid].lease)
  {
    hide ClaimTable, ClaimAnswer, ClaimEntry, Justified;
    var after, c := Claimed(st, id, name), st.calls[id];
    ClaimWritesOneEntry(st.table, c, name);
    assert LeaseOk(st, c);
    if c.kind.Resource? {
      StaysJustified(st, after, st.table[c.sid].container, st.table[c.sid].lease);
    } else {
      ClaimedIsJustified(st, after, c, ClaimEntry(st.table, c, name));
    }
  }

  lemma RefusedLeaseOk(st: State, c: Call)
    requires c.phase.Done? && c.phase.reply.Refused?
    ensures LeaseOk(st, c)
  {
  }

  lemma LockLeases(st: State, id: nat, l: LockStep)
    requires HoldersOk(st) && NamesOk(st) && LeasesOk(st) && id in st.calls && CanLock(st, id, l) && !l.Claim?
    ensures LeasesOk(Locked(st, id, l))
  {
    match l { case Drop => case MarkIdle => case Destroy => }
  }

  lemma DockerLeases(st: State, id: nat, d: DockerStep)
    requires HoldersOk(st) && NamesOk(st) && LeasesOk(st) && id in st.calls && CanDocker(st, id, d)
    ensures LeasesOk(Dockered(st, id, d))
  {
    match d { case Create(ok) => case Start(ok) => case Withdraw => case Run(o) => case Remove => }
  }

  lemma SweepLeases(st: State, now: int)
    requires HoldersOk(st) && NamesOk(st) && LeasesOk(st) && st.janitor == {}
    ensures LeasesOk(SweptState(st, now))
  {
  }

  lemma JanitorLeases(st: State, c: string)
    requires HoldersOk(st) && NamesOk(st) && LeasesOk(st) && c in st.janitor
    ensures LeasesOk(Apply(st, JanitorRemoves(c)))
  {
  }

  lemma ClaimNoneVanished(st: State, id: nat, name: Option<string>)
    requires HoldersOk(st) && NoneVanished(st) && id in st.calls && CanLock(st, id, Claim(name))
    ensures NoneVanished(Claimed(st, id, name))
  {
    hide ClaimTable, ClaimAnswer, ClaimEntry;
    if ClaimAnswer(st.table, st.calls[id], name).Ok? {
      ClaimWritesOneEntry(st.table, st.calls[id], name);
    }
  }

  lemma LockNoneVanished(st: State, id: nat, l: LockStep)
    requires HoldersOk(st) && NoneVanished(st) && id in st.calls && CanLock(st, id, l) && !l.Claim?
    ensures NoneVanished(Locked(st, id, l))
  {
    match l { case Drop => case MarkIdle => case Destroy => }
  }

  lemma DockerNoneVanished(st: State, id: nat, d: DockerStep)
    requires HoldersOk(st) && NoneVanished(st) && id in st.calls && CanDocker(st, id, d)
    ensures NoneVanished(Dockered(st, id, d))
  {
    match d { case Create(ok) => case Start(ok) => case Withdraw => case Run(o) => case Remove => }
  }

  lemma SweepNoneVanished(st: State, now: int)
    requires HoldersOk(st) && NoneVanished(st) && st.janitor == {}
    ensures NoneVanished(SweptState(st, now))
  {
  }

  lemma JanitorNoneVanished(st: State, c: string)
    requires HoldersOk(st) && NoneVanished(st) && c in st.janitor
    ensures NoneVanished(Apply(st, JanitorRemoves(c)))
  {
  }

  // ---------- Runs ----------

  lemma BeginKeeps(st: State, id: nat, kind: Kind, sid: string)
    requires Inv(st) && Enabled(st, Begin(id, kind, sid))
    ensures Inv(Apply(st, Begin(id, kind, sid)))
  {
    var after := Apply(st, Begin(id, kind, sid));
    forall c | c in after.created
      ensures Accounted(after, c)
    {
      StaysAccounted(st, after, c);
    }
  }

  lemma StepKeepsInv(st: State, a: Action)
    requires Inv(st) && Enabled(st, a)
    ensures Inv(Apply(st, a))
  {
    hide HoldersOk, NamesOk, RemovalsOk, CreatedOk, LeasesOk, NoneVanished, Claimed, Dockered, SweptState;
    match a
    case Begin(id, kind, sid) => BeginKeeps(st, id, kind, sid);
    case Lock(id, l) =>
      if l.Claim? {
        ClaimHolders(st, id, l.name); ClaimNames(st, id, l.name); ClaimRemovals(st, id, l.name);
        ClaimCreated(st, id, l.name); ClaimLeases(st, id, l.name); ClaimNoneVanished(st, id, l.name);
      } else {
        LockHolders(st, id, l); LockNames(st, id, l); LockRemovals(st, id, l);
        LockCreated(st, id, l); LockLeases(st, id, l); LockNoneVanished(st, id, l);
      }
    case Docker(id, d) =>
      DockerHolders(st, id, d); DockerNames(st, id, d); DockerRemovals(st, id, d);
      DockerCreated(st, id, d); DockerLeases(st, id, d); DockerNoneVanished(st, id, d);
    case Sweep(now) =>
      SweepHolders(st, now); SweepNames(st, now); SweepRemovals(st, now);
      SweepCreated(st, now); SweepLeases(st, now); SweepNoneVanished(st, now);
    case JanitorRemoves(c) =>
      JanitorHolders(st, c); JanitorNames(st, c); JanitorRemovals(st, c);
      JanitorCreated(st, c); JanitorLeases(st, c); JanitorNoneVanished(st, c);
  }

  lemma {:induction false} RunKeepsInv(cfg: LeaseConfig, trace: seq<State>, actions: seq<Action>, i: nat)
    requires IsRun(cfg, trace, actions) && i < |trace|
    ensures Inv(trace[i])
  {
    if i > 0 {
      RunKeepsInv(cfg, trace, actions, i - 1);
      hide Inv, Enabled, Apply;
      StepKeepsInv(trace[i - 1], actions[i - 1]);
    }
  }

  // ---------- What holds of every run ----------

  /** Before Close, every container ever created is owned by exactly one session of the table, or its
      removal has been issued or is scheduled. */
  lemma EveryContainerIsAccountedFor(cfg: LeaseConfig, trace: seq<State>, actions: seq<Action>, i: nat, c: string)
    requires IsRun(cfg, trace, actions) && i < |trace| && c in trace[i].created
    ensures var st := trace[i];
            || c in st.issued || Scheduled(st, c)
            || exists s | s in st.table ::
                 st.table[s].container == c && forall t | t in st.table && st.table[t].container == c :: t == s
  {
    RunKeepsInv(cfg, trace, actions, i);
    var st := trace[i];
    assert Accounted(st, c);
    if Owned(st.table, c) {
      var s :| s in st.table && st.table[s].container == c;
      assert forall t | t in st.table && st.table[t].container == c :: t == s;
    }
  }

  /** A removal that waits with the janitor or with a destroying call never targets the container of
      a session in the table, whoever uses that session ID meanwhile. */
  lemma DelayedRemovalsSpareTheLiving(cfg: LeaseConfig, trace: seq<State>, actions: seq<Action>, i: nat, c: string)
    requires IsRun(cfg, trace, actions) && i < |trace| && Scheduled(trace[i], c)
    ensures !Owned(trace[i].table, c)
  {
    RunKeepsInv(cfg, trace, actions, i);
  }

  /** Calls in flight are on different sessions, and each still finds the session it claimed. */
  lemma OneCallPerSession(cfg: LeaseConfig, trace: seq<State>, actions: seq<Action>, i: nat, a: nat, b: nat)
    requires IsRun(cfg, trace, actions) && i < |trace| && a in trace[i].calls && b in trace[i].calls
    requires InFlight(trace[i].calls[a]) && InFlight(trace[i].calls[b])
    ensures a != b ==> trace[i].calls[a].sid != trace[i].calls[b].sid
    ensures Holds(trace[i].table, trace[i].calls[a])
  {
    RunKeepsInv(cfg, trace, actions, i);
  }

  /** No call completes its command only to find its session gone. */
  lemma NoSessionVanishes(cfg: LeaseConfig, trace: seq<State>, actions: seq<Action>, i: nat, a: nat)
    requires IsRun(cfg, trace, actions) && i < |trace| && a in trace[i].calls
    ensures trace[i].calls[a].phase != Done(Vanished)
  {
    RunKeepsInv(cfg, trace, actions, i);
  }

  /** A sweep removes exactly the idle sessions whose lease is at or before now, hence none with a
      call in flight. */
  lemma SweepTakesIdleAndExpired(cfg: LeaseConfig, trace: seq<State>, actions: seq<Action>, i: nat, s: string)
    requires IsRun(cfg, trace, actions) && i < |actions| && actions[i].Sweep? && s in trace[i].table
    ensures s !in trace[i + 1].table <==> !trace[i].table[s].busy && trace[i].table[s].lease <= actions[i].now
    ensures s in trace[i + 1].table ==> trace[i + 1].table[s] == trace[i].table[s]
    ensures s !in trace[i + 1].table ==> trace[i].table[s].container in trace[i + 1].janitor
    ensures forall a | a in trace[i].calls && InFlight(trace[i].calls[a]) && trace[i].calls[a].sid == s ::
              s in trace[i + 1].table
  {
    RunKeepsInv(cfg, trace, actions, i);
    assert trace[i + 1] == Apply(trace[i], actions[i]);
  }

  /** A reported expiry is at least the call's own start plus its TTL, and at most the longest TTL
      after some execute call on the same session. */
  lemma ReportedExpiryIsBounded(cfg: LeaseConfig, trace: seq<State>, actions: seq<Action>, i: nat, a: nat)
    requires IsRun(cfg, trace, actions) && i < |trace| && a in trace[i].calls
    requires !trace[i].calls[a].kind.Resource?
    requires trace[i].calls[a].phase.Done? && trace[i].calls[a].phase.reply.Completed?
    ensures var c := trace[i].calls[a];
            && c.phase.reply.leaseExpiresUnixMs >= UnixMs(Target(c.kind))
            && c.container in trace[i].starts
            && exists t | t in trace[i].starts[c.container] ::
                 c.phase.reply.leaseExpiresUnixMs <= UnixMs(t + trace[i].cfg.maxSec * SECOND)
  {
    RunKeepsInv(cfg, trace, actions, i);
    assert LeaseOk(trace[i], trace[i].calls[a]);
  }

  /** A container in the table keeps its session, and its lease does not shrink; names out of use
      stay out of use. */
  ghost predicate Keeps(before: State, after: State) {
    && before.names <= after.names
    && forall s | s in after.table && after.table[s].container in before.names ::
         && s in before.table && before.table[s].container == after.table[s].container
         && before.table[s].lease <= after.table[s].lease
  }

  lemma LockKeepsLeases(st: State, id: nat, l: LockStep)
    requires LeasesOk(st) && NamesOk(st) && id in st.calls && CanLock(st, id, l)
    ensures Keeps(st, Locked(st, id, l))
  {
    if l.Claim? {
      hide ClaimTable, ClaimAnswer, ClaimEntry;
      if ClaimAnswer(st.table, st.calls[id], l.name).Ok? {
        ClaimWritesOneEntry(st.table, st.calls[id], l.name);
      }
    }
  }

  lemma DockerKeepsLeases(st: State, id: nat, d: DockerStep)
    requires id in st.calls && CanDocker(st, id, d)
    ensures Keeps(st, Dockered(st, id, d))
  {
  }

  lemma StepKeeps(st: State, a: Action)
    requires Inv(st) && Enabled(st, a)
    ensures Keeps(st, Apply(st, a))
  {
    hide HoldersOk, NamesOk, RemovalsOk, CreatedOk, LeasesOk, NoneVanished, Locked, Dockered;
    match a
    case Begin(id, kind, sid) =>
    case Lock(id, l) => LockKeepsLeases(st, id, l);
    case Docker(id, d) => DockerKeepsLeases(st, id, d);
    case Sweep(now) =>
    case JanitorRemoves(c) =>
  }

  /** A session's lease never shrinks over a run, however its other fields change. */
  lemma {:induction false} LeaseNeverShrinks(cfg: LeaseConfig, trace: seq<State>, actions: seq<Action>,
                                             i: nat, j: nat, s: string)
    requires IsRun(cfg, trace, actions) && i <= j < |trace|
    requires s in trace[j].table && trace[j].table[s].container in trace[i].names
    ensures s in trace[i].table && trace[i].table[s].container == trace[j].table[s].container
    ensures trace[i].table[s].lease <= trace[j].table[s].lease
    decreases j - i
  {
    hide Inv, Enabled, Apply;
    if i < j {
      NamesGrow(cfg, trace, actions, i, j - 1);
      RunKeepsInv(cfg, trace, actions, j - 1);
      StepKeeps(trace[j - 1], actions[j - 1]);
      LeaseNeverShrinks(cfg, trace, actions, i, j - 1, s);
    }
  }

  lemma {:induction false} NamesGrow(cfg: LeaseConfig, trace: seq<State>, actions: seq<Action>, i: nat, j: nat)
    requires IsRun(cfg, trace, actions) && i <= j < |trace|
    ensures trace[i].names <= trace[j].names
    decreases j - i
  {
    hide Inv, Enabled, Apply;
    if i < j {
      NamesGrow(cfg, trace, actions, i, j - 1);
      RunKeepsInv(cfg, trace, actions, j - 1);
      StepKeeps(trace[j - 1], actions[j - 1]);
    }
  }
}
