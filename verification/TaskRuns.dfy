/** Runs of the task service: submits, executors, cancels and prunes interleave, each mutex section
    and each SQL statement one step, against a store that may fail on any statement. Task IDs are
    fresh. */
module TaskRuns {
  import opened Prelude
  import opened Tasks
  import OwnerScope
  import Text

  datatype Mode = Sync | Async | Auto

  datatype Reply =
    | InProgress   // the request ID is reserved by another submit
    | Unavailable  // admission check
    | CreateFailed
    | TaskMissing
    | ContextEnded
    | Snapshot(status: Status)

  /** Where one SubmitTask call is. */
  datatype SubmitPc =
    | Reserving
    | Looking                    // for an earlier task of the same request
    | Checking
    | Inserting
    | Publishing(t: Tid)         // row inserted, runtime record not yet set
    | Unreserving(t: Tid)
    | Launching(t: Tid)
    | Relooking                  // after a unique-index conflict
    | Fetching(t: Tid)           // the runtime record of an earlier task
    | Reading(t: Tid, record: bool)
    | Waiting(t: Tid, record: bool)
    | Rereading(t: Tid)
    | Leaving(reply: Reply)      // the deferred release is still to run
    | Returned(reply: Reply)

  datatype Submit = Submit(owner: string, request: string, key: string, mode: Mode, pc: SubmitPc, holds: bool)

  /** What follows once the runtime record has been completed. */
  datatype Next = Stop | Fallback | Critical

  /** Where the executor of one task is. */
  datatype ExecPc =
    | Marking
    | Dispatching
    | Working
    | Finishing(verdict: Verdict, fallback: bool)
    | Completing(next: Next)
    | Closing(next: Next)
    | Stopped(critical: bool)

  datatype CancelOutcome = Unknown | AlreadyOver | Applied | NotApplied | Errored

  datatype CancelPc =
    | Inspecting
    | Writing
    | Clearing(outcome: CancelOutcome) // completeTaskRuntime: take the record
    | Signalling(outcome: CancelOutcome) // close its done channel
    | Answered(outcome: CancelOutcome)

  datatype Cancel = Cancel(t: Tid, owner: string, pc: CancelPc)

  /** `runtimes` are the tasks with a record in the runtime map; `records` those for which one was ever
      set, `closed` those whose done channel is closed. `reserved` is the reservation set, each key with the
      submit that put it there. `used` and `makers` are history: the IDs ever inserted, and by which
      submit. */
  datatype State = State(rows: Rows, used: set<Tid>, makers: map<Tid, nat>,
                         runtimes: set<Tid>, records: set<Tid>, closed: set<Tid>, reserved: map<string, nat>,
                         submits: map<nat, Submit>, execs: map<Tid, ExecPc>, cancels: map<nat, Cancel>)

  const INIT := State(map[], {}, map[], {}, {}, {}, map[], map[], map[], map[])

  datatype Ending = Signal | Context | Timer

  datatype SubmitStep =
    | Reserve
    | Lookup(found: Option<Tid>)
    | Check(refusal: Option<Reply>)
    | Insert(t: Tid, nowMs: int)
    | Publish
    | Unreserve
    | Launch
    | Relookup(found: Option<Tid>)
    | Fetch
    | Read
    | EndWait(ending: Ending)
    | Reread
    | Leave

  datatype ExecStep =
    | MarkDispatch(nowMs: int)
    | MarkRun(commandID: string, nowMs: int)
    | EndDispatch(verdict: Verdict)
    | Finalize(completedMs: int, expiresMs: int)
    | Complete
    | Close

  datatype CancelStep = Inspect | Write(nowMs: int, expiresMs: int) | Clear | SignalDone

  datatype Action =
    | BeginSubmit(s: nat, owner: string, request: string, mode: Mode)
    | Submitting(s: nat, submit: SubmitStep, store: StoreOutcome)
    | Executing(t: Tid, exec: ExecStep, store: StoreOutcome)
    | BeginCancel(c: nat, t: Tid, owner: string)
    | Canceling(c: nat, cancel: CancelStep, store: StoreOutcome)
    | Prune(nowMs: int)

  function NewSubmit(owner: string, request: string, mode: Mode): Submit {
    Submit(Text.Trim(owner), Text.Trim(request), OwnerScope.RequestKey(owner, request), mode, Reserving, false)
  }

  // ---------- Submits ----------

  function Move(st: State, s: nat, pc: SubmitPc): State
    requires s in st.submits
  {
    st.(submits := st.submits[s := st.submits[s].(pc := pc)])
  }

  predicate IsOf(row: Row, owner: string, request: string) {
    row.owner == owner && row.request == request
  }

  /** What a lookup by owner and request may answer; a failing store finds nothing. */
  predicate Finds(rows: Rows, x: Submit, found: Option<Tid>, store: StoreOutcome) {
    match found
    case Some(t) => store.Works? && t in rows && IsOf(rows[t], x.owner, x.request)
    case None => store.Works? ==> forall t | t in rows :: !IsOf(rows[t], x.owner, x.request)
  }

  predicate CanSubmit(st: State, s: nat, e: SubmitStep, store: StoreOutcome)
    requires s in st.submits
  {
    var x := st.submits[s];
    match e
    case Reserve => x.pc.Reserving?
    case Lookup(found) => x.pc.Looking? && Finds(st.rows, x, found, store)
    case Check(refusal) =>
      x.pc.Checking? && (refusal.Some? ==> refusal.value.Unavailable? || refusal.value.CreateFailed?)
    case Insert(t, now) => x.pc.Inserting? && t !in st.used
    case Publish => x.pc.Publishing?
    case Unreserve => x.pc.Unreserving?
    case Launch => x.pc.Launching?
    case Relookup(found) => x.pc.Relooking? && Finds(st.rows, x, found, store)
    case Fetch => x.pc.Fetching?
    case Read => x.pc.Reading?
    case EndWait(ending) => x.pc.Waiting? && CanEndWait(st, x, ending)
    case Reread => x.pc.Rereading?
    case Leave => x.pc.Leaving?
  }

  predicate CanEndWait(st: State, x: Submit, ending: Ending)
    requires x.pc.Waiting?
  {
    match ending
    case Signal => x.pc.record ==> x.pc.t in st.closed
    case Context => x.pc.record
    case Timer => x.pc.record && x.mode.Auto?
  }

  function Reserved(st: State, s: nat): State
    requires s in st.submits
  {
    var x := st.submits[s];
    if x.request == "" then Move(st, s, Checking)
    else if x.key in st.reserved then Move(st, s, Leaving(InProgress))
    else st.(reserved := st.reserved[x.key := s], submits := st.submits[s := x.(holds := true, pc := Looking)])
  }

  function Unreserved(st: State, s: nat, pc: SubmitPc): State
    requires s in st.submits
  {
    var x := st.submits[s];
    st.(reserved := if x.holds then st.reserved - {x.key} else st.reserved,
        submits := st.submits[s := x.(holds := false, pc := pc)])
  }

  function InsertedRow(st: State, s: nat, t: Tid, now: int, store: StoreOutcome): State
    requires s in st.submits
  {
    var x := st.submits[s];
    var conflict := Conflicts(st.rows, t, x.owner, x.request);
    Move(st.(rows := if store.Refuses? then st.rows else Inserted(st.rows, t, x.owner, x.request, now),
             used := st.used + {t}, makers := st.makers[t := s]), s,
         if store.Works? && !conflict then Publishing(t)
         else if store.Works? && x.request != "" then Relooking
         else Leaving(CreateFailed))
  }

  /** A snapshot of the row: what it shows, or that it is not there. */
  function Shown(rows: Rows, t: Tid, store: StoreOutcome): Reply {
    if store.Works? && t in rows then Snapshot(rows[t].status) else TaskMissing
  }

  function Submitted(st: State, s: nat, e: SubmitStep, store: StoreOutcome): State
    requires s in st.submits && CanSubmit(st, s, e, store)
  {
    var x := st.submits[s];
    match e
    case Reserve => Reserved(st, s)
    case Lookup(found) => Move(st, s, if found.Some? then Fetching(found.value) else Checking)
    case Check(refusal) => Move(st, s, if refusal.Some? then Leaving(refusal.value) else Inserting)
    case Insert(t, now) => InsertedRow(st, s, t, now, store)
    case Publish =>
      Move(st.(runtimes := st.runtimes + {x.pc.t}, records := st.records + {x.pc.t}), s,
           if x.holds then Unreserving(x.pc.t) else Launching(x.pc.t))
    case Unreserve => Unreserved(st, s, Launching(x.pc.t))
    case Launch => Move(st.(execs := st.execs[x.pc.t := Marking]), s, Reading(x.pc.t, true))
    case Relookup(found) => Move(st, s, if found.Some? then Fetching(found.value) else Leaving(CreateFailed))
    case Fetch => Move(st, s, Reading(x.pc.t, x.pc.t in st.runtimes))
    case Read =>
      var shown := Shown(st.rows, x.pc.t, store);
      Move(st, s, if shown.TaskMissing? || x.mode.Async? || Terminal(shown.status) then Leaving(shown)
                  else Waiting(x.pc.t, x.pc.record))
    case EndWait(ending) => Move(st, s, if ending.Context? then Leaving(ContextEnded) else Rereading(x.pc.t))
    case Reread => Move(st, s, Leaving(Shown(st.rows, x.pc.t, store)))
    case Leave => Unreserved(st, s, Returned(x.pc.reply))
  }

  // ---------- Executors ----------

  function Step(st: State, t: Tid, pc: ExecPc): State {
    st.(execs := st.execs[t := pc])
  }

  function After(next: Next): ExecPc {
    match next
    case Stop => Stopped(false)
    case Fallback => Finishing(PersistFailedVerdict(), true)
    case Critical => Stopped(true)
  }

  /** A guarded statement as the store treats it. */
  function Stored(rows: Rows, after: Rows, store: StoreOutcome): Rows {
    if store.Refuses? then rows else after
  }

  /** After a mark: go on if it changed the row, stop if it did not, fall back on an error. */
  function AfterMark(rows: Rows, t: Tid, store: StoreOutcome, pc: ExecPc): ExecPc {
    if !store.Works? then Finishing(PersistFailedVerdict(), true) else if Active(rows, t) then pc else Stopped(false)
  }

  function AfterFinish(rows: Rows, t: Tid, store: StoreOutcome, fallback: bool): Next {
    if store.Works? && Active(rows, t) then Stop
    else if fallback then Critical
    else if store.Works? then Stop
    else Fallback
  }

  predicate CanExec(st: State, t: Tid, e: ExecStep)
    requires t in st.execs
  {
    var pc := st.execs[t];
    match e
    case MarkDispatch(now) => pc.Marking?
    case MarkRun(command, now) => pc.Dispatching?
    case EndDispatch(v) => (pc.Dispatching? || pc.Working?) && Terminal(v.status)
    case Finalize(completed, expires) => pc.Finishing?
    case Complete => pc.Completing?
    case Close => pc.Closing?
  }

  function Executed(st: State, t: Tid, e: ExecStep, store: StoreOutcome): State
    requires t in st.execs && CanExec(st, t, e)
  {
    var pc := st.execs[t];
    match e
    case MarkDispatch(now) =>
      Step(st.(rows := Stored(st.rows, MarkDispatched(st.rows, t, now), store)), t,
           AfterMark(st.rows, t, store, Dispatching))
    case MarkRun(command, now) =>
      Step(st.(rows := Stored(st.rows, MarkRunning(st.rows, t, command, now), store)), t,
           AfterMark(st.rows, t, store, Working))
    case EndDispatch(v) => Step(st, t, Finishing(v, false))
    case Finalize(completed, expires) =>
      Step(st.(rows := Stored(st.rows, MarkTerminal(st.rows, t, pc.verdict, completed, expires), store)), t,
           Completing(AfterFinish(st.rows, t, store, pc.fallback)))
    case Complete =>
      Step(st.(runtimes := st.runtimes - {t}), t, if t in st.runtimes then Closing(pc.next) else After(pc.next))
    case Close => Step(st.(closed := st.closed + {t}), t, After(pc.next))
  }

  // ---------- Cancels ----------

  function CancelTo(st: State, c: nat, pc: CancelPc): State
    requires c in st.cancels
  {
    st.(cancels := st.cancels[c := st.cancels[c].(pc := pc)])
  }

  predicate CanCancel(st: State, c: nat, e: CancelStep)
    requires c in st.cancels
  {
    var pc := st.cancels[c].pc;
    match e
    case Inspect => pc.Inspecting?
    case Write(now, expires) => pc.Writing?
    case Clear => pc.Clearing?
    case SignalDone => pc.Signalling?
  }

  function Cancelled(st: State, c: nat, e: CancelStep, store: StoreOutcome): State
    requires c in st.cancels && CanCancel(st, c, e)
  {
    var x := st.cancels[c];
    match e
    case Inspect =>
      CancelTo(st, c,
               if !store.Works? || x.t !in st.rows || st.rows[x.t].owner != x.owner then CancelPc.Answered(Unknown)
               else if Terminal(st.rows[x.t].status) then CancelPc.Answered(AlreadyOver)
               else Writing)
    case Write(now, expires) =>
      CancelTo(st.(rows := Stored(st.rows, MarkTerminal(st.rows, x.t, CanceledVerdict(), now, expires), store)), c,
               Clearing(if !store.Works? then Errored else if Active(st.rows, x.t) then Applied else NotApplied))
    case Clear =>
      CancelTo(st.(runtimes := st.runtimes - {x.t}), c,
               if x.t in st.runtimes then Signalling(x.pc.outcome) else CancelPc.Answered(x.pc.outcome))
    case SignalDone => CancelTo(st.(closed := st.closed + {x.t}), c, CancelPc.Answered(x.pc.outcome))
  }

  // ---------- Runs ----------

  predicate Enabled(st: State, a: Action) {
    match a
    case BeginSubmit(s, owner, request, mode) => s !in st.submits
    case Submitting(s, e, store) => s in st.submits && CanSubmit(st, s, e, store)
    case Executing(t, e, store) => t in st.execs && CanExec(st, t, e)
    case BeginCancel(c, t, owner) => c !in st.cancels && t in st.used
    case Canceling(c, e, store) => c in st.cancels && CanCancel(st, c, e)
    case Prune(now) => true
  }

  function Apply(st: State, a: Action): State
    requires Enabled(st, a)
  {
    match a
    case BeginSubmit(s, owner, request, mode) =>
      st.(submits := st.submits[s := NewSubmit(owner, request, mode)])
    case Submitting(s, e, store) => Submitted(st, s, e, store)
    case Executing(t, e, store) => Executed(st, t, e, store)
    case BeginCancel(c, t, owner) => st.(cancels := st.cancels[c := Cancel(t, owner, Inspecting)])
    case Canceling(c, e, store) => Cancelled(st, c, e, store)
    case Prune(now) => st.(rows := DeleteExpired(st.rows, now))
  }

  ghost predicate IsRun(trace: seq<State>, actions: seq<Action>) {
    && |trace| == |actions| + 1
    && trace[0] == INIT
    && forall i :: 0 <= i < |actions| ==> Enabled(trace[i], actions[i]) && trace[i + 1] == Apply(trace[i], actions[i])
  }

  // ---------- What holds whatever the store does ----------

  /** The task a submit has inserted and not yet launched. */
  function Making(pc: SubmitPc): Option<Tid> {
    match pc
    case Publishing(t) => Some(t)
    case Unreserving(t) => Some(t)
    case Launching(t) => Some(t)
    case _ => None
  }

  ghost predicate IdsOk(st: State) {
    && st.rows.Keys <= st.used && st.records <= st.used && st.execs.Keys <= st.records
    && st.runtimes <= st.records && st.closed <= st.records && st.closed !! st.runtimes
    && (forall t | t in st.execs && st.execs[t].Closing? :: t !in st.runtimes)
    && (forall c | c in st.cancels && st.cancels[c].pc.Signalling? ::
          st.cancels[c].t in st.records && st.cancels[c].t !in st.runtimes)
  }

  /** Each new task is in the hands of one submit until it is launched. */
  predicate MakingOk(st: State, pc: SubmitPc) {
    match pc
    case Publishing(t) => t in st.used && t !in st.records
    case Unreserving(t) => t in st.records && t !in st.execs
    case Launching(t) => t in st.records && t !in st.execs
    case _ => true
  }

  ghost predicate MakersOk(st: State) {
    && (forall s | s in st.submits :: MakingOk(st, st.submits[s].pc))
    && (forall s, r | s in st.submits && r in st.submits && s != r && Making(st.submits[s].pc).Some? ::
          Making(st.submits[s].pc) != Making(st.submits[r].pc))
  }

  /** The executor is through, and did not give up. */
  predicate AtEnd(pc: ExecPc) {
    match pc
    case Completing(next) => next.Stop?
    case Closing(next) => next.Stop?
    case Stopped(critical) => !critical
    case _ => false
  }

  predicate Unstarted(rows: Rows, t: Tid) {
    Active(rows, t) ==> rows[t].status == Queued
  }

  /** What an executor's place in its program says about the row. */
  predicate ExecOk(rows: Rows, t: Tid, pc: ExecPc) {
    match pc
    case Marking => Unstarted(rows, t)
    case Dispatching => Active(rows, t) ==> !rows[t].status.Running?
    case Finishing(v, fallback) => Terminal(v.status)
    case _ => AtEnd(pc) ==> Over(rows, t)
  }

  ghost predicate ExecsOk(st: State) {
    && (forall t | t in st.rows && t !in st.execs :: Unstarted(st.rows, t))
    && (forall t | t in st.execs :: ExecOk(st.rows, t, st.execs[t]))
  }

  ghost predicate Inv(st: State) {
    IdsOk(st) && MakersOk(st) && ExecsOk(st)
  }

  /** The steps by which a submit makes a task and hands it over to its executor. */
  predicate Makes(e: SubmitStep) {
    e.Insert? || e.Publish? || e.Unreserve? || e.Launch?
  }

  /** All other steps of a submit change only the submit itself and the reservations. */
  ghost predicate OnlySubmit(st: State, after: State, s: nat) {
    && s in st.submits && s in after.submits
    && after == st.(submits := st.submits[s := after.submits[s]], reserved := after.reserved)
    && Making(st.submits[s].pc) == None && Making(after.submits[s].pc) == None
    && after.submits[s] == st.submits[s].(pc := after.submits[s].pc, holds := after.submits[s].holds)
  }

  lemma OtherStepsOnlySubmit(st: State, s: nat, e: SubmitStep, store: StoreOutcome)
    requires s in st.submits && CanSubmit(st, s, e, store) && !Makes(e)
    ensures OnlySubmit(st, Submitted(st, s, e, store), s)
  {
    hide CanSubmit, Submitted, OnlySubmit;
    if e.Reserve? || e.Leave? || e.Lookup? || e.Check? {
      EarlyOrLast(st, s, e, store);
    } else {
      LookingStep(st, s, e, store);
    }
  }

  lemma EarlyOrLast(st: State, s: nat, e: SubmitStep, store: StoreOutcome)
    requires s in st.submits && CanSubmit(st, s, e, store) && (e.Reserve? || e.Leave? || e.Lookup? || e.Check?)
    ensures OnlySubmit(st, Submitted(st, s, e, store), s)
  {
    hide Finds;
    match e { case Reserve => case Leave => case Lookup(found) => case Check(refusal) => }
  }

  lemma LookingStep(st: State, s: nat, e: SubmitStep, store: StoreOutcome)
    requires s in st.submits && CanSubmit(st, s, e, store)
    requires e.Relookup? || e.Fetch? || e.Read? || e.EndWait? || e.Reread?
    ensures OnlySubmit(st, Submitted(st, s, e, store), s)
  {
    hide Finds, CanEndWait, Shown;
    match e { case Relookup(found) => case Fetch => case Read => case EndWait(ending) => case Reread => }
  }

  lemma SubmitIds(st: State, s: nat, e: SubmitStep, store: StoreOutcome)
    requires IdsOk(st) && MakersOk(st) && s in st.submits && CanSubmit(st, s, e, store)
    ensures IdsOk(Submitted(st, s, e, store))
  {
    if Makes(e) {
      assert MakingOk(st, st.submits[s].pc);
      match e { case Insert(t, now) => case Publish => case Unreserve => case Launch => }
    } else {
      OtherStepsOnlySubmit(st, s, e, store);
      hide Submitted;
    }
  }

  /** What a step may do to the task in the hands of one submit. */
  ghost predicate MakingStep(st: State, after: State, s: nat) {
    && s in st.submits && s in after.submits && after.submits == st.submits[s := after.submits[s]]
    && MakingOk(after, after.submits[s].pc)
    && (var made := Making(after.submits[s].pc);
        made == None || made == Making(st.submits[s].pc) || made.value !in st.used)
    && st.used <= after.used && st.records <= after.records
    && (forall t | t in after.records && t !in st.records :: Making(st.submits[s].pc) == Some(t))
    && (forall t | t in after.execs && t !in st.execs :: Making(st.submits[s].pc) == Some(t))
  }

  lemma MakingMoves(st: State, s: nat, e: SubmitStep, store: StoreOutcome)
    requires IdsOk(st) && s in st.submits && CanSubmit(st, s, e, store) && Makes(e) && MakingOk(st, st.submits[s].pc)
    ensures MakingStep(st, Submitted(st, s, e, store), s)
  {
    hide Inserted, Conflicts;
    match e { case Insert(t, now) => case Publish => case Unreserve => case Launch => }
  }

  lemma MakersMove(st: State, after: State, s: nat)
    requires IdsOk(st) && MakersOk(st) && MakingStep(st, after, s)
    ensures MakersOk(after)
  {
    forall r | r in st.submits && r != s
      ensures MakingOk(after, st.submits[r].pc)
      ensures Making(st.submits[r].pc).Some? ==> Making(st.submits[r].pc).value in st.used
    {
      assert MakingOk(st, st.submits[r].pc);
      assert Making(st.submits[r].pc) != Making(st.submits[s].pc) || Making(st.submits[s].pc) == None;
    }
    hide MakingOk, Making;
  }

  lemma SubmitMakers(st: State, s: nat, e: SubmitStep, store: StoreOutcome)
    requires IdsOk(st) && MakersOk(st) && s in st.submits && CanSubmit(st, s, e, store)
    ensures MakersOk(Submitted(st, s, e, store))
  {
    hide Submitted, Making, MakingOk, CanSubmit, IdsOk, MakingStep;
    if Makes(e) {
      MakingMoves(st, s, e, store);
      MakersMove(st, Submitted(st, s, e, store), s);
    } else {
      OtherStepsOnlySubmit(st, s, e, store);
      hide OnlySubmit;
      IdleStep(st, Submitted(st, s, e, store), s);
      MakersMove(st, Submitted(st, s, e, store), s);
    }
  }

  lemma IdleStep(st: State, after: State, s: nat)
    requires OnlySubmit(st, after, s)
    ensures MakingStep(st, after, s)
  {
  }

  lemma SubmitExecs(st: State, s: nat, e: SubmitStep, store: StoreOutcome)
    requires IdsOk(st) && MakersOk(st) && ExecsOk(st) && s in st.submits && CanSubmit(st, s, e, store)
    ensures ExecsOk(Submitted(st, s, e, store))
  {
    var after := Submitted(st, s, e, store);
    if Makes(e) {
      assert MakingOk(st, st.submits[s].pc);
      hide MakersOk;
      forall t | t in st.execs
        ensures ExecOk(after.rows, t, after.execs[t])
      {
        assert ExecOk(st.rows, t, st.execs[t]);
      }
      match e { case Insert(t, now) => case Publish => case Unreserve => case Launch => }
    } else {
      OtherStepsOnlySubmit(st, s, e, store);
      hide Submitted;
    }
  }

  lemma ExecIds(st: State, t: Tid, e: ExecStep, store: StoreOutcome)
    requires IdsOk(st) && t in st.execs && CanExec(st, t, e)
    ensures IdsOk(Executed(st, t, e, store))
  {
    match e {
      case MarkDispatch(n) => case MarkRun(k, n) => case EndDispatch(v) =>
      case Finalize(n, x) => case Complete => case Close =>
    }
  }

  lemma ExecMakers(st: State, t: Tid, e: ExecStep, store: StoreOutcome)
    requires IdsOk(st) && MakersOk(st) && t in st.execs && CanExec(st, t, e)
    ensures MakersOk(Executed(st, t, e, store))
  {
    var after := Executed(st, t, e, store);
    assert after.submits == st.submits && after.records == st.records && after.used == st.used
        && after.execs.Keys == st.execs.Keys;
    hide Executed;
    forall s | s in after.submits
      ensures MakingOk(after, after.submits[s].pc)
    {
      assert MakingOk(st, st.submits[s].pc);
    }
  }

  /** Everything about other rows is as before. */
  predicate OnlyRow(before: Rows, after: Rows, t: Tid) {
    before.Keys == after.Keys && forall u | u in before && u != t :: after[u] == before[u]
  }

  lemma ExecExecs(st: State, t: Tid, e: ExecStep, store: StoreOutcome)
    requires ExecsOk(st) && t in st.execs && CanExec(st, t, e)
    ensures ExecsOk(Executed(st, t, e, store))
  {
    var after := Executed(st, t, e, store);
    ExecsOwnRow(st, t, e, store);
    hide Executed, ExecOk;
    forall u | u in after.execs && u != t
      ensures ExecOk(after.rows, u, after.execs[u])
    {
      OtherRowsSame(st.rows, after.rows, t, u, st.execs[u]);
    }
  }

  lemma OtherRowsSame(before: Rows, after: Rows, t: Tid, u: Tid, pc: ExecPc)
    requires OnlyRow(before, after, t) && u != t && ExecOk(before, u, pc)
    ensures ExecOk(after, u, pc)
  {
  }

  lemma ExecsOwnRow(st: State, t: Tid, e: ExecStep, store: StoreOutcome)
    requires t in st.execs && ExecOk(st.rows, t, st.execs[t]) && CanExec(st, t, e)
    ensures var after := Executed(st, t, e, store);
            && OnlyRow(st.rows, after.rows, t) && after.execs == st.execs[t := after.execs[t]]
            && ExecOk(after.rows, t, after.execs[t])
  {
    match e {
      case MarkDispatch(n) => case MarkRun(k, n) => case EndDispatch(v) =>
      case Finalize(n, x) => case Complete => case Close =>
    }
  }

  lemma CancelKeeps(st: State, c: nat, e: CancelStep, store: StoreOutcome)
    requires Inv(st) && c in st.cancels && CanCancel(st, c, e)
    ensures Inv(Cancelled(st, c, e, store))
  {
    var after := Cancelled(st, c, e, store);
    CancelIds(st, c, e, store);
    assert after.submits == st.submits && after.records == st.records && after.used == st.used
        && after.execs == st.execs;
    MakersFollow(st, after);
    CancelExecs(st, c, e, store);
  }

  lemma MakersFollow(st: State, after: State)
    requires MakersOk(st) && after.submits == st.submits && after.records == st.records
    requires after.used == st.used && after.execs == st.execs
    ensures MakersOk(after)
  {
    forall s | s in after.submits
      ensures MakingOk(after, after.submits[s].pc)
    {
      assert MakingOk(st, st.submits[s].pc);
    }
  }

  lemma CancelIds(st: State, c: nat, e: CancelStep, store: StoreOutcome)
    requires IdsOk(st) && c in st.cancels && CanCancel(st, c, e)
    ensures IdsOk(Cancelled(st, c, e, store))
  {
    match e { case Inspect => case Write(n, x) => case Clear => case SignalDone => }
  }

  lemma CancelExecs(st: State, c: nat, e: CancelStep, store: StoreOutcome)
    requires ExecsOk(st) && c in st.cancels && CanCancel(st, c, e)
    ensures ExecsOk(Cancelled(st, c, e, store))
  {
    match e { case Inspect => case Write(n, x) => case Clear => case SignalDone => }
  }

  lemma BeginSubmitKeeps(st: State, s: nat, owner: string, request: string, mode: Mode)
    requires Inv(st) && s !in st.submits
    ensures Inv(Apply(st, BeginSubmit(s, owner, request, mode)))
  {
    hide OwnerScope.RequestKey, Text.Trim;
    var after := Apply(st, BeginSubmit(s, owner, request, mode));
    assert Making(Reserving) == None && MakingOk(after, Reserving);
    forall r | r in after.submits && r != s
      ensures MakingOk(after, after.submits[r].pc)
    {
      assert MakingOk(st, st.submits[r].pc);
    }
    hide MakingOk, Making;
  }

  lemma BeginCancelKeeps(st: State, c: nat, t: Tid, owner: string)
    requires Inv(st) && Enabled(st, BeginCancel(c, t, owner))
    ensures Inv(Apply(st, BeginCancel(c, t, owner)))
  {
    MakersFollow(st, Apply(st, BeginCancel(c, t, owner)));
    hide MakersOk;
  }

  lemma PruneKeeps(st: State, now: int)
    requires Inv(st)
    ensures Inv(Apply(st, Prune(now)))
  {
    MakersFollow(st, Apply(st, Prune(now)));
    hide MakersOk;
  }

  lemma StepKeepsInv(st: State, a: Action)
    requires Inv(st) && Enabled(st, a)
    ensures Inv(Apply(st, a))
  {
    hide IdsOk, MakersOk, ExecsOk, Submitted, Executed, Cancelled, NewSubmit;
    match a
    case BeginSubmit(s, owner, request, mode) => BeginSubmitKeeps(st, s, owner, request, mode);
    case Submitting(s, e, store) =>
      SubmitIds(st, s, e, store);
      SubmitMakers(st, s, e, store);
      SubmitExecs(st, s, e, store);
    case Executing(t, e, store) =>
      ExecIds(st, t, e, store);
      ExecMakers(st, t, e, store);
      ExecExecs(st, t, e, store);
    case BeginCancel(c, t, owner) => BeginCancelKeeps(st, c, t, owner);
    case Canceling(c, e, store) => CancelKeeps(st, c, e, store);
    case Prune(now) => PruneKeeps(st, now);
  }

  lemma {:induction false} RunKeepsInv(trace: seq<State>, actions: seq<Action>, i: nat)
    requires IsRun(trace, actions) && i < |trace|
    ensures Inv(trace[i])
  {
    if i > 0 {
      RunKeepsInv(trace, actions, i - 1);
      hide Inv, Enabled, Apply;
      StepKeepsInv(trace[i - 1], actions[i - 1]);
    }
  }

  // ---------- Rows over a run ----------

  /** Status moves forward only, a terminal row keeps its contents until it is pruned, and a pruned
      one does not come back. */
  ghost predicate Forward(before: Rows, after: Rows, used: set<Tid>) {
    && (forall t | t in before && t in after ::
          Rank(before[t].status) <= Rank(after[t].status) && (Terminal(before[t].status) ==> after[t] == before[t]))
    && (forall t | t in after && t in used :: t in before)
  }

  ghost predicate PrunesTerminal(before: Rows, after: Rows) {
    forall t | t in before && t !in after :: Terminal(before[t].status)
  }

  lemma ExecForward(st: State, t: Tid, e: ExecStep, store: StoreOutcome)
    requires ExecsOk(st) && t in st.execs && CanExec(st, t, e)
    ensures Forward(st.rows, Executed(st, t, e, store).rows, st.used)
    ensures PrunesTerminal(st.rows, Executed(st, t, e, store).rows)
    ensures Executed(st, t, e, store).used == st.used
  {
    assert ExecOk(st.rows, t, st.execs[t]);
    match e {
      case MarkDispatch(n) => case MarkRun(k, n) => case EndDispatch(v) =>
      case Finalize(n, x) => case Complete => case Close =>
    }
  }

  /** Inserting is all that submits do to rows. */
  lemma SubmitsOnlyInsert(st: State, s: nat, e: SubmitStep, store: StoreOutcome)
    requires s in st.submits && CanSubmit(st, s, e, store)
    ensures var x, after := st.submits[s], Submitted(st, s, e, store);
            && after.rows == (if e.Insert? && !store.Refuses? then Inserted(st.rows, e.t, x.owner, x.request, e.nowMs)
                              else st.rows)
            && after.used == (if e.Insert? then st.used + {e.t} else st.used)
            && after.cancels == st.cancels
  {
    hide Finds, CanEndWait, Shown, Inserted, Conflicts;
    if Makes(e) {
      match e { case Insert(t, now) => case Publish => case Unreserve => case Launch => }
    } else {
      OtherStepsOnlySubmit(st, s, e, store);
      hide Submitted;
    }
  }

  lemma StepForward(st: State, a: Action)
    requires Inv(st) && Enabled(st, a)
    ensures Forward(st.rows, Apply(st, a).rows, st.used) && st.used <= Apply(st, a).used
    ensures PrunesTerminal(st.rows, Apply(st, a).rows)
  {
    hide NewSubmit, Submitted, Executed, Cancelled;
    match a
    case BeginSubmit(s, owner, request, mode) =>
    case Submitting(s, e, store) => SubmitsOnlyInsert(st, s, e, store);
    case Executing(t, e, store) => ExecForward(st, t, e, store);
    case BeginCancel(c, t, owner) =>
    case Canceling(c, e, store) => CancelForward(st, c, e, store);
    case Prune(now) =>
  }

  lemma CancelForward(st: State, c: nat, e: CancelStep, store: StoreOutcome)
    requires c in st.cancels && CanCancel(st, c, e)
    ensures var after := Cancelled(st, c, e, store);
            Forward(st.rows, after.rows, st.used) && PrunesTerminal(st.rows, after.rows) && after.used == st.used
  {
    match e { case Inspect => case Write(n, x) => case Clear => case SignalDone => }
  }

  lemma {:induction false} RowsOnlyMoveForward(trace: seq<State>, actions: seq<Action>, i: nat, j: nat)
    requires IsRun(trace, actions) && i <= j < |trace|
    ensures Forward(trace[i].rows, trace[j].rows, trace[i].used) && trace[i].used <= trace[j].used
    decreases j - i
  {
    hide Inv, Enabled, Apply, Forward;
    RunKeepsInv(trace, actions, i);
    RowsAreUsed(trace[i]);
    if i < j {
      RowsOnlyMoveForward(trace, actions, i, j - 1);
      RunKeepsInv(trace, actions, j - 1);
      StepForward(trace[j - 1], actions[j - 1]);
      ForwardComposes(trace[i], trace[j - 1], trace[j]);
    }
  }

  lemma RowsAreUsed(st: State)
    requires Inv(st)
    ensures st.rows.Keys <= st.used && Forward(st.rows, st.rows, st.used)
  {
  }

  lemma ForwardComposes(a: State, b: State, c: State)
    requires a.rows.Keys <= a.used <= b.used
    requires Forward(a.rows, b.rows, a.used) && Forward(b.rows, c.rows, b.used)
    ensures Forward(a.rows, c.rows, a.used)
  {
  }

  /** The step applies a terminal write to the row of `t`, whatever the store reports. */
  predicate WritesTerminal(st: State, a: Action, t: Tid)
    requires Enabled(st, a)
  {
    match a
    case Executing(u, Finalize(_, _), store) => u == t && !store.Refuses? && Active(st.rows, t)
    case Canceling(c, Write(_, _), store) => st.cancels[c].t == t && !store.Refuses? && Active(st.rows, t)
    case _ => false
  }

  lemma WritingEndsIt(st: State, a: Action, t: Tid)
    requires Inv(st) && Enabled(st, a) && WritesTerminal(st, a, t)
    ensures t in Apply(st, a).rows && Terminal(Apply(st, a).rows[t].status)
  {
    if a.Executing? {
      assert ExecOk(st.rows, t, st.execs[t]);
    }
  }

  /** Each row takes at most one terminal write. */
  lemma OneTerminalWrite(trace: seq<State>, actions: seq<Action>, i: nat, j: nat, t: Tid)
    requires IsRun(trace, actions) && i < j < |actions|
    requires WritesTerminal(trace[i], actions[i], t)
    ensures !WritesTerminal(trace[j], actions[j], t)
  {
    RunKeepsInv(trace, actions, i);
    RunKeepsInv(trace, actions, i + 1);
    WritingEndsIt(trace[i], actions[i], t);
    RowsOnlyMoveForward(trace, actions, i + 1, j);
  }

  /** Every later terminal write that reaches the store changes nothing, and its writer is told so. */
  lemma LosingWritersAreTold(trace: seq<State>, actions: seq<Action>, i: nat, j: nat, t: Tid)
    requires IsRun(trace, actions) && i < j < |actions|
    requires WritesTerminal(trace[i], actions[i], t)
    ensures match actions[j]
            case Canceling(c, Write(_, _), Works) =>
              trace[j].cancels[c].t == t ==>
                trace[j + 1].rows == trace[j].rows && trace[j + 1].cancels[c].pc == Clearing(NotApplied)
            case Executing(u, Finalize(_, _), Works) =>
              u == t ==>
                && trace[j + 1].rows == trace[j].rows
                && trace[j + 1].execs[t] == Completing(if trace[j].execs[t].fallback then Critical else Stop)
            case _ => true
  {
    OneTerminalWrite(trace, actions, i, j, t);
    assert Enabled(trace[j], actions[j]) && trace[j + 1] == Apply(trace[j], actions[j]);
    hide IsRun;
  }

  /** However the store fails and whoever cancels, an executor that has returned leaves its row
      terminal or gone, or has called the critical hook. */
  lemma ReturnedMeansOverOrCritical(trace: seq<State>, actions: seq<Action>, i: nat, t: Tid)
    requires IsRun(trace, actions) && i < |trace| && t in trace[i].execs && trace[i].execs[t].Stopped?
    ensures Over(trace[i].rows, t) || trace[i].execs[t].critical
  {
    RunKeepsInv(trace, actions, i);
    assert ExecOk(trace[i].rows, t, trace[i].execs[t]);
  }

  // ---------- Reservations ----------

  predicate MayHold(pc: SubmitPc) {
    !pc.Reserving? && !pc.Launching? && !pc.Returned?
  }

  predicate MustHold(x: Submit) {
    match x.pc
    case Looking => true
    case Unreserving(_) => true
    case Relooking => x.request != ""
    case Checking => x.request != ""
    case Inserting => x.request != ""
    case Publishing(_) => x.request != ""
    case _ => false
  }

  predicate HoldOk(x: Submit) {
    (x.holds ==> MayHold(x.pc) && x.request != "") && (MustHold(x) ==> x.holds)
  }

  predicate HeldBy(submits: map<nat, Submit>, s: nat, key: string) {
    s in submits && submits[s].holds && submits[s].key == key
  }

  predicate HasReserved(reserved: map<string, nat>, s: nat, x: Submit) {
    x.holds ==> x.key in reserved && reserved[x.key] == s
  }

  ghost predicate HoldsOk(st: State) {
    && (forall s | s in st.submits :: HoldOk(st.submits[s]) && HasReserved(st.reserved, s, st.submits[s]))
    && (forall k | k in st.reserved :: HeldBy(st.submits, st.reserved[k], k))
  }

  /** A reservation of another submit is not touched by a step of this one. */
  lemma OthersKeepReserved(before: map<string, nat>, after: map<string, nat>, s: nat, key: string, r: nat, y: Submit)
    requires HasReserved(before, r, y) && r != s
    requires after == before || after == before - {key} || after == before[key := s]
    requires key in before ==> before[key] == s
    ensures HasReserved(after, r, y)
  {
  }

  /** What has to be shown of the step of one submit. */
  ghost predicate HoldStep(st: State, after: State, s: nat) {
    && s in st.submits && s in after.submits
    && after.submits == st.submits[s := after.submits[s]]
    && after.submits[s].key == st.submits[s].key && HoldOk(after.submits[s])
    && var key := st.submits[s].key;
       if after.submits[s].holds == st.submits[s].holds then after.reserved == st.reserved
       else if after.submits[s].holds then after.reserved == st.reserved[key := s] && key !in st.reserved
       else after.reserved == st.reserved - {key}
  }

  lemma HoldsFollow(st: State, after: State, s: nat)
    requires HoldsOk(st) && HoldStep(st, after, s)
    ensures HoldsOk(after)
  {
    hide HoldOk;
    var key := st.submits[s].key;
    assert HasReserved(st.reserved, s, st.submits[s]);
    forall r | r in after.submits && r != s
      ensures HasReserved(after.reserved, r, after.submits[r])
    {
      assert HasReserved(st.reserved, r, st.submits[r]);
      if after.reserved != st.reserved {
        OthersKeepReserved(st.reserved, after.reserved, s, key, r, st.submits[r]);
      }
    }
    forall k | k in after.reserved
      ensures HeldBy(after.submits, after.reserved[k], k)
    {
      assert k in st.reserved ==> HeldBy(st.submits, st.reserved[k], k);
    }
  }

  lemma SubmitHolds(st: State, s: nat, e: SubmitStep, store: StoreOutcome)
    requires HoldsOk(st) && s in st.submits && CanSubmit(st, s, e, store)
    ensures HoldsOk(Submitted(st, s, e, store))
  {
    assert HoldOk(st.submits[s]) && HasReserved(st.reserved, s, st.submits[s]);
    StepsHold(st, s, e, store);
    HoldsFollow(st, Submitted(st, s, e, store), s);
  }

  lemma StepsHold(st: State, s: nat, e: SubmitStep, store: StoreOutcome)
    requires s in st.submits && CanSubmit(st, s, e, store) && HoldOk(st.submits[s])
    ensures HoldStep(st, Submitted(st, s, e, store), s)
  {
    hide Submitted, CanSubmit, HoldStep, HoldOk;
    if Makes(e) {
      MakingStepsHold(st, s, e, store);
    } else if e.Reserve? || e.Leave? {
      TakingStepsHold(st, s, e, store);
    } else {
      PlainStepsHold(st, s, e, store);
    }
  }

  lemma TakingStepsHold(st: State, s: nat, e: SubmitStep, store: StoreOutcome)
    requires s in st.submits && CanSubmit(st, s, e, store) && HoldOk(st.submits[s]) && (e.Reserve? || e.Leave?)
    ensures HoldStep(st, Submitted(st, s, e, store), s)
  {
  }

  lemma MakingStepsHold(st: State, s: nat, e: SubmitStep, store: StoreOutcome)
    requires s in st.submits && CanSubmit(st, s, e, store) && HoldOk(st.submits[s]) && Makes(e)
    ensures HoldStep(st, Submitted(st, s, e, store), s)
  {
    hide Inserted, Conflicts;
    match e { case Insert(t, now) => case Publish => case Unreserve => case Launch => }
  }

  lemma PlainStepsHold(st: State, s: nat, e: SubmitStep, store: StoreOutcome)
    requires s in st.submits && CanSubmit(st, s, e, store) && HoldOk(st.submits[s])
    requires !Makes(e) && !e.Reserve? && !e.Leave?
    ensures HoldStep(st, Submitted(st, s, e, store), s)
  {
    hide Finds, CanEndWait, Shown;
    match e {
      case Lookup(found) => case Check(refusal) => case Relookup(found) => case Fetch => case Read =>
      case EndWait(ending) => case Reread =>
    }
  }
}
