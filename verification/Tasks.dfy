/** Task rows and the code that moves them (task.go, tasks.sql.go). The functions are the guarded SQL
    statements, each atomic; the class is the executor's code, run against a store that may fail and
    against other goroutines that cancel, prune and insert at any time. */
module Tasks {
  import opened Prelude
  import opened Text

  type Tid = string

  datatype Status = Queued | Dispatched | Running | Succeeded | Failed | Timeout | Canceled

  datatype Row = Row(owner: string, request: string, status: Status, commandID: string, result: string,
                     errorCode: string, errorMessage: string,
                     updatedMs: int, completedMs: int, expiresMs: int)

  type Rows = map<Tid, Row>

  const DEFAULT_TASK_NO_WORKER_CODE := "no_worker"
  const DEFAULT_TASK_NO_CAPACITY_CODE := "no_capacity"
  const DEFAULT_TASK_CANCELED_CODE := "canceled"
  const DEFAULT_TASK_TIMEOUT_CODE := "timeout"
  const DEFAULT_TASK_DISPATCH_ERR_CODE := "dispatch_failed"
  const DEFAULT_TASK_PERSIST_ERR_CODE := "persistence_error"
  const OWNER_SCOPE_INVALID_PAYLOAD_CODE := "invalid_payload"
  const OWNER_SCOPE_INVALID_PAYLOAD_MESSAGE := "session_id owner mismatch"

  predicate Terminal(status: Status) {
    status.Succeeded? || status.Failed? || status.Timeout? || status.Canceled?
  }

  /** queued, dispatched, running, and then whichever end. */
  function Rank(status: Status): nat {
    match status
    case Queued => 0
    case Dispatched => 1
    case Running => 2
    case _ => 3
  }

  /** What a terminal write puts into a row. */
  datatype Verdict = Verdict(status: Status, result: string, errorCode: string, errorMessage: string)

  // ---------- The statements ----------

  predicate Active(rows: Rows, t: Tid) {
    t in rows && !Terminal(rows[t].status)
  }

  /** Terminal, pruned, or never there. */
  predicate Over(rows: Rows, t: Tid) {
    !Active(rows, t)
  }

  function MarkDispatched(rows: Rows, t: Tid, nowMs: int): Rows {
    if Active(rows, t) then rows[t := rows[t].(status := Dispatched, updatedMs := nowMs)] else rows
  }

  function MarkRunning(rows: Rows, t: Tid, commandID: string, nowMs: int): Rows {
    if Active(rows, t) then rows[t := rows[t].(status := Running, commandID := commandID, updatedMs := nowMs)] else rows
  }

  function MarkTerminal(rows: Rows, t: Tid, v: Verdict, completedMs: int, expiresMs: int): Rows {
    if Active(rows, t) then
      rows[t := rows[t].(status := v.status, result := v.result, errorCode := v.errorCode,
                         errorMessage := v.errorMessage, updatedMs := completedMs,
                         completedMs := completedMs, expiresMs := expiresMs)]
    else rows
  }

  /** The unique indexes: task_id, and (owner_id, request_id) where the request ID is not empty. */
  predicate Conflicts(rows: Rows, t: Tid, owner: string, request: string) {
    t in rows || (request != "" && exists u | u in rows :: rows[u].owner == owner && rows[u].request == request)
  }

  function NewRow(owner: string, request: string, nowMs: int): Row {
    Row(owner, request, Queued, "", "", "", "", nowMs, 0, 0)
  }

  function Inserted(rows: Rows, t: Tid, owner: string, request: string, nowMs: int): Rows {
    if Conflicts(rows, t, owner, request) then rows else rows[t := NewRow(owner, request, nowMs)]
  }

  predicate Prunable(row: Row, nowMs: int) {
    Terminal(row.status) && 0 < row.expiresMs <= nowMs
  }

  function DeleteExpired(rows: Rows, nowMs: int): Rows {
    map t | t in rows && !Prunable(rows[t], nowMs) :: rows[t]
  }

  /** Of the task IDs in `used`, those that are over stay over, untouched until pruned. */
  ghost predicate StaysOver(before: Rows, after: Rows, used: set<Tid>) {
    forall t | t in used && Over(before, t) :: Over(after, t) && (t in after ==> t in before && after[t] == before[t])
  }

  /** Whatever moves rows leaves what is over alone. */
  lemma StatementsLeaveTheOverAlone(rows: Rows, t: Tid, used: set<Tid>, v: Verdict, commandID: string,
                                    owner: string, request: string, nowMs: int, expiresMs: int)
    ensures StaysOver(rows, MarkDispatched(rows, t, nowMs), used)
    ensures StaysOver(rows, MarkRunning(rows, t, commandID, nowMs), used)
    ensures StaysOver(rows, MarkTerminal(rows, t, v, nowMs, expiresMs), used)
    ensures StaysOver(rows, DeleteExpired(rows, nowMs), used)
    ensures t !in used ==> StaysOver(rows, Inserted(rows, t, owner, request, nowMs), used)
  {
  }

  lemma StaysOverComposes(a: Rows, b: Rows, c: Rows, used: set<Tid>, more: set<Tid>)
    requires StaysOver(a, b, used) && StaysOver(b, c, more) && used <= more
    ensures StaysOver(a, c, used)
  {
  }

  // ---------- Verdicts ----------

  datatype DispatchError =
    | NoCapabilityWorker
    | NoWorkerCapacity
    | DeadlineExceeded
    | ContextCanceled
    | CommandFailed(code: string, message: string)
    | Other(message: string)

  /** What dispatchCommand came back with; a payload has already been put into JSON form, and `scoped`
      is what the owner-scope restoration made of it. */
  datatype DispatchOutcome =
    | DispatchFailed(error: DispatchError)
    | Answered(scoped: Option<string>)

  function CanceledVerdict(): Verdict {
    Verdict(Canceled, "", DEFAULT_TASK_CANCELED_CODE, "task canceled")
  }

  function PersistFailedVerdict(): Verdict {
    Verdict(Failed, "", DEFAULT_TASK_PERSIST_ERR_CODE, "failed to persist task state")
  }

  function ErrorVerdict(e: DispatchError): Verdict {
    match e
    case NoCapabilityWorker => Verdict(Failed, "", DEFAULT_TASK_NO_WORKER_CODE, "no online worker supports capability")
    case NoWorkerCapacity =>
      Verdict(Failed, "", DEFAULT_TASK_NO_CAPACITY_CODE, "no online worker capacity for capability")
    case DeadlineExceeded => Verdict(Timeout, "", DEFAULT_TASK_TIMEOUT_CODE, "task timed out")
    case ContextCanceled => CanceledVerdict()
    case CommandFailed(code, message) =>
      Verdict(Failed, "", if Trim(code) == "" then DEFAULT_TASK_DISPATCH_ERR_CODE else Trim(code), message)
    case Other(message) => Verdict(Failed, "", DEFAULT_TASK_DISPATCH_ERR_CODE, message)
  }

  function VerdictOf(o: DispatchOutcome): Verdict {
    match o
    case DispatchFailed(e) => ErrorVerdict(e)
    case Answered(None) => Verdict(Failed, "", OWNER_SCOPE_INVALID_PAYLOAD_CODE, OWNER_SCOPE_INVALID_PAYLOAD_MESSAGE)
    case Answered(Some(payload)) => Verdict(Succeeded, payload, "", "")
  }

  predicate ErrorIs(row: Row, code: string, message: string) {
    row.errorCode == code && row.errorMessage == message
  }

  /** The row tells its reader what dispatch came back with: the payload itself, exactly if there is one
      in the task's own scope; a timeout exactly for a missed deadline, a cancel exactly for a canceled
      context; and for every other failure its own code, the worker's own if it gave one. */
  predicate Reports(row: Row, o: DispatchOutcome) {
    && (row.status == Succeeded <==> o.Answered? && o.scoped.Some?)
    && (row.status == Succeeded ==> row.result == o.scoped.value && ErrorIs(row, "", ""))
    && (row.status != Succeeded ==> row.result == "")
    && (row.status == Timeout <==> o == DispatchFailed(DeadlineExceeded))
    && (row.status == Timeout ==> ErrorIs(row, "timeout", "task timed out"))
    && (row.status == Canceled <==> o == DispatchFailed(ContextCanceled))
    && (row.status == Canceled ==> ErrorIs(row, "canceled", "task canceled"))
    && (o == Answered(None) ==> row.status == Failed && ErrorIs(row, "invalid_payload", "session_id owner mismatch"))
    && (o == DispatchFailed(NoCapabilityWorker) ==>
          row.status == Failed && ErrorIs(row, "no_worker", "no online worker supports capability"))
    && (o == DispatchFailed(NoWorkerCapacity) ==>
          row.status == Failed && ErrorIs(row, "no_capacity", "no online worker capacity for capability"))
    && (o.DispatchFailed? && o.error.CommandFailed? ==>
          && row.status == Failed
          && var code := Trim(o.error.code);
             ErrorIs(row, if code == "" then "dispatch_failed" else code, Trim(o.error.message)))
    && (o.DispatchFailed? && o.error.Other? ==>
          row.status == Failed && ErrorIs(row, "dispatch_failed", Trim(o.error.message)))
  }

  lemma TightText(s: string)
    requires s != "" && !IsSpace(s[0]) && !IsSpace(s[|s| - 1])
    ensures Trim(s) == s
  {
    hide Trim;
    TrimTight(s);
  }

  lemma TrimmedOnce(s: string)
    ensures Trim(Trim(s)) == Trim(s) && Trim("") == ""
  {
    TrimTight(s);
    TrimTight(Trim(s));
    TrimTight("");
    hide Trim;
  }

  lemma VerdictsEnd(o: DispatchOutcome)
    ensures Terminal(VerdictOf(o).status)
  {
    hide Trim;
  }

  /** A row that carries a verdict as stored is terminal and reports what the verdict stands for. */
  lemma VerdictsReport(o: DispatchOutcome, row: Row)
    ensures Carries(row, Stored(VerdictOf(o))) ==> Terminal(row.status) && Reports(row, o)
  {
    hide Trim, ErrorVerdict;
    TrimmedOnce("");
    match o {
      case Answered(scoped) => TightText("invalid_payload"); TightText("session_id owner mismatch");
      case DispatchFailed(e) => ErrorsReport(e, row);
    }
  }

  lemma ErrorsReport(e: DispatchError, row: Row)
    ensures Carries(row, Stored(ErrorVerdict(e))) ==> Terminal(row.status) && Reports(row, DispatchFailed(e))
  {
    hide Trim;
    TrimmedOnce("");
    TightText("dispatch_failed");
    match e {
      case NoCapabilityWorker => TightText("no_worker"); TightText("no online worker supports capability");
      case NoWorkerCapacity => TightText("no_capacity"); TightText("no online worker capacity for capability");
      case DeadlineExceeded => TightText("timeout"); TightText("task timed out");
      case ContextCanceled => TightText("canceled"); TightText("task canceled");
      case CommandFailed(code, message) => TrimmedOnce(code);
      case Other(message) =>
    }
  }

  /** The row as the store trims it on a terminal write. */
  function Stored(v: Verdict): Verdict {
    v.(errorCode := Trim(v.errorCode), errorMessage := Trim(v.errorMessage))
  }

  // ---------- The code ----------

  datatype Statement =
    | Dispatch(nowMs: int)
    | Run(commandID: string, nowMs: int)
    | Finish(verdict: Verdict, completedMs: int, expiresMs: int)

  function Effect(rows: Rows, t: Tid, statement: Statement): Rows {
    match statement
    case Dispatch(now) => MarkDispatched(rows, t, now)
    case Run(command, now) => MarkRunning(rows, t, command, now)
    case Finish(v, completed, expires) => MarkTerminal(rows, t, v, completed, expires)
  }

  lemma EffectLeavesTheOverAlone(rows: Rows, t: Tid, statement: Statement, used: set<Tid>)
    ensures StaysOver(rows, Effect(rows, t, statement), used)
    ensures Effect(rows, t, statement).Keys == rows.Keys
    ensures Over(rows, t) ==> Effect(rows, t, statement) == rows
    ensures statement.Finish? && Terminal(statement.verdict.status) ==> Over(Effect(rows, t, statement), t)
  {
  }

  datatype TaskError = TransitionNotApplied | StoreFailed | TaskNotFound | AlreadyTerminal(row: Row)

  /** How the store treats one statement: as asked, not at all, or as asked but reporting an error. */
  datatype StoreOutcome = Works | Refuses | Forgets

  class TaskRecord {
    var done: bool

    constructor ()
      ensures !done
    {
      done := false;
    }
  }

  class TaskService {
    var rows: Rows
    var used: set<Tid>
    var runtimes: map<Tid, TaskRecord>
    var criticalFailures: nat
    const retentionMs: int

    /** The terminal writes that this goroutine's statements have made, whatever the store reported. */
    ghost var wrote: seq<(Tid, Verdict)>

    constructor (retentionMs: int)
      ensures Valid() && rows == map[] && runtimes == map[] && criticalFailures == 0 && wrote == []
    {
      rows, used, runtimes, criticalFailures, wrote := map[], {}, map[], 0, [];
      this.retentionMs := retentionMs;
    }

    ghost predicate Valid()
      reads this`rows, this`used
    {
      rows.Keys <= used
    }

    /** Other goroutines: cancels, prunes and inserts, in any number; none if the call is `quiet`. */
    method Others(quiet: bool)
      requires Valid()
      modifies this`rows, this`used, this`runtimes
      ensures Valid() && old(used) <= used
      ensures StaysOver(old(rows), rows, old(used))
      ensures forall t | t in runtimes :: t in old(runtimes) && runtimes[t] == old(runtimes)[t]
      ensures quiet ==> rows == old(rows) && used == old(used) && runtimes == old(runtimes)
    {
      var turns: int := *;
      if quiet || turns < 0 {
        turns := 0;
      }
      for i := 0 to turns
        invariant Valid() && old(used) <= used
        invariant StaysOver(old(rows), rows, old(used))
        invariant forall t | t in runtimes :: t in old(runtimes) && runtimes[t] == old(runtimes)[t]
        invariant quiet ==> rows == old(rows) && used == old(used) && runtimes == old(runtimes)
      {
        var t: Tid, v: Verdict, owner: string, request: string, now: int, expires: int := *, *, *, *, *, *;
        StatementsLeaveTheOverAlone(rows, t, used, v, "", owner, request, now, expires);
        ghost var before, known := rows, used;
        if * {
          if Terminal(v.status) {
            rows := MarkTerminal(rows, t, v, now, expires);
            runtimes := runtimes - {t};
          }
        } else if * {
          rows := DeleteExpired(rows, now);
        } else if t !in used {
          rows := Inserted(rows, t, owner, request, now);
          used := used + {t};
        }
        StaysOverComposes(old(rows), before, rows, old(used), known);
      }
    }

    /** One guarded statement: how many rows it changed, or the store's error. */
    method Exec(t: Tid, statement: Statement, quiet: bool) returns (r: Result<nat, TaskError>)
      requires Valid() && t in used
      modifies this`rows, this`used, this`runtimes, this`wrote
      ensures Valid() && old(used) <= used
      ensures StaysOver(old(rows), rows, old(used))
      ensures forall u | u in runtimes :: u in old(runtimes) && runtimes[u] == old(runtimes)[u]
      ensures r.Err? ==> r.error == StoreFailed
      ensures r == Ok(0) ==> Over(rows, t)
      ensures r.Ok? && statement.Finish? && Terminal(statement.verdict.status) ==> Over(rows, t)
      ensures r.Ok? && r.value != 0 && statement.Finish? ==>
                && t in rows && Carries(rows[t], statement.verdict) && wrote == old(wrote) + [(t, statement.verdict)]
                && rows[t].updatedMs == rows[t].completedMs == statement.completedMs
                && rows[t].expiresMs == statement.expiresMs
      ensures r == Ok(0) || !statement.Finish? || Over(old(rows), t) ==> wrote == old(wrote)
      ensures wrote == old(wrote)
           || (wrote == old(wrote) + [(t, statement.verdict)] && (Terminal(statement.verdict.status) ==> Over(rows, t)))
      ensures quiet ==>
                && r == Ok(if Active(old(rows), t) then 1 else 0)
                && rows == Effect(old(rows), t, statement) && runtimes == old(runtimes)
    {
      Others(quiet);
      var outcome: StoreOutcome := *;
      if quiet {
        outcome := Works;
      }
      if outcome.Refuses? {
        return Err(StoreFailed);
      }
      EffectLeavesTheOverAlone(rows, t, statement, used);
      ghost var before := rows;
      var affected := if t in rows && !Terminal(rows[t].status) then 1 else 0;
      if statement.Finish? && Active(rows, t) {
        wrote := wrote + [(t, statement.verdict)];
      }
      rows := Effect(rows, t, statement);
      StaysOverComposes(old(rows), before, rows, old(used), used);
      if outcome.Forgets? {
        return Err(StoreFailed);
      }
      return Ok(affected);
    }

    method FinishTask(t: Tid, v: Verdict, completedMs: int, quiet: bool) returns (e: Option<TaskError>)
      requires Valid() && t in used && Terminal(v.status)
      modifies this`rows, this`used, this`runtimes, this`wrote, runtimes.Values
      ensures Valid() && old(used) <= used
      ensures StaysOver(old(rows), rows, old(used))
      ensures forall u | u in runtimes :: u in old(runtimes) && runtimes[u] == old(runtimes)[u]
      ensures t !in runtimes
      ensures e.None? ==>
                && Over(rows, t) && t in rows && Carries(rows[t], Stored(v))
                && rows[t].updatedMs == rows[t].completedMs == completedMs
                && rows[t].expiresMs == completedMs + retentionMs
      ensures e.None? ==> wrote == old(wrote) + [(t, Stored(v))]
      ensures e == Some(TransitionNotApplied) ==> Over(rows, t)
      ensures e == Some(TransitionNotApplied) || Over(old(rows), t) ==> wrote == old(wrote)
      ensures wrote == old(wrote) || (wrote == old(wrote) + [(t, Stored(v))] && Over(rows, t))
      ensures e.Some? ==> e.value == TransitionNotApplied || e.value == StoreFailed
      ensures quiet ==>
                && rows == MarkTerminal(old(rows), t, Stored(v), completedMs, completedMs + retentionMs)
                && (Active(old(rows), t) ==> t in rows && rows == old(rows)[t := rows[t]])
                && (Over(old(rows), t) ==> rows == old(rows))
                && e == (if Active(old(rows), t) then None else Some(TransitionNotApplied))
                && (t in old(runtimes) ==> old(runtimes)[t].done)
    {
      hide Trim, StaysOver;
      var r := Exec(t, Finish(Stored(v), completedMs, completedMs + retentionMs), quiet);
      CompleteTaskRuntime(t);
      if r.Err? {
        return Some(StoreFailed);
      }
      if r.value == 0 {
        return Some(TransitionNotApplied);
      }
      return None;
    }

    method CompleteTaskRuntime(t: Tid)
      modifies this`runtimes, if t in runtimes then {runtimes[t]} else {}
      ensures runtimes == old(runtimes) - {t}
      ensures t in old(runtimes) ==> old(runtimes)[t].done
    {
      if t in runtimes {
        var record := runtimes[t];
        runtimes := runtimes - {t};
        record.done := true;
      }
    }

    /** The fallback: one more terminal write; if that is not applied either, the critical hook. */
    method FailTaskOnPersistenceError(t: Tid, nowMs: int, quiet: bool)
      requires Valid() && t in used
      modifies this`rows, this`used, this`runtimes, this`wrote, this`criticalFailures, runtimes.Values
      ensures Valid() && old(used) <= used
      ensures StaysOver(old(rows), rows, old(used))
      ensures t !in runtimes
      ensures criticalFailures == old(criticalFailures) || criticalFailures == old(criticalFailures) + 1
      ensures criticalFailures == old(criticalFailures) ==>
                && Over(rows, t) && t in rows && rows[t].status == Failed && rows[t].errorCode == "persistence_error"
                && rows[t].expiresMs == nowMs + retentionMs
      ensures |wrote| <= |old(wrote)| + 1 && (Over(old(rows), t) ==> wrote == old(wrote))
    {
      var e := FinishTask(t, PersistFailedVerdict(), nowMs, quiet);
      PersistCodeIsTight();
      if e.Some? {
        criticalFailures := criticalFailures + 1;
      }
    }

    /** The terminal write of the executor: when the store fails, the fallback. */
    method FinishOrFallBack(t: Tid, v: Verdict, nowMs: int, completedMs: int, quiet: bool)
      requires Valid() && t in used && Terminal(v.status)
      modifies this`rows, this`used, this`runtimes, this`wrote, this`criticalFailures, runtimes.Values
      ensures Valid() && old(used) <= used && StaysOver(old(rows), rows, old(used))
      ensures t !in runtimes
      ensures Over(rows, t) || criticalFailures > old(criticalFailures)
      ensures |wrote| <= |old(wrote)| + 1
      ensures quiet ==>
                && rows == MarkTerminal(old(rows), t, Stored(v), completedMs, completedMs + retentionMs)
                && criticalFailures == old(criticalFailures)
                && (t in old(runtimes) ==> old(runtimes)[t].done)
    {
      hide Trim, StaysOver, Stored;
      var e := FinishTask(t, v, completedMs, quiet);
      if e == Some(StoreFailed) {
        ghost var failed, known := rows, used;
        FailTaskOnPersistenceError(t, nowMs, quiet);
        StaysOverComposes(old(rows), failed, rows, old(used), known);
      }
    }

    /** From the dispatch mark to the terminal write. `started` is the command ID handed to the
        callback, if dispatch got that far; `outcome` is what dispatch returned. */
    method ExecuteTask(t: Tid, started: Option<string>, outcome: DispatchOutcome,
                       nowMs: int, completedMs: int, quiet: bool)
      requires Valid() && t in used
      modifies this`rows, this`used, this`runtimes, this`wrote, this`criticalFailures, runtimes.Values
      ensures Valid() && StaysOver(old(rows), rows, old(used))
      ensures Over(rows, t) || criticalFailures > old(criticalFailures)
      ensures |wrote| <= |old(wrote)| + 1
      ensures quiet ==> criticalFailures == old(criticalFailures)
      ensures quiet && Over(old(rows), t) ==> rows == old(rows) && runtimes == old(runtimes)
      ensures quiet && Active(old(rows), t) ==>
                && t in rows && rows == old(rows)[t := rows[t]]
                && Reports(rows[t], outcome)
                && rows[t].completedMs == completedMs && rows[t].expiresMs == completedMs + retentionMs
                && rows[t].updatedMs == completedMs
                && rows[t].owner == old(rows)[t].owner && rows[t].request == old(rows)[t].request
                && rows[t].commandID == (if started.Some? then Trim(started.value) else old(rows)[t].commandID)
                && t !in runtimes && (t in old(runtimes) ==> old(runtimes)[t].done)
    {
      hide Trim, StaysOver, Stored, VerdictOf, Reports;
      var marked := Exec(t, Dispatch(nowMs), quiet);
      if marked == Ok(0) {
        return;
      }
      ghost var dispatched, used0 := rows, used;
      if marked.Err? {
        FailTaskOnPersistenceError(t, nowMs, quiet);
        StaysOverComposes(old(rows), dispatched, rows, old(used), used0);
        return;
      }
      if started.Some? {
        marked := Exec(t, Run(Trim(started.value), nowMs), quiet);
        StaysOverComposes(old(rows), dispatched, rows, old(used), used0);
        if marked == Ok(0) {
          return;
        }
        ghost var running, used1 := rows, used;
        if marked.Err? {
          FailTaskOnPersistenceError(t, nowMs, quiet);
          StaysOverComposes(old(rows), running, rows, old(used), used1);
          return;
        }
      }
      VerdictsEnd(outcome);
      ghost var before, used2 := rows, used;
      FinishOrFallBack(t, VerdictOf(outcome), nowMs, completedMs, quiet);
      if quiet && Active(before, t) {
        VerdictsReport(outcome, rows[t]);
      }
      StaysOverComposes(old(rows), before, rows, old(used), used2);
    }

    /** Whoever interferes, a cancel that reports success has itself written the row it returns, and one
        that reports that the task was over before has written nothing. */
    method CancelTask(t: Tid, owner: string, nowMs: int, quiet: bool) returns (r: Result<Row, TaskError>)
      requires Valid()
      modifies this`rows, this`used, this`runtimes, this`wrote, runtimes.Values
      ensures Valid() && StaysOver(old(rows), rows, old(used))
      ensures r.Ok? ==>
                && Over(rows, t) && wrote == old(wrote) + [(t, Stored(CanceledVerdict()))]
                && r.value.status == Canceled && ErrorIs(r.value, "canceled", "task canceled") && r.value.result == ""
                && r.value.updatedMs == r.value.completedMs == nowMs && r.value.expiresMs == nowMs + retentionMs
      ensures r.Err? && r.error.AlreadyTerminal? ==>
                Over(rows, t) && Terminal(r.error.row.status) && r.error.row.owner == owner && wrote == old(wrote)
      ensures quiet ==>
                var mine := t in old(rows) && old(rows)[t].owner == owner;
                if !mine then r == Err(TaskNotFound) && rows == old(rows)
                else if Over(old(rows), t) then r == Err(AlreadyTerminal(old(rows)[t])) && rows == old(rows)
                else r.Ok? && rows == old(rows)[t := r.value]
    {
      hide StaysOver, Trim;
      Others(quiet);
      if t !in rows || rows[t].owner != owner {
        return Err(TaskNotFound);
      }
      if Terminal(rows[t].status) {
        return Err(AlreadyTerminal(rows[t]));
      }
      ghost var read, used0 := rows, used;
      var e := FinishTask(t, CanceledVerdict(), nowMs, quiet);
      StaysOverComposes(old(rows), read, rows, old(used), used0);
      ghost var written, used1 := rows, used;
      Others(quiet);
      StaysOverComposes(old(rows), written, rows, old(used), used1);
      OverStays(written, rows, used1, t);
      TightText("canceled");
      TightText("task canceled");
      if e == Some(TransitionNotApplied) {
        if t !in rows || rows[t].owner != owner {
          return Err(TaskNotFound);
        }
        if Terminal(rows[t].status) {
          return Err(AlreadyTerminal(rows[t]));
        }
      }
      if e.Some? {
        return Err(e.value);
      }
      if t !in rows {
        return Err(TaskNotFound);
      }
      return Ok(rows[t]);
    }
  }

  /** The row shows exactly this verdict. */
  predicate Carries(row: Row, v: Verdict) {
    && row.status == v.status && row.result == v.result
    && row.errorCode == v.errorCode && row.errorMessage == v.errorMessage
  }

  lemma PersistCodeIsTight()
    ensures Trim(DEFAULT_TASK_PERSIST_ERR_CODE) == DEFAULT_TASK_PERSIST_ERR_CODE
  {
    hide Trim;
    TrimTight(DEFAULT_TASK_PERSIST_ERR_CODE);
  }

  lemma OverStays(before: Rows, after: Rows, used: set<Tid>, t: Tid)
    requires StaysOver(before, after, used) && t in used
    ensures Over(before, t) ==> Over(after, t) && (t in after ==> t in before && after[t] == before[t])
  {
  }
}
