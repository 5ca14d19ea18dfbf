/** Runtime records are released: once nobody is at work on a task any more, its record is out of the
    runtime map and its done signal is closed, however the store has failed. It takes a task that was
    still live when its record was published, or a cancel on its way to take the record. */
module TaskSignals {
  import opened Prelude
  import opened Tasks
  import opened TaskRuns
  import OwnerScope
  import Text

  // ---------- What becomes of a record ----------

  predicate TakesFor(x: Cancel, t: Tid) {
    x.t == t && (x.pc.Writing? || x.pc.Clearing?)
  }

  predicate ClosesFor(x: Cancel, t: Tid) {
    x.t == t && x.pc.Signalling?
  }

  predicate CancelTakes(cancels: map<nat, Cancel>, t: Tid) {
    exists c | c in cancels :: TakesFor(cancels[c], t)
  }

  predicate CancelCloses(cancels: map<nat, Cancel>, t: Tid) {
    exists c | c in cancels :: ClosesFor(cancels[c], t)
  }

  predicate ExecTakes(execs: map<Tid, ExecPc>, t: Tid) {
    t in execs && (execs[t].Finishing? || execs[t].Completing?)
  }

  predicate ExecCloses(execs: map<Tid, ExecPc>, t: Tid) {
    t in execs && execs[t].Closing?
  }

  /** A record that is still there when the task is over has somebody coming to take it, and one that
      has been taken has its signal closed or somebody about to close it. */
  predicate RecordOk(st: State, t: Tid) {
    && (if t in st.runtimes then Over(st.rows, t) ==> ExecTakes(st.execs, t) || CancelTakes(st.cancels, t)
        else t in st.closed || ExecCloses(st.execs, t) || CancelCloses(st.cancels, t))
    && (t in st.execs && st.execs[t] == Stopped(true) ==> t !in st.runtimes)
  }

  predicate Idle(x: Cancel, t: Tid) {
    x.t == t ==> x.pc.Inspecting? || x.pc.Answered?
  }

  predicate AllIdle(cancels: map<nat, Cancel>, t: Tid) {
    forall c | c in cancels :: Idle(cancels[c], t)
  }

  /** The task is over, its record is there, and nobody is coming for it. */
  predicate Doomed(st: State, t: Tid) {
    && t in st.runtimes && t !in st.closed && Over(st.rows, t) && AllIdle(st.cancels, t)
    && (t in st.execs ==> st.execs[t] == Marking || st.execs[t] == Stopped(false))
  }

  predicate Fate(st: State, t: Tid, safe: bool) {
    if safe then RecordOk(st, t) else Doomed(st, t)
  }

  /** The executor's first statement fails, so it will fall back and take the record. */
  predicate FailsToMark(a: Action, t: Tid) {
    a.Executing? && a.t == t && a.exec.MarkDispatch? && !a.store.Works?
  }

  // ---------- Steps ----------

  /** Nothing about the task changes, except that it may be launched or have a new cancel. */
  ghost predicate SameFor(st: State, after: State, t: Tid) {
    && (t in after.runtimes <==> t in st.runtimes) && (t in after.closed <==> t in st.closed)
    && (Over(after.rows, t) <==> Over(st.rows, t))
    && (if t in st.execs then t in after.execs && after.execs[t] == st.execs[t]
        else t in after.execs ==> after.execs[t] == Marking)
    && SameCancels(st.cancels, after.cancels, t)
  }

  ghost predicate SameCancels(before: map<nat, Cancel>, after: map<nat, Cancel>, t: Tid) {
    && (forall c | c in before && before[c].t == t :: c in after && after[c] == before[c])
    && (forall c | c in after && after[c].t == t :: (c in before && after[c] == before[c]) || after[c].pc.Inspecting?)
  }

  lemma CancelsFollow(before: map<nat, Cancel>, after: map<nat, Cancel>, t: Tid)
    requires SameCancels(before, after, t)
    ensures CancelTakes(before, t) ==> CancelTakes(after, t)
    ensures CancelCloses(before, t) ==> CancelCloses(after, t)
    ensures AllIdle(before, t) ==> AllIdle(after, t)
  {
    if CancelTakes(before, t) {
      var c :| c in before && TakesFor(before[c], t);
      assert TakesFor(after[c], t);
    }
    if CancelCloses(before, t) {
      var c :| c in before && ClosesFor(before[c], t);
      assert ClosesFor(after[c], t);
    }
    if AllIdle(before, t) {
      forall c | c in after
        ensures Idle(after[c], t)
      {
        assert c in before ==> Idle(before[c], t);
      }
    }
  }

  lemma FateFollows(st: State, after: State, t: Tid, safe: bool)
    requires Fate(st, t, safe) && SameFor(st, after, t)
    ensures Fate(after, t, safe)
  {
    hide CancelTakes, CancelCloses, AllIdle, SameCancels;
    CancelsFollow(st.cancels, after.cancels, t);
  }

  lemma ExecFate(st: State, t: Tid, e: ExecStep, store: StoreOutcome, safe: bool)
    requires IdsOk(st) && t in st.execs && ExecOk(st.rows, t, st.execs[t]) && CanExec(st, t, e) && Fate(st, t, safe)
    ensures Fate(Executed(st, t, e, store), t, safe || (e.MarkDispatch? && !store.Works?))
  {
    hide CancelTakes, CancelCloses, AllIdle;
    if safe {
      if e.MarkDispatch? || e.MarkRun? || e.EndDispatch? {
        ExecKeepsRecord(st, t, e, store);
      } else {
        ExecTakesRecord(st, t, e, store);
      }
    }
  }

  lemma ExecKeepsRecord(st: State, t: Tid, e: ExecStep, store: StoreOutcome)
    requires t in st.execs && ExecOk(st.rows, t, st.execs[t]) && CanExec(st, t, e) && RecordOk(st, t)
    requires e.MarkDispatch? || e.MarkRun? || e.EndDispatch?
    ensures RecordOk(Executed(st, t, e, store), t)
  {
    hide CancelTakes, CancelCloses;
    match e { case MarkDispatch(n) => case MarkRun(k, n) => case EndDispatch(v) => }
  }

  lemma ExecTakesRecord(st: State, t: Tid, e: ExecStep, store: StoreOutcome)
    requires IdsOk(st) && t in st.execs && ExecOk(st.rows, t, st.execs[t]) && CanExec(st, t, e) && RecordOk(st, t)
    requires e.Finalize? || e.Complete? || e.Close?
    ensures RecordOk(Executed(st, t, e, store), t)
  {
    hide CancelTakes, CancelCloses;
    match e { case Finalize(n, x) => case Complete => case Close => }
  }

  /** What one cancel of the task does, seen from the other cancels. */
  lemma OtherHelpersStay(before: map<nat, Cancel>, after: map<nat, Cancel>, c: nat, t: Tid)
    requires c in before && c in after && after == before[c := after[c]]
    ensures CancelTakes(before, t) && !TakesFor(before[c], t) ==> CancelTakes(after, t)
    ensures CancelCloses(before, t) && !ClosesFor(before[c], t) ==> CancelCloses(after, t)
    ensures TakesFor(after[c], t) ==> CancelTakes(after, t)
    ensures ClosesFor(after[c], t) ==> CancelCloses(after, t)
    ensures AllIdle(before, t) ==> Idle(before[c], t) && (Idle(after[c], t) ==> AllIdle(after, t))
  {
    if CancelTakes(before, t) && !TakesFor(before[c], t) {
      var d :| d in before && TakesFor(before[d], t);
      assert TakesFor(after[d], t);
    }
    if CancelCloses(before, t) && !ClosesFor(before[c], t) {
      var d :| d in before && ClosesFor(before[d], t);
      assert ClosesFor(after[d], t);
    }
    if AllIdle(before, t) && Idle(after[c], t) {
      forall d | d in after
        ensures Idle(after[d], t)
      {
        assert d in before && Idle(before[d], t);
      }
    }
  }

  lemma CancelFate(st: State, c: nat, e: CancelStep, store: StoreOutcome, safe: bool)
    requires IdsOk(st) && c in st.cancels && CanCancel(st, c, e) && Fate(st, st.cancels[c].t, safe)
    ensures Fate(Cancelled(st, c, e, store), st.cancels[c].t, safe)
  {
    hide CancelTakes, CancelCloses, AllIdle;
    var after, t := Cancelled(st, c, e, store), st.cancels[c].t;
    OtherHelpersStay(st.cancels, after.cancels, c, t);
    if safe {
      CancelKeepsRecord(st, c, e, store);
    } else {
      assert Idle(st.cancels[c], t);
      assert e.Inspect?;
    }
  }

  lemma CancelKeepsRecord(st: State, c: nat, e: CancelStep, store: StoreOutcome)
    requires IdsOk(st) && c in st.cancels && CanCancel(st, c, e) && RecordOk(st, st.cancels[c].t)
    ensures RecordOk(Cancelled(st, c, e, store), st.cancels[c].t)
  {
    hide CancelTakes, CancelCloses;
    var after, t := Cancelled(st, c, e, store), st.cancels[c].t;
    OtherHelpersStay(st.cancels, after.cancels, c, t);
    match e { case Inspect => case Write(n, x) => case Clear => case SignalDone => }
  }

  /** What other tasks' executors and cancels, and all submits, do is nothing to this task. */
  lemma OtherExecSame(st: State, u: Tid, e: ExecStep, store: StoreOutcome, t: Tid)
    requires u in st.execs && CanExec(st, u, e) && u != t
    ensures SameFor(st, Executed(st, u, e, store), t)
  {
    match e {
      case MarkDispatch(n) => case MarkRun(k, n) => case EndDispatch(v) =>
      case Finalize(n, x) => case Complete => case Close =>
    }
  }

  lemma OtherCancelSame(st: State, c: nat, e: CancelStep, store: StoreOutcome, t: Tid)
    requires c in st.cancels && CanCancel(st, c, e) && st.cancels[c].t != t
    ensures SameFor(st, Cancelled(st, c, e, store), t)
  {
    match e { case Inspect => case Write(n, x) => case Clear => case SignalDone => }
  }

  lemma SubmitSame(st: State, s: nat, e: SubmitStep, store: StoreOutcome, t: Tid)
    requires IdsOk(st) && MakersOk(st) && s in st.submits && CanSubmit(st, s, e, store) && t in st.records
    ensures SameFor(st, Submitted(st, s, e, store), t)
  {
    if Makes(e) {
      assert MakingOk(st, st.submits[s].pc);
      hide MakersOk;
      match e { case Insert(u, now) => case Publish => case Unreserve => case Launch => }
    } else {
      OtherStepsOnlySubmit(st, s, e, store);
      hide Submitted;
    }
  }

  lemma StepFate(st: State, a: Action, t: Tid, safe: bool)
    requires Inv(st) && Enabled(st, a) && t in st.records && Fate(st, t, safe)
    ensures t in Apply(st, a).records && Fate(Apply(st, a), t, safe || FailsToMark(a, t))
  {
    hide Submitted, Executed, Cancelled, NewSubmit, Fate, IdsOk, MakersOk, ExecsOk;
    RecordsStay(st, a);
    match a
    case Submitting(s, e, store) =>
      SubmitSame(st, s, e, store, t);
      FateFollows(st, Apply(st, a), t, safe);
    case Executing(u, e, store) =>
      if u == t {
        ExecutorIsOk(st, t);
        ExecFate(st, t, e, store, safe);
      } else {
        OtherExecSame(st, u, e, store, t);
        FateFollows(st, Apply(st, a), t, safe);
      }
    case Canceling(c, e, store) =>
      if st.cancels[c].t == t {
        CancelFate(st, c, e, store, safe);
      } else {
        OtherCancelSame(st, c, e, store, t);
        FateFollows(st, Apply(st, a), t, safe);
      }
    case _ => FateFollows(st, Apply(st, a), t, safe);
  }

  lemma ExecutorIsOk(st: State, t: Tid)
    requires ExecsOk(st) && t in st.execs
    ensures ExecOk(st.rows, t, st.execs[t])
  {
  }

  /** The step puts the record of the task into the map. */
  predicate Publishes(st: State, a: Action, t: Tid) {
    a.Submitting? && a.submit.Publish? && a.s in st.submits && st.submits[a.s].pc == Publishing(t)
  }

  lemma RecordsStay(st: State, a: Action)
    requires Enabled(st, a)
    ensures st.records <= Apply(st, a).records
    ensures forall t | t in Apply(st, a).records && t !in st.records :: Publishes(st, a, t)
  {
    hide NewSubmit, Submitted, Executed, Cancelled;
    match a
    case Submitting(s, e, store) => SubmitRecords(st, s, e, store);
    case Executing(u, e, store) => ExecRecords(st, u, e, store);
    case Canceling(c, e, store) => CancelRecords(st, c, e, store);
    case _ =>
  }

  lemma SubmitRecords(st: State, s: nat, e: SubmitStep, store: StoreOutcome)
    requires s in st.submits && CanSubmit(st, s, e, store)
    ensures Submitted(st, s, e, store).records == if e.Publish? then st.records + {st.submits[s].pc.t} else st.records
  {
    hide Inserted, Conflicts;
    if Makes(e) {
      match e { case Insert(u, now) => case Publish => case Unreserve => case Launch => }
    } else {
      OtherStepsOnlySubmit(st, s, e, store);
      hide Submitted;
    }
  }

  lemma ExecRecords(st: State, u: Tid, e: ExecStep, store: StoreOutcome)
    requires u in st.execs && CanExec(st, u, e)
    ensures Executed(st, u, e, store).records == st.records
  {
  }

  lemma CancelRecords(st: State, c: nat, e: CancelStep, store: StoreOutcome)
    requires c in st.cancels && CanCancel(st, c, e)
    ensures Cancelled(st, c, e, store).records == st.records
  {
  }

  // ---------- Publishing ----------

  /** When its record is published, the task is live, or a cancel is past its look at the row and has
      not yet come for the record. */
  predicate BornSafe(st: State, t: Tid) {
    Active(st.rows, t) || CancelTakes(st.cancels, t)
  }

  lemma PublishedFate(st: State, a: Action, t: Tid)
    requires Inv(st) && Enabled(st, a) && Publishes(st, a, t)
    ensures t in Apply(st, a).records && Fate(Apply(st, a), t, BornSafe(st, t))
  {
    assert MakingOk(st, st.submits[a.s].pc);
    hide MakersOk, ExecsOk;
    if !BornSafe(st, t) {
      forall c | c in st.cancels
        ensures Idle(st.cancels[c], t)
      {
        assert !TakesFor(st.cancels[c], t);
      }
    }
  }

  lemma {:induction false} FateOf(trace: seq<State>, actions: seq<Action>, p: nat, i: nat, t: Tid)
    requires IsRun(trace, actions) && p < i < |trace| && Publishes(trace[p], actions[p], t)
    ensures t in trace[i].records
    ensures Fate(trace[i], t, BornSafe(trace[p], t) || exists k | p < k < i :: FailsToMark(actions[k], t))
  {
    hide Enabled, Apply, Inv, Fate, BornSafe, Publishes, FailsToMark;
    RunKeepsInv(trace, actions, i - 1);
    if i == p + 1 {
      PublishedFate(trace[p], actions[p], t);
    } else {
      FateOf(trace, actions, p, i - 1, t);
      StepFate(trace[i - 1], actions[i - 1], t,
               BornSafe(trace[p], t) || exists k | p < k < i - 1 :: FailsToMark(actions[k], t));
    }
  }

  /** Every record was published at some step. */
  lemma {:induction false} PublishedBefore(trace: seq<State>, actions: seq<Action>, i: nat, t: Tid) returns (p: nat)
    requires IsRun(trace, actions) && i < |trace| && t in trace[i].records
    ensures p < i && Publishes(trace[p], actions[p], t)
  {
    hide Enabled, Apply, Publishes;
    RecordsStay(trace[i - 1], actions[i - 1]);
    if t in trace[i - 1].records {
      p := PublishedBefore(trace, actions, i - 1, t);
    } else {
      p := i - 1;
    }
  }

  // ---------- What holds of every run ----------

  /** Nobody is at work on the task: its executor has returned, and each cancel of it has yet to look
      at the row or has answered. */
  predicate AtRest(st: State, t: Tid) {
    t in st.execs && st.execs[t].Stopped? && AllIdle(st.cancels, t)
  }

  predicate Released(st: State, t: Tid) {
    t !in st.runtimes && t in st.closed
  }

  lemma NobodyComes(cancels: map<nat, Cancel>, t: Tid)
    requires AllIdle(cancels, t)
    ensures !CancelTakes(cancels, t) && !CancelCloses(cancels, t)
  {
    forall c | c in cancels
      ensures !TakesFor(cancels[c], t) && !ClosesFor(cancels[c], t)
    {
      assert Idle(cancels[c], t);
    }
  }

  /** Whatever the store does: at rest the record is out of the map and its signal closed exactly if
      the task was live or a cancel underway when its record was published, or the executor could not
      mark it; otherwise the record stays in the map with an open signal. */
  lemma ReleasedExactly(trace: seq<State>, actions: seq<Action>, i: nat, t: Tid) returns (p: nat)
    requires IsRun(trace, actions) && i < |trace| && AtRest(trace[i], t)
    ensures p < i && Publishes(trace[p], actions[p], t)
    ensures Released(trace[i], t) <==>
            BornSafe(trace[p], t) || exists k | p < k < i :: FailsToMark(actions[k], t)
    ensures !Released(trace[i], t) ==> t in trace[i].runtimes && t !in trace[i].closed
  {
    hide BornSafe, FailsToMark, Publishes, CancelTakes, CancelCloses, AllIdle, Enabled, Apply, MakersOk;
    RunKeepsInv(trace, actions, i);
    p := PublishedBefore(trace, actions, i, t);
    FateOf(trace, actions, p, i, t);
    NobodyComes(trace[i].cancels, t);
    ExecutorIsOk(trace[i], t);
  }

  // ---------- Clients that cancel only what they have been told of ----------

  /** Until its record is published, a task that nobody cancels is live. */
  ghost predicate BornLive(st: State, t: Tid) {
    && (forall c | c in st.cancels :: st.cancels[c].t != t)
    && (forall s | s in st.submits && st.submits[s].pc == Publishing(t) :: Active(st.rows, t))
  }

  lemma SubmitKeepsBornLive(st: State, s: nat, e: SubmitStep, store: StoreOutcome, t: Tid)
    requires IdsOk(st) && MakersOk(st) && BornLive(st, t) && s in st.submits && CanSubmit(st, s, e, store)
    ensures BornLive(Submitted(st, s, e, store), t)
  {
    if e.Insert? {
      InsertKeepsBornLive(st, s, e.t, e.nowMs, store, t);
    } else if Makes(e) {
      hide IdsOk, MakersOk;
      match e { case Publish => case Unreserve => case Launch => }
    } else {
      OtherStepsOnlySubmit(st, s, e, store);
      hide Submitted;
    }
  }

  lemma InsertKeepsBornLive(st: State, s: nat, u: Tid, now: int, store: StoreOutcome, t: Tid)
    requires IdsOk(st) && MakersOk(st) && BornLive(st, t) && s in st.submits && u !in st.used
    ensures BornLive(InsertedRow(st, s, u, now, store), t)
  {
    forall r | r in st.submits && st.submits[r].pc == Publishing(t)
      ensures t in st.used
    {
      assert MakingOk(st, st.submits[r].pc);
    }
    hide MakersOk, Conflicts;
  }

  lemma ExecKeepsBornLive(st: State, u: Tid, e: ExecStep, store: StoreOutcome, t: Tid)
    requires IdsOk(st) && MakersOk(st) && BornLive(st, t) && u in st.execs && CanExec(st, u, e)
    ensures BornLive(Executed(st, u, e, store), t)
  {
    forall s | s in st.submits && st.submits[s].pc == Publishing(t)
      ensures u != t
    {
      assert MakingOk(st, st.submits[s].pc);
    }
    hide MakersOk;
    match e {
      case MarkDispatch(n) => case MarkRun(k, n) => case EndDispatch(v) =>
      case Finalize(n, x) => case Complete => case Close =>
    }
  }

  lemma CancelKeepsBornLive(st: State, c: nat, e: CancelStep, store: StoreOutcome, t: Tid)
    requires BornLive(st, t) && c in st.cancels && CanCancel(st, c, e)
    ensures BornLive(Cancelled(st, c, e, store), t)
  {
    match e { case Inspect => case Write(n, x) => case Clear => case SignalDone => }
  }

  lemma StepKeepsBornLive(st: State, a: Action, t: Tid)
    requires Inv(st) && BornLive(st, t) && Enabled(st, a) && !(a.BeginCancel? && a.t == t)
    ensures BornLive(Apply(st, a), t)
  {
    hide NewSubmit, Submitted, Executed, Cancelled, IdsOk, MakersOk, ExecsOk;
    match a
    case BeginSubmit(s, owner, request, mode) => StartsReserving(owner, request, mode);
    case Submitting(s, e, store) => SubmitKeepsBornLive(st, s, e, store, t);
    case Executing(u, e, store) => ExecKeepsBornLive(st, u, e, store, t);
    case Canceling(c, e, store) => CancelKeepsBornLive(st, c, e, store, t);
    case BeginCancel(c, u, owner) =>
    case Prune(now) =>
  }

  lemma StartsReserving(owner: string, request: string, mode: Mode)
    ensures NewSubmit(owner, request, mode).pc == Reserving
  {
  }

  lemma {:induction false} RunKeepsBornLive(trace: seq<State>, actions: seq<Action>, i: nat, t: Tid)
    requires IsRun(trace, actions) && i < |trace|
    requires forall j | 0 <= j < i :: !(actions[j].BeginCancel? && actions[j].t == t)
    ensures BornLive(trace[i], t)
  {
    if i > 0 {
      hide Inv, BornLive, Enabled, Apply;
      RunKeepsBornLive(trace, actions, i - 1, t);
      RunKeepsInv(trace, actions, i - 1);
      StepKeepsBornLive(trace[i - 1], actions[i - 1], t);
    }
  }

  /** However the store has failed: if no cancel of the task began before its record was published,
      then at rest the record is out of the map and its signal closed, and no waiter is left behind. */
  lemma RecordsAreReleased(trace: seq<State>, actions: seq<Action>, i: nat, t: Tid)
    requires IsRun(trace, actions) && i < |trace| && AtRest(trace[i], t)
    requires forall j | 0 <= j < |actions| && actions[j].BeginCancel? && actions[j].t == t :: t in trace[j].records
    ensures Released(trace[i], t)
  {
    hide AtRest, Released, FailsToMark, CancelTakes, Enabled, Apply;
    var p := ReleasedExactly(trace, actions, i, t);
    forall j | 0 <= j < p
      ensures !(actions[j].BeginCancel? && actions[j].t == t)
    {
      if t in trace[j].records {
        RecordsLast(trace, actions, j, p, t);
        NotYetPublished(trace, actions, p, t);
      }
    }
    RunKeepsBornLive(trace, actions, p, t);
  }

  lemma {:induction false} RecordsLast(trace: seq<State>, actions: seq<Action>, j: nat, p: nat, t: Tid)
    requires IsRun(trace, actions) && j <= p < |trace| && t in trace[j].records
    ensures t in trace[p].records
    decreases p - j
  {
    hide Enabled, Apply, Publishes;
    if j < p {
      RecordsLast(trace, actions, j, p - 1, t);
      RecordsStay(trace[p - 1], actions[p - 1]);
    }
  }

  lemma NotYetPublished(trace: seq<State>, actions: seq<Action>, p: nat, t: Tid)
    requires IsRun(trace, actions) && p < |actions| && Publishes(trace[p], actions[p], t)
    ensures t !in trace[p].records
  {
    RunKeepsInv(trace, actions, p);
    assert MakingOk(trace[p], trace[p].submits[actions[p].s].pc);
  }

  // ---------- The assumption is needed ----------

  /** One more action at the end of a run. */
  lemma Extend(run: (seq<State>, seq<Action>), st: State, a: Action)
    returns (longer: (seq<State>, seq<Action>), end: State)
    requires IsRun(run.0, run.1) && run.0[|run.1|] == st && Enabled(st, a)
    ensures IsRun(longer.0, longer.1) && longer.0[|longer.1|] == end == Apply(st, a)
  {
    hide Enabled, Apply;
    longer, end := (run.0 + [Apply(st, a)], run.1 + [a]), Apply(st, a);
  }

  /** A cancel that is through between the insert and the publishing of its task leaves a record that
      nobody is going to take, with an open signal. */
  lemma EarlyCancelLeaksRecord() returns (run: (seq<State>, seq<Action>), st: State)
    ensures IsRun(run.0, run.1) && run.0[|run.1|] == st
    ensures AtRest(st, "t") && !Released(st, "t")
    ensures st.execs == map["t" := Stopped(false)]
    ensures st.cancels == map[0 := Cancel("t", "o", CancelPc.Answered(Applied))]
  {
    hide IsRun, OwnerScope.RequestKey, Text.Trim;
    run, st := InsertFirst();
    run, st := CanceledEarly(run, st);
    run, st := Extend(run, st, Submitting(0, Publish, Works));
    run, st := Extend(run, st, Submitting(0, Launch, Works));
    run, st := Extend(run, st, Executing("t", MarkDispatch(4), Works));
  }

  lemma CanceledEarly(was: (seq<State>, seq<Action>), before: State) returns (run: (seq<State>, seq<Action>), st: State)
    requires IsRun(was.0, was.1) && was.0[|was.1|] == before && before.cancels == map[] && before.runtimes == {}
    requires "t" in before.used && Active(before.rows, "t") && before.rows["t"].owner == "o"
    ensures IsRun(run.0, run.1) && run.0[|run.1|] == st
    ensures st == before.(rows := MarkTerminal(before.rows, "t", CanceledVerdict(), 2, 3),
                          cancels := map[0 := Cancel("t", "o", CancelPc.Answered(Applied))])
  {
    hide IsRun, MarkTerminal;
    run, st := Extend(was, before, BeginCancel(0, "t", "o"));
    run, st := Extend(run, st, Canceling(0, Inspect, Works));
    run, st := Extend(run, st, Canceling(0, Write(2, 3), Works));
    run, st := Extend(run, st, Canceling(0, Clear, Works));
    assert st.runtimes == {};
  }

  lemma InsertFirst() returns (run: (seq<State>, seq<Action>), st: State)
    ensures IsRun(run.0, run.1) && run.0[|run.1|] == st
    ensures st == INIT.(rows := map["t" := NewRow("o", "", 1)], used := {"t"}, makers := map["t" := 0],
                        submits := map[0 := NewSubmit("o", "", Async).(pc := Publishing("t"))])
  {
    hide OwnerScope.RequestKey, Text.Trim;
    Text.TrimTight("o");
    Text.TrimTight("");
    run, st := ([INIT], []), INIT;
    run, st := Extend(run, st, BeginSubmit(0, "o", "", Async));
    run, st := Extend(run, st, Submitting(0, Reserve, Works));
    run, st := Extend(run, st, Submitting(0, Check(None), Works));
    run, st := Extend(run, st, Submitting(0, Insert("t", 1), Works));
  }
}
