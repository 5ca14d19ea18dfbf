/** What the callers of the task service are told, over whole runs and whatever the store does: each
    submit's reply and each cancel's outcome is what one of its own steps found, the tasks they are told
    about are their owner's, and what a finished row says is what its one writer had to say, until it
    expires. */
module TaskAnswers {
  import opened Prelude
  import opened Tasks
  import opened TaskRuns
  import opened TaskWaiters
  import OwnerScope
  import Text

  // ---------- Reservations ----------

  predicate HoldsRequest(x: Submit, owner: string, request: string) {
    x.holds && x.owner == owner && x.request == request
  }

  /** Two submits have one key exactly if they are of one request of one owner. */
  predicate KeysAgree(x: Submit, y: Submit) {
    x.key == y.key <==> x.owner == y.owner && x.request == y.request
  }

  lemma KeysAgreeInRuns(trace: seq<State>, actions: seq<Action>, i: nat, s: nat)
    requires IsRun(trace, actions) && i < |trace| && s in trace[i].submits
    requires forall r | r in trace[i].submits :: '\0' !in trace[i].submits[r].owner
    ensures forall r | r in trace[i].submits :: KeysAgree(trace[i].submits[s], trace[i].submits[r])
  {
    RunHolds(trace, actions, i);
    hide IsRun, HoldsOk, OwnerScope.KeyOf, OwnerScope.RequestKey, Text.Trim;
    var x := trace[i].submits[s];
    assert KeyOk(x);
    Text.TrimTight(x.owner);
    Text.TrimTight(x.request);
    OwnerScope.KeyOfTrimmed(x.owner, x.request);
    forall r | r in trace[i].submits
      ensures KeysAgree(x, trace[i].submits[r])
    {
      var y := trace[i].submits[r];
      assert KeyOk(y);
      Text.TrimTight(y.owner);
      Text.TrimTight(y.request);
      OwnerScope.KeyOfTrimmed(y.owner, y.request);
      OwnerScope.KeysTellRequestsApart(x.owner, x.request, y.owner, y.request);
    }
  }

  /** A submit is told that its request is in progress exactly if another submit of the same trimmed
      owner and request holds a reservation at that moment. */
  lemma InProgressExactly(trace: seq<State>, actions: seq<Action>, i: nat, s: nat)
    requires IsRun(trace, actions) && i < |actions|
    requires actions[i].Submitting? && actions[i].s == s && actions[i].submit.Reserve?
    requires forall r | r in trace[i].submits :: '\0' !in trace[i].submits[r].owner
    ensures s in trace[i].submits && s in trace[i + 1].submits
    ensures var x := trace[i].submits[s];
            trace[i + 1].submits[s].pc == Leaving(InProgress) <==>
            x.request != ""
            && exists r | r in trace[i].submits :: r != s && HoldsRequest(trace[i].submits[r], x.owner, x.request)
  {
    hide HoldsOk, KeysOk, OwnerScope.RequestKey, Submitted, Executed, Cancelled, NewSubmit;
    RunHolds(trace, actions, i);
    assert Enabled(trace[i], actions[i]) && trace[i + 1] == Apply(trace[i], actions[i]);
    KeysAgreeInRuns(trace, actions, i, s);
    ReservedByAnother(trace[i], s);
    ReserveAnswers(trace[i], s, actions[i].store);
  }

  lemma ReserveAnswers(st: State, s: nat, store: StoreOutcome)
    requires s in st.submits && CanSubmit(st, s, Reserve, store)
    ensures s in Submitted(st, s, Reserve, store).submits
    ensures Submitted(st, s, Reserve, store).submits[s].pc == Leaving(InProgress) <==>
            st.submits[s].request != "" && st.submits[s].key in st.reserved
  {
  }

  /** The key of a submit about to reserve is taken exactly if another submit holds its request. */
  lemma ReservedByAnother(st: State, s: nat)
    requires HoldsOk(st) && s in st.submits && st.submits[s].pc.Reserving?
    requires forall r | r in st.submits :: KeysAgree(st.submits[s], st.submits[r])
    ensures st.submits[s].key in st.reserved <==>
            exists r | r in st.submits ::
              r != s && HoldsRequest(st.submits[r], st.submits[s].owner, st.submits[s].request)
  {
    var x := st.submits[s];
    assert HoldOk(x) && !x.holds;
    if x.key in st.reserved {
      var r := st.reserved[x.key];
      assert HeldBy(st.submits, r, x.key);
      assert KeysAgree(x, st.submits[r]);
      assert HoldsRequest(st.submits[r], x.owner, x.request);
    }
    forall r | r in st.submits && r != s && HoldsRequest(st.submits[r], x.owner, x.request)
      ensures x.key in st.reserved
    {
      assert HasReserved(st.reserved, r, st.submits[r]);
      assert KeysAgree(x, st.submits[r]);
    }
  }

  // ---------- What a submit answers ----------

  /** The reply that a submit is committed to. */
  function Committed(pc: SubmitPc): Option<Reply> {
    match pc
    case Leaving(reply) => Some(reply)
    case Returned(reply) => Some(reply)
    case _ => None
  }

  /** The reply that the submit's own step decides, given what it finds. */
  function Decides(st: State, a: Action, s: nat): Option<Reply>
    requires Enabled(st, a) && s in st.submits
  {
    if !a.Submitting? || a.s != s then None
    else
      var x, works := st.submits[s], a.store.Works?;
      match a.submit
      case Reserve => if x.request != "" && x.key in st.reserved then Some(InProgress) else None
      case Check(refusal) => refusal
      case Insert(t, now) =>
        if works && (x.request != "" || t !in st.rows) then None else Some(CreateFailed)
      case Relookup(found) => if found.None? then Some(CreateFailed) else None
      case Read =>
        if !works || x.pc.t !in st.rows then Some(TaskMissing)
        else if x.mode.Async? || Terminal(st.rows[x.pc.t].status) then Some(Snapshot(st.rows[x.pc.t].status))
        else None
      case EndWait(ending) => if ending.Context? then Some(ContextEnded) else None
      case Reread =>
        Some(if works && x.pc.t in st.rows then Snapshot(st.rows[x.pc.t].status) else TaskMissing)
      case _ => None
  }

  /** One step: a reply is decided once and then kept, and only a submit that may wait waits. */
  predicate Commits(before: Submit, after: Submit, decision: Option<Reply>) {
    && Committed(after.pc) == (if decision.Some? then decision else Committed(before.pc))
    && (decision.Some? ==> Committed(before.pc) == None)
    && after.mode == before.mode && after.owner == before.owner && after.request == before.request
    && (after.pc.Waiting? && after.mode.Async? ==> before.pc.Waiting?)
  }

  lemma MakingCommits(st: State, s: nat, e: SubmitStep, store: StoreOutcome)
    requires IdsOk(st) && s in st.submits && CanSubmit(st, s, e, store) && Makes(e)
    ensures s in Submitted(st, s, e, store).submits
    ensures Commits(st.submits[s], Submitted(st, s, e, store).submits[s], Decides(st, Submitting(s, e, store), s))
  {
    hide Inserted;
    match e { case Insert(t, now) => case Publish => case Unreserve => case Launch => }
  }

  lemma EarlyCommits(st: State, s: nat, e: SubmitStep, store: StoreOutcome)
    requires s in st.submits && CanSubmit(st, s, e, store) && (e.Reserve? || e.Leave? || e.Lookup? || e.Check?)
    ensures s in Submitted(st, s, e, store).submits
    ensures Commits(st.submits[s], Submitted(st, s, e, store).submits[s], Decides(st, Submitting(s, e, store), s))
  {
    hide Finds;
    if e.Reserve? || e.Leave? {
      TakingCommits(st, s, e, store);
    } else {
      match e { case Lookup(found) => case Check(refusal) => }
    }
  }

  lemma TakingCommits(st: State, s: nat, e: SubmitStep, store: StoreOutcome)
    requires s in st.submits && CanSubmit(st, s, e, store) && (e.Reserve? || e.Leave?)
    ensures s in Submitted(st, s, e, store).submits
    ensures Commits(st.submits[s], Submitted(st, s, e, store).submits[s], Decides(st, Submitting(s, e, store), s))
  {
    match e { case Reserve => case Leave => }
  }

  lemma LookingCommits(st: State, s: nat, e: SubmitStep, store: StoreOutcome)
    requires s in st.submits && CanSubmit(st, s, e, store)
    requires e.Relookup? || e.Fetch? || e.Read? || e.EndWait? || e.Reread?
    ensures s in Submitted(st, s, e, store).submits
    ensures Commits(st.submits[s], Submitted(st, s, e, store).submits[s], Decides(st, Submitting(s, e, store), s))
  {
    hide Finds, CanEndWait;
    match e { case Relookup(found) => case Fetch => case Read => case EndWait(ending) => case Reread => }
  }

  lemma SubmitCommits(st: State, s: nat, e: SubmitStep, store: StoreOutcome)
    requires IdsOk(st) && s in st.submits && CanSubmit(st, s, e, store)
    ensures s in Submitted(st, s, e, store).submits
    ensures Commits(st.submits[s], Submitted(st, s, e, store).submits[s], Decides(st, Submitting(s, e, store), s))
  {
    hide Submitted, CanSubmit, Commits, Decides, IdsOk;
    if Makes(e) {
      MakingCommits(st, s, e, store);
    } else if e.Reserve? || e.Leave? || e.Lookup? || e.Check? {
      EarlyCommits(st, s, e, store);
    } else {
      LookingCommits(st, s, e, store);
    }
  }

  /** A step that is not the submit's leaves it where it is. */
  lemma OthersLeaveSubmit(st: State, a: Action, s: nat)
    requires Enabled(st, a) && s in st.submits && !(a.Submitting? && a.s == s)
    ensures s in Apply(st, a).submits && Apply(st, a).submits[s] == st.submits[s]
  {
    hide Submitted, Executed, Cancelled, NewSubmit;
    match a
    case Submitting(r, e, store) => SubmitLeavesSubmits(st, r, e, store, s);
    case Executing(t, e, store) => ExecLeavesAll(st, t, e, store);
    case Canceling(c, e, store) => CancelLeavesAll(st, c, e, store);
    case _ =>
  }

  lemma SubmitLeavesSubmits(st: State, r: nat, e: SubmitStep, store: StoreOutcome, s: nat)
    requires r in st.submits && CanSubmit(st, r, e, store) && s in st.submits && s != r
    ensures s in Submitted(st, r, e, store).submits && Submitted(st, r, e, store).submits[s] == st.submits[s]
  {
    if Makes(e) {
      match e { case Insert(t, now) => case Publish => case Unreserve => case Launch => }
    } else {
      OtherStepsOnlySubmit(st, r, e, store);
      hide Submitted;
    }
  }

  lemma ExecLeavesAll(st: State, t: Tid, e: ExecStep, store: StoreOutcome)
    requires t in st.execs && CanExec(st, t, e)
    ensures Executed(st, t, e, store).submits == st.submits && Executed(st, t, e, store).cancels == st.cancels
  {
  }

  lemma CancelLeavesAll(st: State, c: nat, e: CancelStep, store: StoreOutcome)
    requires c in st.cancels && CanCancel(st, c, e)
    ensures Cancelled(st, c, e, store).submits == st.submits && Cancelled(st, c, e, store).execs == st.execs
  {
  }

  lemma RunCommits(trace: seq<State>, actions: seq<Action>, k: nat, s: nat)
    requires IsRun(trace, actions) && k < |actions| && s in trace[k].submits
    ensures Enabled(trace[k], actions[k]) && s in trace[k + 1].submits
    ensures Commits(trace[k].submits[s], trace[k + 1].submits[s], Decides(trace[k], actions[k], s))
  {
    RunKeepsInv(trace, actions, k);
    assert Enabled(trace[k], actions[k]) && trace[k + 1] == Apply(trace[k], actions[k]);
    hide IsRun, IdsOk, MakersOk, ExecsOk, Submitted;
    if actions[k].Submitting? && actions[k].s == s {
      SubmitCommits(trace[k], s, actions[k].submit, actions[k].store);
    } else {
      hide Apply;
      OthersLeaveSubmit(trace[k], actions[k], s);
    }
  }

  predicate DecidesAt(trace: seq<State>, actions: seq<Action>, k: nat, s: nat, reply: Reply)
    requires k < |trace| && k < |actions|
  {
    s in trace[k].submits && Enabled(trace[k], actions[k]) && Decides(trace[k], actions[k], s) == Some(reply)
  }

  lemma {:induction false} CommitmentLasts(trace: seq<State>, actions: seq<Action>, i: nat, j: nat, s: nat)
    requires IsRun(trace, actions) && i <= j < |trace| && s in trace[i].submits
    ensures s in trace[j].submits
    ensures Committed(trace[i].submits[s].pc).Some? ==>
              Committed(trace[j].submits[s].pc) == Committed(trace[i].submits[s].pc)
    decreases j - i
  {
    hide Enabled, Apply, Decides, Committed;
    if i < j {
      CommitmentLasts(trace, actions, i, j - 1, s);
      RunCommits(trace, actions, j - 1, s);
    }
  }

  lemma NewSubmitsReserve(st: State, a: Action, s: nat)
    requires Enabled(st, a) && s !in st.submits && s in Apply(st, a).submits
    ensures Apply(st, a).submits[s].pc == Reserving
  {
    hide OwnerScope.RequestKey, Text.Trim, Submitted, Executed, Cancelled;
    match a
    case Submitting(r, e, store) => SubmitAddsNone(st, r, e, store);
    case Executing(t, e, store) => ExecLeavesAll(st, t, e, store);
    case Canceling(c, e, store) => CancelLeavesAll(st, c, e, store);
    case _ =>
  }

  lemma SubmitAddsNone(st: State, r: nat, e: SubmitStep, store: StoreOutcome)
    requires r in st.submits && CanSubmit(st, r, e, store)
    ensures Submitted(st, r, e, store).submits.Keys == st.submits.Keys
  {
    if Makes(e) {
      match e { case Insert(t, now) => case Publish => case Unreserve => case Launch => }
    } else {
      OtherStepsOnlySubmit(st, r, e, store);
      hide Submitted;
    }
  }

  lemma ReservingIsOpen()
    ensures Committed(Reserving) == None
  {
  }

  lemma {:induction false} CommittedBefore(trace: seq<State>, actions: seq<Action>, j: nat, s: nat) returns (k: nat)
    requires IsRun(trace, actions) && j < |trace| && s in trace[j].submits && Committed(trace[j].submits[s].pc).Some?
    ensures k < j && DecidesAt(trace, actions, k, s, Committed(trace[j].submits[s].pc).value)
  {
    hide Enabled, Apply, Decides, Committed;
    if s !in trace[j - 1].submits {
      NewSubmitsReserve(trace[j - 1], actions[j - 1], s);
      ReservingIsOpen();
      assert false;
    }
    RunCommits(trace, actions, j - 1, s);
    if Decides(trace[j - 1], actions[j - 1], s).Some? {
      k := j - 1;
    } else {
      k := CommittedBefore(trace, actions, j - 1, s);
    }
  }

  lemma DecisionShows(trace: seq<State>, actions: seq<Action>, k: nat, s: nat, reply: Reply)
    requires IsRun(trace, actions) && k < |actions| && DecidesAt(trace, actions, k, s, reply)
    ensures Committed(trace[k].submits[s].pc) == None
    ensures s in trace[k + 1].submits && Committed(trace[k + 1].submits[s].pc) == Some(reply)
  {
    hide Enabled, Apply, Decides, Committed;
    RunCommits(trace, actions, k, s);
  }

  /** A submit that has returned has decided its reply at exactly one step, and that is its reply. */
  lemma RepliesAreDecidedOnce(trace: seq<State>, actions: seq<Action>, j: nat, s: nat) returns (i: nat)
    requires IsRun(trace, actions) && j < |trace| && s in trace[j].submits && trace[j].submits[s].pc.Returned?
    ensures i < j && DecidesAt(trace, actions, i, s, trace[j].submits[s].pc.reply)
    ensures forall k, reply | 0 <= k < j && DecidesAt(trace, actions, k, s, reply) :: k == i
  {
    hide Enabled, Apply, Decides, DecidesAt;
    i := CommittedBefore(trace, actions, j, s);
    forall k, reply | 0 <= k < j && DecidesAt(trace, actions, k, s, reply)
      ensures k == i
    {
      hide Committed;
      DecisionShows(trace, actions, k, s, reply);
      DecisionShows(trace, actions, i, s, trace[j].submits[s].pc.reply);
      if k < i {
        CommitmentLasts(trace, actions, k + 1, i, s);
      } else if i < k {
        CommitmentLasts(trace, actions, i + 1, k, s);
      }
    }
  }

  /** An asynchronous submit never waits. */
  lemma {:induction false} AsyncNeverWaits(trace: seq<State>, actions: seq<Action>, i: nat, s: nat)
    requires IsRun(trace, actions) && i < |trace| && s in trace[i].submits && trace[i].submits[s].mode.Async?
    ensures !trace[i].submits[s].pc.Waiting?
  {
    hide Enabled, Apply, Decides, Committed;
    if s !in trace[i - 1].submits {
      NewSubmitsReserve(trace[i - 1], actions[i - 1], s);
    } else {
      RunCommits(trace, actions, i - 1, s);
      AsyncNeverWaits(trace, actions, i - 1, s);
    }
  }

  // ---------- Whose tasks ----------

  /** The task that a submit is busy with is of its own owner and request, as long as there is a row. */
  predicate BusyWithItsOwn(st: State, x: Submit) {
    TaskOf(x.pc).Some? ==>
      TaskOf(x.pc).value in st.used
      && (TaskOf(x.pc).value in st.rows ==> IsOf(st.rows[TaskOf(x.pc).value], x.owner, x.request))
  }

  /** A cancel that is about to write has looked at a row of its own owner. */
  predicate CancelsItsOwn(st: State, x: Cancel) {
    x.pc.Writing? ==> x.t in st.used && (x.t in st.rows ==> st.rows[x.t].owner == x.owner)
  }

  ghost predicate AllOwn(st: State) {
    && (forall s | s in st.submits :: BusyWithItsOwn(st, st.submits[s]))
    && (forall c | c in st.cancels :: CancelsItsOwn(st, st.cancels[c]))
  }

  /** Rows keep owner and request, and an ID once used gets no new row. */
  ghost predicate OwnersKept(before: Rows, after: Rows, used: set<Tid>) {
    forall t | t in after && t in used ::
      t in before && after[t].owner == before[t].owner && after[t].request == before[t].request
  }

  lemma ExecKeepsOwners(st: State, t: Tid, e: ExecStep, store: StoreOutcome)
    requires t in st.execs && CanExec(st, t, e)
    ensures OwnersKept(st.rows, Executed(st, t, e, store).rows, st.used)
    ensures Executed(st, t, e, store).used == st.used
  {
    match e {
      case MarkDispatch(n) => case MarkRun(k, n) => case EndDispatch(v) =>
      case Finalize(n, x) => case Complete => case Close =>
    }
  }

  lemma CancelKeepsOwners(st: State, c: nat, e: CancelStep, store: StoreOutcome)
    requires c in st.cancels && CanCancel(st, c, e)
    ensures OwnersKept(st.rows, Cancelled(st, c, e, store).rows, st.used)
    ensures Cancelled(st, c, e, store).used == st.used
  {
    match e { case Inspect => case Write(n, x) => case Clear => case SignalDone => }
  }

  lemma StepKeepsOwners(st: State, a: Action)
    requires Enabled(st, a)
    ensures OwnersKept(st.rows, Apply(st, a).rows, st.used) && st.used <= Apply(st, a).used
  {
    hide NewSubmit, Submitted, Executed, Cancelled;
    match a
    case Submitting(s, e, store) => SubmitsOnlyInsert(st, s, e, store);
    case Executing(t, e, store) => ExecKeepsOwners(st, t, e, store);
    case Canceling(c, e, store) => CancelKeepsOwners(st, c, e, store);
    case _ =>
  }

  lemma OwnFollows(st: State, after: State, x: Submit, y: Cancel)
    requires OwnersKept(st.rows, after.rows, st.used) && st.used <= after.used
    ensures BusyWithItsOwn(st, x) ==> BusyWithItsOwn(after, x)
    ensures CancelsItsOwn(st, y) ==> CancelsItsOwn(after, y)
  {
  }

  lemma MakingOwnStep(st: State, s: nat, e: SubmitStep, store: StoreOutcome)
    requires s in st.submits && CanSubmit(st, s, e, store) && BusyWithItsOwn(st, st.submits[s]) && Makes(e)
    ensures s in Submitted(st, s, e, store).submits
    ensures BusyWithItsOwn(Submitted(st, s, e, store), Submitted(st, s, e, store).submits[s])
  {
    match e { case Insert(t, now) => case Publish => case Unreserve => case Launch => }
  }

  lemma LookingOwnStep(st: State, s: nat, e: SubmitStep, store: StoreOutcome)
    requires st.rows.Keys <= st.used
    requires s in st.submits && CanSubmit(st, s, e, store) && BusyWithItsOwn(st, st.submits[s]) && !Makes(e)
    ensures s in Submitted(st, s, e, store).submits
    ensures BusyWithItsOwn(Submitted(st, s, e, store), Submitted(st, s, e, store).submits[s])
  {
    hide CanEndWait, Shown;
    match e {
      case Reserve => case Lookup(found) => case Check(refusal) => case Relookup(found) => case Fetch =>
      case Read => case EndWait(ending) => case Reread => case Leave =>
    }
  }

  lemma CancelOwnStep(st: State, c: nat, e: CancelStep, store: StoreOutcome)
    requires st.rows.Keys <= st.used && c in st.cancels && CanCancel(st, c, e) && CancelsItsOwn(st, st.cancels[c])
    ensures var after := Cancelled(st, c, e, store);
            && c in after.cancels && after.cancels == st.cancels[c := after.cancels[c]]
            && CancelsItsOwn(after, after.cancels[c])
  {
    match e { case Inspect => case Write(n, x) => case Clear => case SignalDone => }
  }

  lemma SubmitOwnStep(st: State, s: nat, e: SubmitStep, store: StoreOutcome)
    requires st.rows.Keys <= st.used && s in st.submits && CanSubmit(st, s, e, store)
    requires BusyWithItsOwn(st, st.submits[s])
    ensures s in Submitted(st, s, e, store).submits
    ensures BusyWithItsOwn(Submitted(st, s, e, store), Submitted(st, s, e, store).submits[s])
  {
    hide Submitted, BusyWithItsOwn, CanSubmit;
    if Makes(e) {
      MakingOwnStep(st, s, e, store);
    } else {
      LookingOwnStep(st, s, e, store);
    }
  }

  lemma StepKeepsSubmitOwn(st: State, a: Action, s: nat)
    requires Inv(st) && AllOwn(st) && Enabled(st, a) && s in Apply(st, a).submits
    ensures BusyWithItsOwn(Apply(st, a), Apply(st, a).submits[s])
  {
    RowsAreUsed(st);
    hide Inv, BusyWithItsOwn, Submitted, Executed, Cancelled, NewSubmit;
    var none := Cancel("", "", Inspecting);
    if s !in st.submits {
      NewSubmitsReserve(st, a, s);
      ReservingIsBusyWithNothing(Apply(st, a), Apply(st, a).submits[s]);
    } else if a.Submitting? && a.s == s {
      SubmitOwnStep(st, s, a.submit, a.store);
    } else {
      StepKeepsOwners(st, a);
      OthersLeaveSubmit(st, a, s);
      hide Apply, Enabled;
      OwnFollows(st, Apply(st, a), st.submits[s], none);
    }
  }

  lemma ReservingIsBusyWithNothing(st: State, x: Submit)
    requires x.pc == Reserving
    ensures BusyWithItsOwn(st, x)
  {
  }

  lemma CancelsMove(st: State, a: Action, c: nat)
    requires Enabled(st, a) && c in Apply(st, a).cancels
    ensures c !in st.cancels ==> Apply(st, a).cancels[c].pc.Inspecting?
    ensures c in st.cancels && !(a.Canceling? && a.c == c) ==> Apply(st, a).cancels[c] == st.cancels[c]
  {
    hide NewSubmit, Submitted, Executed, Cancelled;
    match a
    case Submitting(s, e, store) => SubmitsOnlyInsert(st, s, e, store);
    case Executing(t, e, store) => ExecLeavesAll(st, t, e, store);
    case Canceling(d, e, store) => CancelMovesOne(st, d, e, store);
    case _ =>
  }

  lemma CancelMovesOne(st: State, c: nat, e: CancelStep, store: StoreOutcome)
    requires c in st.cancels && CanCancel(st, c, e)
    ensures var after := Cancelled(st, c, e, store);
            c in after.cancels && after.cancels == st.cancels[c := after.cancels[c]]
  {
  }

  lemma StepKeepsCancelOwn(st: State, a: Action, c: nat)
    requires Inv(st) && AllOwn(st) && Enabled(st, a) && c in Apply(st, a).cancels
    ensures CancelsItsOwn(Apply(st, a), Apply(st, a).cancels[c])
  {
    RowsAreUsed(st);
    hide Inv, BusyWithItsOwn, Submitted, Executed, Cancelled, NewSubmit;
    CancelsMove(st, a, c);
    if c in st.cancels {
      if a.Canceling? && a.c == c {
        CancelOwnStep(st, c, a.cancel, a.store);
      } else {
        StepKeepsOwners(st, a);
        hide Apply, Enabled;
        OwnFollows(st, Apply(st, a), Submit("", "", "", Sync, Reserving, false), st.cancels[c]);
      }
    }
  }

  lemma {:induction false} RunKeepsOwn(trace: seq<State>, actions: seq<Action>, i: nat)
    requires IsRun(trace, actions) && i < |trace|
    ensures AllOwn(trace[i])
  {
    hide Inv, Enabled, Apply, BusyWithItsOwn, CancelsItsOwn;
    if i > 0 {
      RunKeepsOwn(trace, actions, i - 1);
      RunKeepsInv(trace, actions, i - 1);
      forall s | s in trace[i].submits
        ensures BusyWithItsOwn(trace[i], trace[i].submits[s])
      {
        StepKeepsSubmitOwn(trace[i - 1], actions[i - 1], s);
      }
      forall c | c in trace[i].cancels
        ensures CancelsItsOwn(trace[i], trace[i].cancels[c])
      {
        StepKeepsCancelOwn(trace[i - 1], actions[i - 1], c);
      }
    }
  }

  /** The status that a submit returns is one that a row of its own owner and request had while the
      submit was busy with that task. */
  lemma SnapshotsAreOwn(trace: seq<State>, actions: seq<Action>, j: nat, s: nat) returns (k: nat, t: Tid)
    requires IsRun(trace, actions) && j < |trace| && s in trace[j].submits
    requires trace[j].submits[s].pc.Returned? && trace[j].submits[s].pc.reply.Snapshot?
    ensures k < j && s in trace[k].submits && TaskOf(trace[k].submits[s].pc) == Some(t) && t in trace[k].rows
    ensures trace[k].rows[t].status == trace[j].submits[s].pc.reply.status
    ensures trace[k].rows[t].owner == trace[j].submits[s].owner
    ensures trace[k].rows[t].request == trace[j].submits[s].request
  {
    hide Enabled, Apply;
    k := RepliesAreDecidedOnce(trace, actions, j, s);
    RunKeepsOwn(trace, actions, k);
    IdentityStays(trace, actions, k, j, s);
    t := SnapshotSource(trace[k], actions[k], s, trace[j].submits[s].pc.reply);
    assert BusyWithItsOwn(trace[k], trace[k].submits[s]);
  }

  lemma SnapshotSource(st: State, a: Action, s: nat, reply: Reply) returns (t: Tid)
    requires Enabled(st, a) && s in st.submits && Decides(st, a, s) == Some(reply) && reply.Snapshot?
    ensures TaskOf(st.submits[s].pc) == Some(t) && t in st.rows && st.rows[t].status == reply.status
  {
    t := st.submits[s].pc.t;
  }

  lemma {:induction false} IdentityStays(trace: seq<State>, actions: seq<Action>, i: nat, j: nat, s: nat)
    requires IsRun(trace, actions) && i <= j < |trace| && s in trace[i].submits
    ensures s in trace[j].submits && trace[j].submits[s].owner == trace[i].submits[s].owner
    ensures trace[j].submits[s].request == trace[i].submits[s].request
    decreases j - i
  {
    hide Enabled, Apply, Decides, Committed;
    if i < j {
      IdentityStays(trace, actions, i, j - 1, s);
      RunCommits(trace, actions, j - 1, s);
    }
  }

  /** A cancel ends no task but its own owner's. */
  lemma CancelsAreTheOwners(trace: seq<State>, actions: seq<Action>, i: nat, t: Tid)
    requires IsRun(trace, actions) && i < |actions| && actions[i].Canceling? && WritesTerminal(trace[i], actions[i], t)
    ensures actions[i].c in trace[i].cancels && t in trace[i].rows
    ensures trace[i].rows[t].owner == trace[i].cancels[actions[i].c].owner
  {
    RunKeepsOwn(trace, actions, i);
    assert Enabled(trace[i], actions[i]);
    hide IsRun;
    assert CancelsItsOwn(trace[i], trace[i].cancels[actions[i].c]);
  }

  // ---------- One row per request ----------

  /** Two rows are not of one request. */
  predicate Apart(rows: Rows, t: Tid, u: Tid) {
    t in rows && u in rows && t != u && rows[t].owner == rows[u].owner && rows[t].request == rows[u].request ==>
      rows[t].request == ""
  }

  lemma InsertKeepsApart(rows: Rows, n: Tid, owner: string, request: string, nowMs: int, t: Tid, u: Tid)
    requires Apart(rows, t, u)
    ensures Apart(Inserted(rows, n, owner, request, nowMs), t, u)
  {
  }

  lemma KeptApart(before: Rows, after: Rows, used: set<Tid>, t: Tid, u: Tid)
    requires Apart(before, t, u) && OwnersKept(before, after, used) && after.Keys <= used
    ensures Apart(after, t, u)
  {
  }

  /** Whatever the store does, a request of an owner has at most one row at a time. */
  lemma {:induction false} OneRowPerRequest(trace: seq<State>, actions: seq<Action>, j: nat, t: Tid, u: Tid)
    requires IsRun(trace, actions) && j < |trace|
    ensures Apart(trace[j].rows, t, u)
  {
    hide NewSubmit, Submitted, Executed, Cancelled, Apart, OwnersKept, Inserted, DeleteExpired;
    if j == 0 {
      NoRowsAtFirst(t, u);
    } else {
      var st, a := trace[j - 1], actions[j - 1];
      OneRowPerRequest(trace, actions, j - 1, t, u);
      RunKeepsInv(trace, actions, j - 1);
      match a {
        case Submitting(s, e, store) =>
          SubmitsOnlyInsert(st, s, e, store);
          if e.Insert? {
            InsertKeepsApart(st.rows, e.t, st.submits[s].owner, st.submits[s].request, e.nowMs, t, u);
          }
        case Executing(v, e, store) =>
          ExecKeepsOwners(st, v, e, store);
          RunKeepsInv(trace, actions, j);
          KeptApart(st.rows, trace[j].rows, st.used, t, u);
        case Canceling(c, e, store) =>
          CancelKeepsOwners(st, c, e, store);
          RunKeepsInv(trace, actions, j);
          KeptApart(st.rows, trace[j].rows, st.used, t, u);
        case Prune(now) => PruneKeepsApart(st.rows, now, t, u);
        case BeginSubmit(s, owner, request, mode) => case BeginCancel(c, v, owner) =>
      }
    }
  }

  lemma NoRowsAtFirst(t: Tid, u: Tid)
    ensures Apart(INIT.rows, t, u)
  {
  }

  lemma PruneKeepsApart(rows: Rows, nowMs: int, t: Tid, u: Tid)
    requires Apart(rows, t, u)
    ensures Apart(DeleteExpired(rows, nowMs), t, u)
  {
  }

  // ---------- What a finished row says ----------

  /** The row says what the step that ended it had to say. */
  predicate SaysWhatItWrote(st: State, a: Action, t: Tid, row: Row)
    requires Enabled(st, a) && WritesTerminal(st, a, t)
  {
    match a
    case Executing(_, Finalize(completed, expires), _) =>
      Carries(row, st.execs[t].verdict) && row.updatedMs == row.completedMs == completed && row.expiresMs == expires
    case Canceling(_, Write(now, expires), _) =>
      && row.status == Canceled && row.result == "" && ErrorIs(row, "canceled", "task canceled")
      && row.updatedMs == row.completedMs == now && row.expiresMs == expires
    case _ => false
  }

  lemma ExecEndsIt(st: State, u: Tid, e: ExecStep, store: StoreOutcome, t: Tid)
    requires u in st.execs && CanExec(st, u, e) && t in Executed(st, u, e, store).rows
    requires Terminal(Executed(st, u, e, store).rows[t].status) && !(t in st.rows && Terminal(st.rows[t].status))
    ensures var a := Executing(u, e, store);
            WritesTerminal(st, a, t) && SaysWhatItWrote(st, a, t, Executed(st, u, e, store).rows[t])
  {
    match e {
      case MarkDispatch(n) => case MarkRun(k, n) => case EndDispatch(v) =>
      case Finalize(n, x) => case Complete => case Close =>
    }
  }

  lemma CancelEndsIt(st: State, c: nat, e: CancelStep, store: StoreOutcome, t: Tid)
    requires c in st.cancels && CanCancel(st, c, e) && t in Cancelled(st, c, e, store).rows
    requires Terminal(Cancelled(st, c, e, store).rows[t].status) && !(t in st.rows && Terminal(st.rows[t].status))
    ensures var a := Canceling(c, e, store);
            WritesTerminal(st, a, t) && SaysWhatItWrote(st, a, t, Cancelled(st, c, e, store).rows[t])
  {
    match e { case Inspect => case Write(n, x) => case Clear => case SignalDone => }
  }

  lemma OnlyWritersEnd(st: State, a: Action, t: Tid)
    requires Enabled(st, a) && t in Apply(st, a).rows && Terminal(Apply(st, a).rows[t].status)
    requires !(t in st.rows && Terminal(st.rows[t].status))
    ensures WritesTerminal(st, a, t) && SaysWhatItWrote(st, a, t, Apply(st, a).rows[t])
  {
    hide NewSubmit, Submitted, Executed, Cancelled;
    match a
    case Submitting(s, e, store) => SubmitsOnlyInsert(st, s, e, store);
    case Executing(u, e, store) => ExecEndsIt(st, u, e, store, t);
    case Canceling(c, e, store) => CancelEndsIt(st, c, e, store, t);
    case _ =>
  }

  /** Every finished row was ended by one step, the executor's or a cancel's, and says exactly what that
      step wrote. */
  lemma {:induction false} FinishedRowsHaveAnAuthor(trace: seq<State>, actions: seq<Action>, j: nat, t: Tid)
    returns (k: nat)
    requires IsRun(trace, actions) && j < |trace| && t in trace[j].rows && Terminal(trace[j].rows[t].status)
    ensures k < j && Enabled(trace[k], actions[k]) && WritesTerminal(trace[k], actions[k], t)
    ensures SaysWhatItWrote(trace[k], actions[k], t, trace[j].rows[t])
  {
    hide Enabled, Apply, WritesTerminal, SaysWhatItWrote;
    if t in trace[j - 1].rows && Terminal(trace[j - 1].rows[t].status) {
      RowsOnlyMoveForward(trace, actions, j - 1, j);
      k := FinishedRowsHaveAnAuthor(trace, actions, j - 1, t);
    } else {
      k := j - 1;
      OnlyWritersEnd(trace[k], actions[k], t);
    }
  }

  /** The executor is set to write its fallback. */
  predicate FallsBack(pc: ExecPc) {
    match pc
    case Finishing(_, fallback) => fallback
    case Completing(next) => next.Fallback?
    case Closing(next) => next.Fallback?
    case _ => false
  }

  /** The step gives the executor the verdict it is about to write: dispatch has come back with it, or
      the store has failed. */
  predicate GivesVerdict(a: Action, t: Tid, pc: ExecPc) {
    && a.Executing? && a.t == t
    && if FallsBack(pc) then !a.store.Works? else pc.Finishing? && a.exec == EndDispatch(pc.verdict)
  }

  predicate AboutToWrite(pc: ExecPc) {
    pc.Finishing? || FallsBack(pc)
  }

  lemma ExecVerdict(st: State, t: Tid, e: ExecStep, store: StoreOutcome)
    requires t in st.execs && CanExec(st, t, e)
    ensures var after := Executed(st, t, e, store);
            && t in after.execs
            && (AboutToWrite(after.execs[t]) ==>
                  || GivesVerdict(Executing(t, e, store), t, after.execs[t])
                  || (FallsBack(st.execs[t]) && FallsBack(after.execs[t])))
            && (FallsBack(after.execs[t]) && after.execs[t].Finishing? ==>
                  after.execs[t].verdict.status == Failed && after.execs[t].verdict.errorCode == "persistence_error")
  {
    match e {
      case MarkDispatch(n) => case MarkRun(k, n) => case EndDispatch(v) =>
      case Finalize(n, x) => case Complete => case Close =>
    }
  }

  lemma ExecsMove(st: State, a: Action, t: Tid)
    requires Enabled(st, a) && t in Apply(st, a).execs && !(a.Executing? && a.t == t)
    ensures Apply(st, a).execs[t] == Marking || (t in st.execs && Apply(st, a).execs[t] == st.execs[t])
  {
    hide NewSubmit, Submitted, Executed, Cancelled;
    match a
    case Submitting(s, e, store) => SubmitLaunches(st, s, e, store, t);
    case Executing(u, e, store) => ExecMovesOne(st, u, e, store);
    case Canceling(c, e, store) => CancelLeavesAll(st, c, e, store);
    case _ =>
  }

  lemma ExecMovesOne(st: State, u: Tid, e: ExecStep, store: StoreOutcome)
    requires u in st.execs && CanExec(st, u, e)
    ensures var after := Executed(st, u, e, store);
            u in after.execs && after.execs == st.execs[u := after.execs[u]]
  {
  }

  lemma SubmitLaunches(st: State, s: nat, e: SubmitStep, store: StoreOutcome, t: Tid)
    requires s in st.submits && CanSubmit(st, s, e, store) && t in Submitted(st, s, e, store).execs
    ensures Submitted(st, s, e, store).execs[t] == Marking
         || (t in st.execs && Submitted(st, s, e, store).execs[t] == st.execs[t])
  {
    if Makes(e) {
      match e { case Insert(u, now) => case Publish => case Unreserve => case Launch => }
    } else {
      OtherStepsOnlySubmit(st, s, e, store);
      hide Submitted;
    }
  }

  /** What an executor is about to write, its dispatch has come back with, or the store has failed on it
      and it is the persistence error. */
  lemma {:induction false} VerdictsHaveASource(trace: seq<State>, actions: seq<Action>, j: nat, t: Tid) returns (k: nat)
    requires IsRun(trace, actions) && j < |trace| && t in trace[j].execs && AboutToWrite(trace[j].execs[t])
    ensures k < j && GivesVerdict(actions[k], t, trace[j].execs[t])
    ensures FallsBack(trace[j].execs[t]) && trace[j].execs[t].Finishing? ==>
              trace[j].execs[t].verdict.status == Failed && trace[j].execs[t].verdict.errorCode == "persistence_error"
  {
    hide Enabled, Apply;
    var st, a := trace[j - 1], actions[j - 1];
    if a.Executing? && a.t == t {
      ExecStepIs(st, a);
      ExecVerdict(st, t, a.exec, a.store);
      if GivesVerdict(a, t, trace[j].execs[t]) {
        k := j - 1;
      } else {
        k := VerdictsHaveASource(trace, actions, j - 1, t);
      }
    } else {
      ExecsMove(st, a, t);
      k := VerdictsHaveASource(trace, actions, j - 1, t);
    }
  }

  lemma ExecStepIs(st: State, a: Action)
    requires Enabled(st, a) && a.Executing?
    ensures a.t in st.execs && CanExec(st, a.t, a.exec) && Apply(st, a) == Executed(st, a.t, a.exec, a.store)
  {
  }

  // ---------- What a running task shows ----------

  /** The live row of a task tells where its executor is. */
  predicate Shows(rows: Rows, t: Tid, pc: ExecPc) {
    Active(rows, t) ==>
      match pc
      case Marking => rows[t].status == Queued
      case Dispatching => rows[t].status == Dispatched
      case Working => rows[t].status == Running
      case _ => true
  }

  lemma ExecShows(st: State, t: Tid, e: ExecStep, store: StoreOutcome)
    requires t in st.execs && CanExec(st, t, e) && Shows(st.rows, t, st.execs[t])
    ensures var after := Executed(st, t, e, store);
            && t in after.execs && Shows(after.rows, t, after.execs[t])
            && (after.execs[t].Working? && Active(after.rows, t) ==>
                  e.MarkRun? && after.rows[t].commandID == e.commandID)
  {
    match e {
      case MarkDispatch(n) => case MarkRun(k, n) => case EndDispatch(v) =>
      case Finalize(n, x) => case Complete => case Close =>
    }
  }

  /** A step of anybody else ends a task or leaves its status and command. */
  ghost predicate EndsOrLeaves(before: Rows, after: Rows, t: Tid) {
    Active(after, t) && t in before ==>
      after[t].status == before[t].status && after[t].commandID == before[t].commandID
  }

  lemma OtherExecEndsOrLeaves(st: State, u: Tid, e: ExecStep, store: StoreOutcome, t: Tid)
    requires u in st.execs && CanExec(st, u, e) && u != t
    ensures EndsOrLeaves(st.rows, Executed(st, u, e, store).rows, t)
  {
    match e {
      case MarkDispatch(n) => case MarkRun(k, n) => case EndDispatch(v) =>
      case Finalize(n, x) => case Complete => case Close =>
    }
  }

  lemma CancelEndsOrLeaves(st: State, c: nat, e: CancelStep, store: StoreOutcome, t: Tid)
    requires c in st.cancels && CanCancel(st, c, e)
    ensures EndsOrLeaves(st.rows, Cancelled(st, c, e, store).rows, t)
  {
    match e { case Inspect => case Write(n, x) => case Clear => case SignalDone => }
  }

  lemma OthersEndOrLeave(st: State, a: Action, t: Tid)
    requires Enabled(st, a) && !(a.Executing? && a.t == t)
    ensures EndsOrLeaves(st.rows, Apply(st, a).rows, t)
  {
    hide NewSubmit, Submitted, Executed, Cancelled;
    match a
    case Submitting(s, e, store) => SubmitsOnlyInsert(st, s, e, store);
    case Executing(u, e, store) => OtherExecEndsOrLeaves(st, u, e, store, t);
    case Canceling(c, e, store) => CancelEndsOrLeaves(st, c, e, store, t);
    case _ =>
  }

  lemma UnstartedShows(st: State, t: Tid)
    requires Inv(st) && t in st.execs && st.execs[t] == Marking
    ensures Shows(st.rows, t, Marking)
  {
    assert ExecOk(st.rows, t, st.execs[t]);
  }

  /** In every run a live row is queued until its executor has marked it, dispatched until the executor has
      a command, and then running, with the command's ID. */
  lemma {:induction false} ProgressShows(trace: seq<State>, actions: seq<Action>, j: nat, t: Tid)
    requires IsRun(trace, actions) && j < |trace| && t in trace[j].execs
    ensures Shows(trace[j].rows, t, trace[j].execs[t])
    ensures trace[j].execs[t].Working? && Active(trace[j].rows, t) ==>
              exists k | 0 <= k < j :: MarksRun(actions[k], t, trace[j].rows[t].commandID)
  {
    hide Enabled, Apply, Inv, Shows;
    RunKeepsInv(trace, actions, j);
    if trace[j].execs[t] == Marking {
      UnstartedShows(trace[j], t);
    } else {
      var st, a := trace[j - 1], actions[j - 1];
      if a.Executing? && a.t == t {
        ExecStepIs(st, a);
        ProgressShows(trace, actions, j - 1, t);
        ExecShows(st, t, a.exec, a.store);
        assert MarksRun(a, t, if a.exec.MarkRun? then a.exec.commandID else "") <==> a.exec.MarkRun?;
      } else {
        ExecsMove(st, a, t);
        ProgressShows(trace, actions, j - 1, t);
        OthersEndOrLeave(st, a, t);
        RunKeepsInv(trace, actions, j - 1);
        StepForward(st, a);
        ShowsStays(st, trace[j], t);
      }
    }
  }

  predicate MarksRun(a: Action, t: Tid, commandID: string) {
    a.Executing? && a.t == t && a.exec.MarkRun? && a.exec.commandID == commandID
  }

  lemma ShowsStays(st: State, after: State, t: Tid)
    requires Inv(st) && t in st.execs && Shows(st.rows, t, st.execs[t]) && EndsOrLeaves(st.rows, after.rows, t)
    requires Forward(st.rows, after.rows, st.used)
    ensures Shows(after.rows, t, st.execs[t])
    ensures Active(after.rows, t) ==> Active(st.rows, t) && after.rows[t].commandID == st.rows[t].commandID
  {
  }

  /** The row shows nothing of an end, and a command only once it runs. */
  predicate Unended(row: Row) {
    && row.result == "" && ErrorIs(row, "", "") && row.completedMs == 0 && row.expiresMs == 0
    && (row.status == Running || row.commandID == "")
  }

  predicate LiveUnended(rows: Rows, t: Tid) {
    Active(rows, t) ==> Unended(rows[t])
  }

  lemma SubmitKeepsUnended(st: State, s: nat, e: SubmitStep, store: StoreOutcome, t: Tid)
    requires s in st.submits && CanSubmit(st, s, e, store) && LiveUnended(st.rows, t)
    ensures LiveUnended(Submitted(st, s, e, store).rows, t)
  {
    if e.Insert? {
    } else {
      SubmitsOnlyInsert(st, s, e, store);
    }
  }

  lemma ExecKeepsUnended(st: State, u: Tid, e: ExecStep, store: StoreOutcome, t: Tid)
    requires u in st.execs && CanExec(st, u, e) && ExecOk(st.rows, u, st.execs[u]) && LiveUnended(st.rows, t)
    ensures LiveUnended(Executed(st, u, e, store).rows, t)
  {
    match e {
      case MarkDispatch(n) => case MarkRun(k, n) => case EndDispatch(v) =>
      case Finalize(n, x) => case Complete => case Close =>
    }
  }

  lemma CancelKeepsUnended(st: State, c: nat, e: CancelStep, store: StoreOutcome, t: Tid)
    requires c in st.cancels && CanCancel(st, c, e) && LiveUnended(st.rows, t)
    ensures LiveUnended(Cancelled(st, c, e, store).rows, t)
  {
    match e { case Inspect => case Write(n, x) => case Clear => case SignalDone => }
  }

  /** A live row shows no result, no error and no end. */
  lemma {:induction false} LiveRowsShowNoEnd(trace: seq<State>, actions: seq<Action>, j: nat, t: Tid)
    requires IsRun(trace, actions) && j < |trace|
    ensures LiveUnended(trace[j].rows, t)
  {
    hide NewSubmit, Submitted, Executed, Cancelled, LiveUnended;
    if j == 0 {
      NothingIsLiveAtFirst(t);
    } else {
      var st, a := trace[j - 1], actions[j - 1];
      LiveRowsShowNoEnd(trace, actions, j - 1, t);
      RunKeepsInv(trace, actions, j - 1);
      match a {
        case Submitting(s, e, store) => SubmitKeepsUnended(st, s, e, store, t);
        case Executing(u, e, store) => ExecKeepsUnended(st, u, e, store, t);
        case Canceling(c, e, store) => CancelKeepsUnended(st, c, e, store, t);
        case Prune(now) => PruneKeepsUnended(st.rows, now, t);
        case BeginSubmit(s, owner, request, mode) => case BeginCancel(c, u, owner) =>
      }
    }
  }

  lemma NothingIsLiveAtFirst(t: Tid)
    ensures LiveUnended(INIT.rows, t)
  {
  }

  lemma PruneKeepsUnended(rows: Rows, nowMs: int, t: Tid)
    requires LiveUnended(rows, t)
    ensures LiveUnended(DeleteExpired(rows, nowMs), t)
  {
  }

  // ---------- What a cancel is told ----------

  function Outcome(pc: CancelPc): Option<CancelOutcome> {
    match pc
    case Clearing(outcome) => Some(outcome)
    case Signalling(outcome) => Some(outcome)
    case Answered(outcome) => Some(outcome)
    case _ => None
  }

  /** What the cancel's own step finds out. */
  predicate Learns(st: State, a: Action, c: nat, outcome: CancelOutcome) {
    && a.Canceling? && a.c == c && c in st.cancels && CanCancel(st, c, a.cancel)
    && var t, works := st.cancels[c].t, a.store.Works?;
       var mine := works && t in st.rows && st.rows[t].owner == st.cancels[c].owner;
       match outcome
       case Unknown => a.cancel.Inspect? && !mine
       case AlreadyOver => a.cancel.Inspect? && mine && Terminal(st.rows[t].status)
       case Applied => a.cancel.Write? && works && Active(st.rows, t)
       case NotApplied => a.cancel.Write? && works && !Active(st.rows, t)
       case Errored => a.cancel.Write? && !works
  }

  lemma CancelStepLearns(st: State, c: nat, e: CancelStep, store: StoreOutcome)
    requires c in st.cancels && CanCancel(st, c, e)
    ensures var after := Cancelled(st, c, e, store);
            && c in after.cancels
            && (Outcome(after.cancels[c].pc).Some? ==>
                  || Outcome(after.cancels[c].pc) == Outcome(st.cancels[c].pc)
                  || Learns(st, Canceling(c, e, store), c, Outcome(after.cancels[c].pc).value))
  {
    match e { case Inspect => case Write(n, x) => case Clear => case SignalDone => }
  }

  /** A cancel is told what its own look or write found. */
  lemma {:induction false} CancelsAreToldTheTruth(trace: seq<State>, actions: seq<Action>, j: nat, c: nat)
    returns (k: nat)
    requires IsRun(trace, actions) && j < |trace| && c in trace[j].cancels && Outcome(trace[j].cancels[c].pc).Some?
    ensures k < j && Learns(trace[k], actions[k], c, Outcome(trace[j].cancels[c].pc).value)
  {
    hide Enabled, Apply, Learns;
    var st, a := trace[j - 1], actions[j - 1];
    CancelsMove(st, a, c);
    if c in st.cancels && a.Canceling? && a.c == c {
      CancelStepIs(st, a);
      CancelStepLearns(st, c, a.cancel, a.store);
      if Outcome(trace[j].cancels[c].pc) == Outcome(st.cancels[c].pc) {
        k := CancelsAreToldTheTruth(trace, actions, j - 1, c);
      } else {
        k := j - 1;
      }
    } else {
      k := CancelsAreToldTheTruth(trace, actions, j - 1, c);
    }
  }

  lemma CancelStepIs(st: State, a: Action)
    requires Enabled(st, a) && a.Canceling?
    ensures a.c in st.cancels && CanCancel(st, a.c, a.cancel) && Apply(st, a) == Cancelled(st, a.c, a.cancel, a.store)
  {
  }

  // ---------- How long results are kept ----------

  /** The step prunes at a time at which the row has expired. */
  predicate Expires(a: Action, row: Row) {
    a.Prune? && 0 < row.expiresMs <= a.nowMs
  }

  lemma OnlyPruneRemoves(st: State, a: Action, t: Tid)
    requires Inv(st) && Enabled(st, a) && t in st.rows && Terminal(st.rows[t].status)
    ensures t in Apply(st, a).rows <==> !Expires(a, st.rows[t])
    ensures t in Apply(st, a).rows ==> Apply(st, a).rows[t] == st.rows[t]
  {
    StepForward(st, a);
    hide Inv, NewSubmit, Submitted, Executed, Cancelled;
    match a
    case Submitting(s, e, store) => SubmitsOnlyInsert(st, s, e, store);
    case Executing(u, e, store) => ExecKeepsKeys(st, u, e, store);
    case Canceling(c, e, store) => CancelKeepsKeys(st, c, e, store);
    case _ =>
  }

  lemma ExecKeepsKeys(st: State, u: Tid, e: ExecStep, store: StoreOutcome)
    requires u in st.execs && CanExec(st, u, e)
    ensures Executed(st, u, e, store).rows.Keys == st.rows.Keys
  {
    match e {
      case MarkDispatch(n) => case MarkRun(k, n) => case EndDispatch(v) =>
      case Finalize(n, x) => case Complete => case Close =>
    }
  }

  lemma CancelKeepsKeys(st: State, c: nat, e: CancelStep, store: StoreOutcome)
    requires c in st.cancels && CanCancel(st, c, e)
    ensures Cancelled(st, c, e, store).rows.Keys == st.rows.Keys
  {
    match e { case Inspect => case Write(n, x) => case Clear => case SignalDone => }
  }

  /** A finished row is there, unchanged, exactly until something prunes at or after its expiry. */
  lemma {:induction false} ResultsAreKept(trace: seq<State>, actions: seq<Action>, i: nat, j: nat, t: Tid)
    requires IsRun(trace, actions) && i <= j < |trace| && t in trace[i].rows && Terminal(trace[i].rows[t].status)
    ensures t in trace[j].rows <==> forall k | i <= k < j :: !Expires(actions[k], trace[i].rows[t])
    ensures t in trace[j].rows ==> trace[j].rows[t] == trace[i].rows[t]
    decreases j - i
  {
    hide Inv, Enabled, Apply, Expires;
    if i < j {
      ResultsAreKept(trace, actions, i, j - 1, t);
      RunKeepsInv(trace, actions, j - 1);
      if t in trace[j - 1].rows {
        OnlyPruneRemoves(trace[j - 1], actions[j - 1], t);
      } else {
        RowsOnlyMoveForward(trace, actions, i, j - 1);
        RowsOnlyMoveForward(trace, actions, j - 1, j);
        RunKeepsInv(trace, actions, i);
        RowsAreUsed(trace[i]);
      }
    }
  }
}
