/** What a submit can rely on while it waits: reservations of request IDs, and done signals that tell
    the truth. The store is assumed to work; what needs no such assumption is said to. */
module TaskWaiters {
  import opened Prelude
  import opened Tasks
  import opened TaskRuns
  import OwnerScope
  import Text

  /** No statement of the step fails. */
  predicate Faultless(a: Action) {
    match a
    case Submitting(_, _, store) => store.Works?
    case Executing(_, _, store) => store.Works?
    case Canceling(_, _, store) => store.Works?
    case _ => true
  }

  // ---------- The invariant ----------

  /** A live task that has been published can still signal its waiters. */
  ghost predicate LiveAreOpen(st: State) {
    forall t | t in st.records && Active(st.rows, t) :: t in st.runtimes
  }

  predicate InTheMaking(st: State, t: Tid) {
    && t in st.rows && t in st.makers && st.makers[t] in st.submits
    && var x := st.submits[st.makers[t]];
       x.pc == Publishing(t) && IsOf(st.rows[t], x.owner, x.request)
  }

  /** A live task that has not been published is still in the hands of its submit. */
  ghost predicate UnpublishedAreMade(st: State) {
    forall t | t in st.rows && Active(st.rows, t) && t !in st.records :: InTheMaking(st, t)
  }

  predicate NoneFor(rows: Rows, x: Submit) {
    forall t | t in rows :: !IsOf(rows[t], x.owner, x.request)
  }

  /** The reply of a synchronous submit shows a finished task, if it shows one. */
  predicate EndsWell(mode: Mode, reply: Reply) {
    mode.Sync? && reply.Snapshot? ==> Terminal(reply.status)
  }

  /** What a submit's place in its program says about the task it looks at. */
  predicate Knows(st: State, x: Submit) {
    match x.pc
    case Checking => x.request != "" ==> NoneFor(st.rows, x)
    case Inserting => x.request != "" ==> NoneFor(st.rows, x)
    case Relooking => false
    case Fetching(t) => t in st.used && (Active(st.rows, t) ==> t in st.records)
    case Reading(t, record) => t in st.used && if record then t in st.records else Over(st.rows, t)
    case Waiting(t, record) => t in st.used && if record then t in st.records else Over(st.rows, t)
    case Rereading(t) => t in st.used && (x.mode.Sync? ==> Over(st.rows, t))
    case Leaving(reply) => EndsWell(x.mode, reply)
    case Returned(reply) => EndsWell(x.mode, reply)
    case _ => true
  }

  predicate KeyOk(x: Submit) {
    x.key == OwnerScope.KeyOf(x.owner, x.request) && Text.Tight(x.owner) && Text.Tight(x.request)
  }

  ghost predicate SubmitsOk(st: State) {
    forall s | s in st.submits :: Knows(st, st.submits[s])
  }

  ghost predicate KeysOk(st: State) {
    forall s | s in st.submits :: KeyOk(st.submits[s])
  }

  predicate NoFallback(pc: ExecPc) {
    match pc
    case Finishing(_, fallback) => !fallback
    case Completing(next) => next.Stop?
    case Closing(next) => next.Stop?
    case Stopped(critical) => !critical
    case _ => true
  }

  predicate WroteOrLost(rows: Rows, x: Cancel) {
    match x.pc
    case Clearing(_) => Over(rows, x.t)
    case Signalling(_) => Over(rows, x.t)
    case _ => true
  }

  ghost predicate WritersOk(st: State) {
    && (forall t | t in st.execs :: NoFallback(st.execs[t]))
    && (forall c | c in st.cancels :: st.cancels[c].t in st.used && WroteOrLost(st.rows, st.cancels[c]))
  }

  ghost predicate QuietInv(st: State) {
    LiveAreOpen(st) && UnpublishedAreMade(st) && SubmitsOk(st) && WritersOk(st)
  }

  // ---------- Steps of everyone but submits ----------

  /** Rows keep owner and request, and none comes to life; those that are over stay as they are. */
  ghost predicate Calm(before: Rows, after: Rows) {
    forall t | t in after ::
      && t in before && after[t].owner == before[t].owner && after[t].request == before[t].request
      && (Over(before, t) ==> after[t] == before[t])
  }

  /** A step that leaves submits alone and takes records only of tasks that are over. */
  ghost predicate Background(st: State, after: State) {
    && after.submits == st.submits && after.records == st.records && after.used == st.used
    && after.makers == st.makers && after.reserved == st.reserved
    && Calm(st.rows, after.rows) && after.runtimes <= st.runtimes
    && forall t | t in st.runtimes && t !in after.runtimes :: Over(after.rows, t)
  }

  lemma KnowsFollows(st: State, after: State, x: Submit)
    requires Knows(st, x) && Background(st, after)
    ensures Knows(after, x)
  {
  }

  lemma BackgroundKeeps(st: State, after: State)
    requires LiveAreOpen(st) && UnpublishedAreMade(st) && SubmitsOk(st) && Background(st, after)
    ensures LiveAreOpen(after) && UnpublishedAreMade(after) && SubmitsOk(after)
  {
    forall t | t in after.rows && Active(after.rows, t) && t !in after.records
      ensures InTheMaking(after, t)
    {
      assert InTheMaking(st, t);
    }
    hide Knows, KeyOk, InTheMaking;
    forall s | s in after.submits
      ensures Knows(after, after.submits[s])
    {
      KnowsFollows(st, after, st.submits[s]);
    }
  }

  lemma ExecIsBackground(st: State, t: Tid, e: ExecStep)
    requires WritersOk(st) && ExecsOk(st) && t in st.execs && CanExec(st, t, e)
    ensures Background(st, Executed(st, t, e, Works))
  {
    assert NoFallback(st.execs[t]) && ExecOk(st.rows, t, st.execs[t]);
    match e {
      case MarkDispatch(n) => case MarkRun(k, n) => case EndDispatch(v) =>
      case Finalize(n, x) => case Complete => case Close =>
    }
  }

  lemma CancelIsBackground(st: State, c: nat, e: CancelStep)
    requires WritersOk(st) && c in st.cancels && CanCancel(st, c, e)
    ensures Background(st, Cancelled(st, c, e, Works))
  {
    assert WroteOrLost(st.rows, st.cancels[c]);
    match e { case Inspect => case Write(n, x) => case Clear => case SignalDone => }
  }

  lemma WroteOrLostFollows(before: Rows, after: Rows, x: Cancel)
    requires WroteOrLost(before, x) && Calm(before, after)
    ensures WroteOrLost(after, x)
  {
  }

  lemma ExecKeepsWriters(st: State, t: Tid, e: ExecStep)
    requires WritersOk(st) && t in st.execs && CanExec(st, t, e) && Background(st, Executed(st, t, e, Works))
    ensures WritersOk(Executed(st, t, e, Works))
  {
    var after := Executed(st, t, e, Works);
    assert NoFallback(st.execs[t]);
    assert after.cancels == st.cancels && after.execs == st.execs[t := after.execs[t]]
        && NoFallback(after.execs[t]) by {
      match e {
        case MarkDispatch(n) => case MarkRun(k, n) => case EndDispatch(v) =>
        case Finalize(n, x) => case Complete => case Close =>
      }
    }
    hide Executed, WroteOrLost, NoFallback;
    forall c | c in after.cancels
      ensures WroteOrLost(after.rows, after.cancels[c])
    {
      WroteOrLostFollows(st.rows, after.rows, st.cancels[c]);
    }
  }

  lemma CancelKeepsWriters(st: State, c: nat, e: CancelStep)
    requires WritersOk(st) && c in st.cancels && CanCancel(st, c, e) && Background(st, Cancelled(st, c, e, Works))
    ensures WritersOk(Cancelled(st, c, e, Works))
  {
    var after := Cancelled(st, c, e, Works);
    assert WroteOrLost(st.rows, st.cancels[c]);
    assert after.execs == st.execs && after.cancels == st.cancels[c := after.cancels[c]]
        && after.cancels[c].t == st.cancels[c].t && WroteOrLost(after.rows, after.cancels[c]) by {
      match e { case Inspect => case Write(n, x) => case Clear => case SignalDone => }
    }
    hide Cancelled, WroteOrLost;
    forall d | d in after.cancels && d != c
      ensures WroteOrLost(after.rows, after.cancels[d])
    {
      WroteOrLostFollows(st.rows, after.rows, st.cancels[d]);
    }
  }

  lemma PruneKeepsQuiet(st: State, now: int)
    requires QuietInv(st)
    ensures QuietInv(Apply(st, Prune(now)))
  {
    var after := Apply(st, Prune(now));
    BackgroundKeeps(st, after);
    forall c | c in after.cancels
      ensures WroteOrLost(after.rows, after.cancels[c])
    {
      WroteOrLostFollows(st.rows, after.rows, st.cancels[c]);
    }
  }

  // ---------- Steps of submits ----------

  /** Two submits that hold reservations are for different requests. */
  lemma HoldersDiffer(st: State, s: nat, r: nat)
    requires HoldsOk(st) && s in st.submits && r in st.submits && s != r
    requires st.submits[s].holds && st.submits[r].holds && KeyOk(st.submits[s]) && KeyOk(st.submits[r])
    ensures !(st.submits[s].owner == st.submits[r].owner && st.submits[s].request == st.submits[r].request)
  {
    hide OwnerScope.KeyOf, OwnerScope.RequestKey, Text.Trim;
    assert HasReserved(st.reserved, s, st.submits[s]) && HasReserved(st.reserved, r, st.submits[r]);
  }

  /** A live task found by the holder of its request has been published: its maker would hold the
      same reservation otherwise. */
  lemma FoundIsPublished(st: State, s: nat, t: Tid)
    requires HoldsOk(st) && KeysOk(st) && UnpublishedAreMade(st) && SubmitsOk(st)
    requires s in st.submits && st.submits[s].pc.Looking?
    requires t in st.rows && IsOf(st.rows[t], st.submits[s].owner, st.submits[s].request)
    ensures Active(st.rows, t) ==> t in st.records
  {
    hide KeyOk;
    if Active(st.rows, t) && t !in st.records {
      assert InTheMaking(st, t);
      var r := st.makers[t];
      assert HoldOk(st.submits[s]) && HoldOk(st.submits[r]);
      HoldersDiffer(st, s, r);
    }
  }

  /** An insert that follows its lookup meets no conflict. */
  lemma NoConflict(st: State, s: nat, t: Tid)
    requires IdsOk(st) && SubmitsOk(st) && s in st.submits && st.submits[s].pc.Inserting? && t !in st.used
    ensures !Conflicts(st.rows, t, st.submits[s].owner, st.submits[s].request)
  {
    assert Knows(st, st.submits[s]);
  }

  predicate Early(e: SubmitStep) {
    e.Reserve? || e.Lookup? || e.Check?
  }

  lemma SubmitIs(st: State, s: nat)
    requires HoldsOk(st) && SubmitsOk(st) && s in st.submits
    ensures HoldOk(st.submits[s]) && Knows(st, st.submits[s])
  {
    hide HoldOk, Knows;
  }

  /** Where the step of a submit leads, the submit still knows what it must. */
  lemma EarlyStepKnows(st: State, s: nat, e: SubmitStep)
    requires IdsOk(st) && HoldsOk(st) && KeysOk(st) && UnpublishedAreMade(st) && SubmitsOk(st)
    requires s in st.submits && CanSubmit(st, s, e, Works) && Early(e)
    ensures var after := Submitted(st, s, e, Works);
            s in after.submits && Knows(after, after.submits[s])
  {
    hide KeyOk, HoldsOk, KeysOk, UnpublishedAreMade, SubmitsOk;
    SubmitIs(st, s);
    match e {
      case Lookup(found) => if found.Some? { FoundIsPublished(st, s, found.value); }
      case Reserve =>
      case Check(refusal) =>
    }
  }

  lemma MakingStepKnows(st: State, s: nat, e: SubmitStep)
    requires IdsOk(st) && MakersOk(st) && SubmitsOk(st) && s in st.submits && CanSubmit(st, s, e, Works) && Makes(e)
    ensures var after := Submitted(st, s, e, Works);
            s in after.submits && Knows(after, after.submits[s])
  {
    assert MakingOk(st, st.submits[s].pc);
    match e {
      case Insert(t, now) => NoConflict(st, s, t);
      case Publish =>
      case Unreserve =>
      case Launch =>
    }
  }

  lemma LateStepKnows(st: State, s: nat, e: SubmitStep)
    requires IdsOk(st) && LiveAreOpen(st) && SubmitsOk(st) && s in st.submits && CanSubmit(st, s, e, Works)
    requires !Early(e) && !Makes(e)
    ensures var after := Submitted(st, s, e, Works);
            s in after.submits && Knows(after, after.submits[s])
  {
    assert Knows(st, st.submits[s]);
    hide SubmitsOk;
    if e.EndWait? {
      WaitedForTheEnd(st, s, e.ending);
    } else {
      hide CanEndWait;
      match e { case Relookup(found) => case Fetch => case Read => case Reread => case Leave => }
    }
  }

  lemma WaitedForTheEnd(st: State, s: nat, ending: Ending)
    requires IdsOk(st) && LiveAreOpen(st) && s in st.submits && CanSubmit(st, s, EndWait(ending), Works)
    requires Knows(st, st.submits[s])
    ensures var after := Submitted(st, s, EndWait(ending), Works);
            s in after.submits && Knows(after, after.submits[s])
  {
  }

  /** A new row is not of a request that another submit has looked up in vain. */
  lemma InsertLeavesOthers(st: State, s: nat, t: Tid, now: int, r: nat)
    requires IdsOk(st) && HoldsOk(st) && KeysOk(st) && s in st.submits && r in st.submits && r != s
    requires st.submits[s].pc.Inserting? && t !in st.used && Knows(st, st.submits[r])
    ensures Knows(InsertedRow(st, s, t, now, Works), st.submits[r])
  {
    hide KeyOk, Knows;
    var x, y := st.submits[s], st.submits[r];
    assert HoldOk(x) && HoldOk(y);
    if x.holds && y.holds {
      HoldersDiffer(st, s, r);
    }
    assert MustHold(y) ==> x.owner != y.owner || x.request != y.request || y.request == "";
    hide IdsOk, HoldsOk, KeysOk, Conflicts;
    NewRowLeavesKnown(st, InsertedRow(st, s, t, now, Works), t, y);
  }

  lemma NewRowLeavesKnown(st: State, after: State, t: Tid, y: Submit)
    requires Knows(st, y) && t !in st.used && st.used <= after.used && after.records == st.records
    requires forall u | u in after.rows :: (u in st.rows && after.rows[u] == st.rows[u]) || u == t
    requires t in after.rows && IsOf(after.rows[t], y.owner, y.request) && y.request != "" ==>
               !y.pc.Checking? && !y.pc.Inserting?
    ensures Knows(after, y)
  {
  }

  /** The other submits know as much as before. */
  lemma OthersKnow(st: State, s: nat, e: SubmitStep, r: nat)
    requires IdsOk(st) && HoldsOk(st) && KeysOk(st) && SubmitsOk(st) && s in st.submits && CanSubmit(st, s, e, Works)
    requires r in st.submits && r != s
    ensures Knows(Submitted(st, s, e, Works), st.submits[r])
  {
    hide KeyOk;
    assert Knows(st, st.submits[r]);
    if e.Insert? {
      InsertLeavesOthers(st, s, e.t, e.nowMs, r);
    } else if Makes(e) {
      hide HoldsOk, KeysOk;
      match e { case Publish => case Unreserve => case Launch => }
    } else {
      OtherStepsOnlySubmit(st, s, e, Works);
      hide Submitted;
    }
  }

  lemma LiveFollows(st: State, after: State, s: nat)
    requires LiveAreOpen(st) && UnpublishedAreMade(st) && OnlySubmit(st, after, s)
    ensures LiveAreOpen(after) && UnpublishedAreMade(after)
  {
    forall t | t in after.rows && Active(after.rows, t) && t !in after.records
      ensures InTheMaking(after, t)
    {
      assert InTheMaking(st, t);
    }
  }

  lemma InsertKeepsLive(st: State, s: nat, t: Tid, now: int)
    requires IdsOk(st) && LiveAreOpen(st) && UnpublishedAreMade(st)
    requires s in st.submits && st.submits[s].pc.Inserting? && t !in st.used
    requires !Conflicts(st.rows, t, st.submits[s].owner, st.submits[s].request)
    ensures LiveAreOpen(InsertedRow(st, s, t, now, Works)) && UnpublishedAreMade(InsertedRow(st, s, t, now, Works))
  {
    hide Conflicts;
    var after := InsertedRow(st, s, t, now, Works);
    forall u | u in after.rows && Active(after.rows, u) && u !in after.records
      ensures InTheMaking(after, u)
    {
      assert u != t ==> InTheMaking(st, u);
    }
  }

  /** A submit publishes the task it has made, and nobody else's. */
  lemma MakingKeepsLive(st: State, s: nat, e: SubmitStep)
    requires LiveAreOpen(st) && UnpublishedAreMade(st) && s in st.submits
    requires CanSubmit(st, s, e, Works) && Makes(e) && !e.Insert?
    ensures LiveAreOpen(Submitted(st, s, e, Works)) && UnpublishedAreMade(Submitted(st, s, e, Works))
  {
    var after := Submitted(st, s, e, Works);
    match e { case Publish => case Unreserve => case Launch => }
    forall t | t in after.rows && Active(after.rows, t) && t !in after.records
      ensures InTheMaking(after, t)
    {
      assert InTheMaking(st, t);
    }
  }

  lemma SubmitKeepsLive(st: State, s: nat, e: SubmitStep)
    requires IdsOk(st) && QuietInv(st) && s in st.submits && CanSubmit(st, s, e, Works)
    ensures LiveAreOpen(Submitted(st, s, e, Works)) && UnpublishedAreMade(Submitted(st, s, e, Works))
  {
    hide LiveAreOpen, UnpublishedAreMade, SubmitsOk, WritersOk, IdsOk, InsertedRow;
    if e.Insert? {
      NoConflict(st, s, e.t);
      InsertKeepsLive(st, s, e.t, e.nowMs);
    } else if Makes(e) {
      MakingKeepsLive(st, s, e);
    } else {
      OtherStepsOnlySubmit(st, s, e, Works);
      LiveFollows(st, Submitted(st, s, e, Works), s);
    }
  }

  // ---------- Runs ----------

  lemma HoldsStep(st: State, a: Action)
    requires HoldsOk(st) && KeysOk(st) && Enabled(st, a)
    ensures HoldsOk(Apply(st, a)) && KeysOk(Apply(st, a))
  {
    hide HoldsOk, KeysOk, Submitted, Executed, Cancelled, NewSubmit;
    match a
    case BeginSubmit(s, owner, request, mode) => BeginHolds(st, s, owner, request, mode);
    case Submitting(s, e, store) =>
      SubmitHolds(st, s, e, store);
      SubmitKeepsKeys(st, s, e, store);
    case Executing(t, e, store) => ExecLeavesSubmits(st, t, e, store);
    case BeginCancel(c, t, owner) => SameSubmitsHold(st, Apply(st, a));
    case Canceling(c, e, store) => CancelLeavesSubmits(st, c, e, store);
    case Prune(now) => SameSubmitsHold(st, Apply(st, a));
  }

  lemma SameSubmitsHold(st: State, after: State)
    requires HoldsOk(st) && KeysOk(st) && after.submits == st.submits && after.reserved == st.reserved
    ensures HoldsOk(after) && KeysOk(after)
  {
    hide KeyOk, HoldOk;
  }

  lemma ExecLeavesSubmits(st: State, t: Tid, e: ExecStep, store: StoreOutcome)
    requires HoldsOk(st) && KeysOk(st) && t in st.execs && CanExec(st, t, e)
    ensures HoldsOk(Executed(st, t, e, store)) && KeysOk(Executed(st, t, e, store))
  {
    hide HoldsOk, KeysOk;
    SameSubmitsHold(st, Executed(st, t, e, store));
  }

  lemma CancelLeavesSubmits(st: State, c: nat, e: CancelStep, store: StoreOutcome)
    requires HoldsOk(st) && KeysOk(st) && c in st.cancels && CanCancel(st, c, e)
    ensures HoldsOk(Cancelled(st, c, e, store)) && KeysOk(Cancelled(st, c, e, store))
  {
    hide HoldsOk, KeysOk;
    SameSubmitsHold(st, Cancelled(st, c, e, store));
  }

  lemma BeginHolds(st: State, s: nat, owner: string, request: string, mode: Mode)
    requires HoldsOk(st) && KeysOk(st) && s !in st.submits
    ensures var after := st.(submits := st.submits[s := NewSubmit(owner, request, mode)]);
            HoldsOk(after) && KeysOk(after)
  {
    hide OwnerScope.KeyOf, OwnerScope.RequestKey, Text.Trim;
    var after := st.(submits := st.submits[s := NewSubmit(owner, request, mode)]);
    OwnerScope.KeyOfTrimmed(owner, request);
    assert HoldOk(after.submits[s]);
    hide HoldOk;
    forall k | k in after.reserved
      ensures HeldBy(after.submits, after.reserved[k], k)
    {
      assert HeldBy(st.submits, st.reserved[k], k);
    }
  }

  lemma SubmitKeepsKeys(st: State, s: nat, e: SubmitStep, store: StoreOutcome)
    requires KeysOk(st) && s in st.submits && CanSubmit(st, s, e, store)
    ensures KeysOk(Submitted(st, s, e, store))
  {
    hide OwnerScope.KeyOf, OwnerScope.RequestKey, Text.Trim, Finds, CanEndWait, Shown, Inserted, Conflicts;
    assert KeyOk(st.submits[s]);
    if Makes(e) {
      match e { case Insert(t, now) => case Publish => case Unreserve => case Launch => }
    } else {
      OtherStepsOnlySubmit(st, s, e, store);
      hide Submitted;
    }
  }

  lemma {:induction false} RunHolds(trace: seq<State>, actions: seq<Action>, i: nat)
    requires IsRun(trace, actions) && i < |trace|
    ensures HoldsOk(trace[i]) && KeysOk(trace[i])
  {
    if i > 0 {
      RunHolds(trace, actions, i - 1);
      hide HoldsOk, KeysOk, Enabled, Apply;
      HoldsStep(trace[i - 1], actions[i - 1]);
    }
  }

  lemma QuietSubmit(st: State, s: nat, e: SubmitStep)
    requires Inv(st) && HoldsOk(st) && KeysOk(st) && QuietInv(st) && s in st.submits && CanSubmit(st, s, e, Works)
    ensures QuietInv(Submitted(st, s, e, Works))
  {
    hide Submitted, Knows, LiveAreOpen, UnpublishedAreMade, WritersOk, HoldsOk, KeysOk, IdsOk, MakersOk, ExecsOk;
    var after := Submitted(st, s, e, Works);
    SubmitKeepsLive(st, s, e);
    if Early(e) {
      EarlyStepKnows(st, s, e);
    } else if Makes(e) {
      MakingStepKnows(st, s, e);
    } else {
      LateStepKnows(st, s, e);
    }
    OnlyOneSubmitMoves(st, s, e);
    forall r | r in after.submits && r != s
      ensures r in st.submits && after.submits[r] == st.submits[r] && Knows(after, after.submits[r])
    {
      OthersKnow(st, s, e, r);
    }
    SubmitKeepsWriters(st, s, e);
  }

  lemma OnlyOneSubmitMoves(st: State, s: nat, e: SubmitStep)
    requires s in st.submits && CanSubmit(st, s, e, Works)
    ensures var after := Submitted(st, s, e, Works);
            s in after.submits && after.submits == st.submits[s := after.submits[s]]
  {
    if Makes(e) {
      match e { case Insert(t, now) => case Publish => case Unreserve => case Launch => }
    } else {
      OtherStepsOnlySubmit(st, s, e, Works);
      hide Submitted;
    }
  }

  lemma SubmitKeepsWriters(st: State, s: nat, e: SubmitStep)
    requires WritersOk(st) && s in st.submits && CanSubmit(st, s, e, Works)
    ensures WritersOk(Submitted(st, s, e, Works))
  {
    if Makes(e) {
      forall c | c in st.cancels
        ensures WroteOrLost(Submitted(st, s, e, Works).rows, st.cancels[c])
      {
        assert WroteOrLost(st.rows, st.cancels[c]);
      }
      match e { case Insert(t, now) => case Publish => case Unreserve => case Launch => }
    } else {
      OtherStepsOnlySubmit(st, s, e, Works);
      hide Submitted;
    }
  }

  lemma QuietBegins(st: State, a: Action)
    requires QuietInv(st) && Enabled(st, a) && (a.BeginSubmit? || a.BeginCancel?)
    ensures QuietInv(Apply(st, a))
  {
    hide OwnerScope.KeyOf, OwnerScope.RequestKey, Text.Trim;
    var after := Apply(st, a);
    forall t | t in after.rows && Active(after.rows, t) && t !in after.records
      ensures InTheMaking(after, t)
    {
      assert InTheMaking(st, t);
    }
    forall s | s in after.submits
      ensures Knows(after, after.submits[s])
    {
      assert s in st.submits ==> Knows(st, st.submits[s]);
    }
  }

  lemma QuietStep(st: State, a: Action)
    requires Inv(st) && HoldsOk(st) && KeysOk(st) && QuietInv(st) && Enabled(st, a) && Faultless(a)
    ensures QuietInv(Apply(st, a))
  {
    hide LiveAreOpen, UnpublishedAreMade, SubmitsOk, WritersOk, Submitted, Executed, Cancelled, NewSubmit;
    match a
    case BeginSubmit(s, owner, request, mode) => QuietBegins(st, a);
    case BeginCancel(c, t, owner) => QuietBegins(st, a);
    case Submitting(s, e, store) => QuietSubmit(st, s, e);
    case Executing(t, e, store) =>
      ExecIsBackground(st, t, e);
      BackgroundKeeps(st, Executed(st, t, e, Works));
      ExecKeepsWriters(st, t, e);
    case Canceling(c, e, store) =>
      CancelIsBackground(st, c, e);
      BackgroundKeeps(st, Cancelled(st, c, e, Works));
      CancelKeepsWriters(st, c, e);
    case Prune(now) => PruneKeepsQuiet(st, now);
  }

  lemma {:induction false} QuietRun(trace: seq<State>, actions: seq<Action>, i: nat)
    requires IsRun(trace, actions) && i < |trace|
    requires forall j | 0 <= j < |actions| :: Faultless(actions[j])
    ensures QuietInv(trace[i])
  {
    if i > 0 {
      QuietRun(trace, actions, i - 1);
      RunKeepsInv(trace, actions, i - 1);
      RunHolds(trace, actions, i - 1);
      hide Inv, HoldsOk, KeysOk, QuietInv, Enabled, Apply, Faultless;
      QuietStep(trace[i - 1], actions[i - 1]);
    }
  }

  // ---------- What holds of every run ----------

  /** Whatever the store does: the reservation set is exactly the keys of the submits that hold one,
      each key is held by one submit, and a submit that has returned holds none. */
  lemma ReservationsAreTheHolders(trace: seq<State>, actions: seq<Action>, i: nat)
    requires IsRun(trace, actions) && i < |trace|
    ensures forall k :: k in trace[i].reserved <==>
              exists s | s in trace[i].submits :: trace[i].submits[s].holds && trace[i].submits[s].key == k
    ensures forall s, r | s in trace[i].submits && r in trace[i].submits && s != r ::
              trace[i].submits[s].holds && trace[i].submits[r].holds ==>
                trace[i].submits[s].key != trace[i].submits[r].key
    ensures forall s | s in trace[i].submits && trace[i].submits[s].pc.Returned? :: !trace[i].submits[s].holds
  {
    RunHolds(trace, actions, i);
    var st := trace[i];
    hide IsRun, KeysOk;
    forall k | k in st.reserved
      ensures exists s | s in st.submits :: st.submits[s].holds && st.submits[s].key == k
    {
      assert HeldBy(st.submits, st.reserved[k], k);
    }
    forall s | s in st.submits
      ensures HasReserved(st.reserved, s, st.submits[s]) && HoldOk(st.submits[s])
    {
    }
    hide HoldsOk;
  }

  /** With a working store the reservations alone keep a second row of one request out: an insert
      never meets the unique index. */
  lemma InsertsNeverConflict(trace: seq<State>, actions: seq<Action>, i: nat)
    requires IsRun(trace, actions) && i < |actions|
    requires forall j | 0 <= j < |actions| :: Faultless(actions[j])
    requires actions[i].Submitting? && actions[i].submit.Insert?
    ensures var x := trace[i].submits[actions[i].s];
            !Conflicts(trace[i].rows, actions[i].submit.t, x.owner, x.request)
  {
    QuietRun(trace, actions, i);
    RunKeepsInv(trace, actions, i);
    assert Enabled(trace[i], actions[i]);
    NoConflict(trace[i], actions[i].s, actions[i].submit.t);
  }

  /** With a working store, a live task that has been published has a record with an open done
      signal, and a closed one means that the row is terminal or pruned. */
  lemma DoneSignalsTellTheTruth(trace: seq<State>, actions: seq<Action>, i: nat, t: Tid)
    requires IsRun(trace, actions) && i < |trace|
    requires forall j | 0 <= j < |actions| :: Faultless(actions[j])
    ensures t in trace[i].records && Active(trace[i].rows, t) ==> t in trace[i].runtimes && t !in trace[i].closed
    ensures t in trace[i].closed ==> Over(trace[i].rows, t)
  {
    QuietRun(trace, actions, i);
    RunKeepsInv(trace, actions, i);
  }

  // ---------- What a submit says about its task ----------

  /** The task that a submit is publishing, launching or looking at. */
  function TaskOf(pc: SubmitPc): Option<Tid> {
    match pc
    case Publishing(t) => Some(t)
    case Unreserving(t) => Some(t)
    case Launching(t) => Some(t)
    case Fetching(t) => Some(t)
    case Reading(t, _) => Some(t)
    case Waiting(t, _) => Some(t)
    case Rereading(t) => Some(t)
    case _ => None
  }

  /** Finished is what the task's row says as long as there is one, and not found means that there is
      none. */
  predicate TrueOf(rows: Rows, t: Tid, reply: Reply) {
    match reply
    case Snapshot(status) => Terminal(status) && t in rows ==> rows[t].status == status
    case TaskMissing => t !in rows
    case ContextEnded => true
    case _ => false
  }

  /** The submit is busy with the task, or has an answer that is true of it. */
  predicate Serves(rows: Rows, pc: SubmitPc, t: Tid) {
    TaskOf(pc) == Some(t) || ((pc.Leaving? || pc.Returned?) && TrueOf(rows, t, pc.reply))
  }

  lemma OwnStepServes(st: State, s: nat, e: SubmitStep, t: Tid)
    requires s in st.submits && CanSubmit(st, s, e, Works) && Serves(st.rows, st.submits[s].pc, t)
    ensures var after := Submitted(st, s, e, Works);
            && s in after.submits && after.submits[s].mode == st.submits[s].mode
            && Serves(after.rows, after.submits[s].pc, t)
  {
    hide Finds, CanEndWait;
    if Makes(e) {
      match e { case Publish => case Unreserve => case Launch => }
    } else {
      match e { case Fetch => case Read => case EndWait(ending) => case Reread => case Leave => }
    }
  }

  /** What is true of a task stays true of it. */
  lemma AnswersStayTrue(before: Rows, after: Rows, used: set<Tid>, pc: SubmitPc, t: Tid)
    requires Serves(before, pc, t) && Forward(before, after, used) && t in used
    ensures Serves(after, pc, t)
  {
  }

  lemma OthersLeaveIt(st: State, a: Action, s: nat)
    requires Enabled(st, a) && Faultless(a) && s in st.submits && !(a.Submitting? && a.s == s)
    ensures s in Apply(st, a).submits && Apply(st, a).submits[s] == st.submits[s]
  {
    hide Executed, Cancelled, NewSubmit, Submitted;
    match a
    case Submitting(r, e, store) => OnlyOneSubmitMoves(st, r, e);
    case Executing(t, e, store) => ExecLeavesThem(st, t, e);
    case Canceling(c, e, store) => CancelLeavesThem(st, c, e);
    case _ =>
  }

  lemma ExecLeavesThem(st: State, t: Tid, e: ExecStep)
    requires t in st.execs && CanExec(st, t, e)
    ensures Executed(st, t, e, Works).submits == st.submits
  {
  }

  lemma CancelLeavesThem(st: State, c: nat, e: CancelStep)
    requires c in st.cancels && CanCancel(st, c, e)
    ensures Cancelled(st, c, e, Works).submits == st.submits
  {
  }

  lemma StepServes(st: State, a: Action, s: nat, t: Tid)
    requires Inv(st) && Enabled(st, a) && Faultless(a) && s in st.submits && t in st.used
    requires Serves(st.rows, st.submits[s].pc, t)
    ensures var after := Apply(st, a);
            && s in after.submits && t in after.used && after.submits[s].mode == st.submits[s].mode
            && Serves(after.rows, after.submits[s].pc, t)
  {
    hide Inv, Submitted, Executed, Cancelled, NewSubmit, Serves, CanSubmit, CanExec, CanCancel;
    StepForward(st, a);
    if a.Submitting? && a.s == s {
      OwnStepServes(st, s, a.submit, t);
    } else {
      OthersLeaveIt(st, a, s);
      hide Apply, Enabled;
      AnswersStayTrue(st.rows, Apply(st, a).rows, st.used, st.submits[s].pc, t);
    }
  }

  lemma {:induction false} RunServes(trace: seq<State>, actions: seq<Action>, i: nat, j: nat, s: nat, t: Tid)
    requires IsRun(trace, actions) && i <= j < |trace|
    requires forall k | 0 <= k < |actions| :: Faultless(actions[k])
    requires s in trace[i].submits && t in trace[i].used && Serves(trace[i].rows, trace[i].submits[s].pc, t)
    ensures s in trace[j].submits && t in trace[j].used && trace[j].submits[s].mode == trace[i].submits[s].mode
    ensures Serves(trace[j].rows, trace[j].submits[s].pc, t)
    decreases j - i
  {
    if i < j {
      hide Serves, Enabled, Apply, Faultless, Inv;
      RunServes(trace, actions, i, j - 1, s, t);
      RunKeepsInv(trace, actions, j - 1);
      StepServes(trace[j - 1], actions[j - 1], s, t);
    }
  }

  lemma TaskIsKnown(st: State, s: nat, t: Tid)
    requires Inv(st) && QuietInv(st) && s in st.submits && TaskOf(st.submits[s].pc) == Some(t)
    ensures t in st.used
  {
    assert Knows(st, st.submits[s]) && MakingOk(st, st.submits[s].pc);
  }

  /** With a working store, a submit that has got to a task, its own or an earlier one of the same
      request, answers with what is true of that task, or with its caller's context error; a
      synchronous one shows the task finished, just as its row says until it is pruned. */
  lemma SyncSubmitsEndWell(trace: seq<State>, actions: seq<Action>, i: nat, j: nat, s: nat, t: Tid)
    requires IsRun(trace, actions) && i <= j < |trace|
    requires forall k | 0 <= k < |actions| :: Faultless(actions[k])
    requires s in trace[i].submits && TaskOf(trace[i].submits[s].pc) == Some(t)
    ensures s in trace[j].submits
    ensures trace[j].submits[s].pc.Returned? ==>
              match trace[j].submits[s].pc.reply
              case Snapshot(status) =>
                && (trace[j].submits[s].mode.Sync? ==> Terminal(status))
                && (Terminal(status) && t in trace[j].rows ==> trace[j].rows[t].status == status)
              case TaskMissing => t !in trace[j].rows
              case ContextEnded => true
              case _ => false
  {
    QuietRun(trace, actions, i);
    QuietRun(trace, actions, j);
    RunKeepsInv(trace, actions, i);
    TaskIsKnown(trace[i], s, t);
    RunServes(trace, actions, i, j, s, t);
    hide IsRun, Inv;
    assert Knows(trace[j], trace[j].submits[s]);
  }
}
