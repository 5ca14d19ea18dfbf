/** What an execute or resource call answers: its reply and what becomes of its session follow from the
    table at its claim and from what docker did, whoever interleaves. */
module ContainerAnswers {
  import opened Prelude
  import opened Containers
  import opened ContainerRuns

  // ---------- Docker's part ----------

  /** The docker step settles how the call ends. */
  predicate Settles(d: DockerStep) {
    d == Create(false) || d == Start(false) || d.Run?
  }

  /** Where a call may be once docker has settled it, until it has answered. */
  predicate Ending(d: DockerStep, phase: Phase) {
    match d
    case Create(_) => phase.Dropping?
    case Start(_) => phase.Withdrawing? || phase.Dropping?
    case Run(Finished) => phase == Idling(true)
    case Run(Errored) => phase == Idling(false)
    case Run(TimedOut) => phase == Destroying(false) || (phase.Removing? && !phase.gone)
    case Run(NoSuchContainer) => phase == Destroying(true) || (phase.Removing? && phase.gone)
    case _ => false
  }

  /** The container is no session's, and its name is not handed out again. */
  predicate Released(st: State, container: string) {
    container in st.names && !Owned(st.table, container)
  }

  /** What is known meanwhile of the container of a call that gives its session up. */
  predicate GivenUp(st: State, d: DockerStep, c: Call) {
    && (d == Start(false) && c.phase.Dropping? ==> c.container in st.issued)
    && (c.phase.Removing? ==> c.phase.container == c.container && Released(st, c.container))
  }

  /** The session of a call whose command came back: idle again, with its lease as it was. */
  predicate HandedBack(before: State, after: State, c: Call) {
    && c.sid in before.table && before.table[c.sid].container == c.container
    && after.table == before.table[c.sid := before.table[c.sid].(busy := false)]
  }

  /** The last step of a call that docker has settled. */
  ghost predicate Answers(d: DockerStep, before: State, after: State, a: nat)
    requires a in before.calls && a in after.calls && after.calls[a].phase.Done?
  {
    var c, reply := before.calls[a], after.calls[a].phase.reply;
    match d
    case Run(Finished) => HandedBack(before, after, c) && reply == Completed(before.table[c.sid].lease / 1_000_000)
    case Run(Errored) => HandedBack(before, after, c) && reply == Failed
    case Run(NoSuchContainer) => Released(after, c.container) && c.container in after.issued && reply == Gone
    case Run(TimedOut) => Released(after, c.container) && c.container in after.issued && reply == Failed
    case Start(_) => Released(after, c.container) && c.container in after.issued && reply == Failed
    case _ => Released(after, c.container) && reply == Failed
  }

  predicate StepOf(act: Action, a: nat) {
    (act.Lock? || act.Docker?) && act.id == a
  }

  lemma OthersLeaveIt(st: State, act: Action, a: nat)
    requires Enabled(st, act) && a in st.calls && !StepOf(act, a)
    ensures a in Apply(st, act).calls && Apply(st, act).calls[a] == st.calls[a]
  {
    hide ClaimAnswer, ClaimEntry, CanLock;
  }

  /** Names stay handed out, and a container that is no session's stays so. */
  lemma ReleasedStays(st: State, act: Action, container: string)
    requires Enabled(st, act) && Released(st, container)
    ensures Released(Apply(st, act), container)
  {
    hide Locked, Dockered;
    match act
    case Lock(id, l) => LockKeepsReleased(st, id, l, container);
    case Docker(id, d) => DockerKeepsTable(st, id, d);
    case Begin(id, kind, sid) =>
    case Sweep(now) =>
    case JanitorRemoves(c) =>
  }

  lemma LockKeepsReleased(st: State, id: nat, l: LockStep, container: string)
    requires id in st.calls && CanLock(st, id, l) && Released(st, container)
    ensures Released(Locked(st, id, l), container)
  {
    if l.Claim? {
      hide ClaimTable, ClaimAnswer, ClaimEntry;
      if ClaimAnswer(st.table, st.calls[id], l.name).Ok? {
        ClaimWritesOneEntry(st.table, st.calls[id], l.name);
      }
    }
  }

  lemma DockerKeepsTable(st: State, id: nat, d: DockerStep)
    requires id in st.calls && CanDocker(st, id, d)
    ensures Dockered(st, id, d).table == st.table && Dockered(st, id, d).names == st.names
    ensures st.issued <= Dockered(st, id, d).issued
  {
  }

  lemma IssuedGrows(st: State, act: Action)
    requires Enabled(st, act)
    ensures st.issued <= Apply(st, act).issued
  {
    hide ClaimAnswer, ClaimEntry, CanLock;
  }

  /** The holder of a session is the only one that owns its container. */
  lemma DroppedIsReleased(st: State, after: State, c: Call)
    requires NamesOk(st) && Holds(st.table, c)
    requires after.table == st.table - {c.sid} && after.names == st.names
    ensures Released(after, c.container)
  {
  }

  /** A call that docker has settled takes its next step towards the answer, and keeps its session
      until then. */
  lemma EndingStep(st: State, act: Action, a: nat, d: DockerStep)
    requires HoldersOk(st) && NamesOk(st) && Enabled(st, act) && a in st.calls && StepOf(act, a)
    requires Settles(d) && Ending(d, st.calls[a].phase) && GivenUp(st, d, st.calls[a])
    ensures var after := Apply(st, act);
            && a in after.calls && after.calls[a].container == st.calls[a].container
            && if after.calls[a].phase.Done? then Answers(d, st, after, a)
               else Ending(d, after.calls[a].phase) && GivenUp(after, d, after.calls[a])
  {
    var after, c := Apply(st, act), st.calls[a];
    if InFlight(c) {
      assert Holds(st.table, c);
      if after.table == st.table - {c.sid} && after.names == st.names {
        DroppedIsReleased(st, after, c);
      }
    }
    hide HoldersOk, NamesOk, ClaimAnswer, ClaimEntry, InFlight, Released;
    match act {
      case Lock(_, l) => match l { case Claim(n) => case Drop => case MarkIdle => case Destroy => }
      case Docker(_, e) => match e { case Create(k) => case Start(k) => case Withdraw => case Run(o) => case Remove => }
    }
  }

  lemma GivenUpStays(st: State, act: Action, a: nat, d: DockerStep)
    requires Enabled(st, act) && a in st.calls && !StepOf(act, a) && GivenUp(st, d, st.calls[a])
    ensures a in Apply(st, act).calls && Apply(st, act).calls[a] == st.calls[a]
    ensures GivenUp(Apply(st, act), d, st.calls[a])
  {
    hide Enabled, Apply, Released;
    OthersLeaveIt(st, act, a);
    IssuedGrows(st, act);
    if st.calls[a].phase.Removing? {
      ReleasedStays(st, act, st.calls[a].container);
    }
  }

  lemma SettledHere(st: State, a: nat, d: DockerStep)
    requires a in st.calls && CanDocker(st, a, d) && Settles(d)
    ensures var after := Dockered(st, a, d);
            && a in after.calls && after.calls[a].container == st.calls[a].container
            && Ending(d, after.calls[a].phase) && GivenUp(after, d, after.calls[a])
  {
  }

  /** Until it answers, a settled call is on its way. */
  lemma {:induction false} OnItsWay(cfg: LeaseConfig, trace: seq<State>, actions: seq<Action>, i: nat, j: nat, a: nat)
    requires IsRun(cfg, trace, actions) && i < j < |trace|
    requires actions[i].Docker? && actions[i].id == a && Settles(actions[i].docker)
    ensures a in trace[i].calls && a in trace[j].calls && trace[j].calls[a].container == trace[i].calls[a].container
    ensures trace[j].calls[a].phase.Done? ||
            (Ending(actions[i].docker, trace[j].calls[a].phase)
             && GivenUp(trace[j], actions[i].docker, trace[j].calls[a]))
  {
    if j == i + 1 {
      hide Inv, Locked, Claimed;
      assert Enabled(trace[i], actions[i]) && trace[j] == Apply(trace[i], actions[i]);
      SettledHere(trace[i], a, actions[i].docker);
    } else {
      hide Enabled, Apply, Ending, GivenUp, Settles;
      OnItsWay(cfg, trace, actions, i, j - 1, a);
      RunKeepsInv(cfg, trace, actions, j - 1);
      var st, act := trace[j - 1], actions[j - 1];
      if st.calls[a].phase.Done? {
        DoneStays(st, act, a);
      } else if StepOf(act, a) {
        EndingStep(st, act, a, actions[i].docker);
      } else {
        GivenUpStays(st, act, a, actions[i].docker);
      }
    }
  }

  lemma DoneStays(st: State, act: Action, a: nat)
    requires Enabled(st, act) && a in st.calls && st.calls[a].phase.Done?
    ensures a in Apply(st, act).calls && Apply(st, act).calls[a] == st.calls[a]
  {
    if !StepOf(act, a) {
      OthersLeaveIt(st, act, a);
    }
  }

  /** The answer of a call is what docker did to it: a finished command reports the lease that its
      session has when it is handed back; an error leaves the session as well, and fails; a command cut
      off fails, and one without its container reports it as gone, both only after the session has left
      the table and the removal of its container has been issued; a container that could not be made or
      started leaves no session. */
  lemma {:induction false} AnswerFollowsDocker(cfg: LeaseConfig, trace: seq<State>, actions: seq<Action>,
                                               i: nat, j: nat, a: nat) returns (k: nat)
    requires IsRun(cfg, trace, actions) && i < j < |trace|
    requires actions[i].Docker? && actions[i].id == a && Settles(actions[i].docker)
    requires a in trace[j].calls && trace[j].calls[a].phase.Done?
    ensures i < k < j && StepOf(actions[k], a) && a in trace[k].calls && a in trace[k + 1].calls
    ensures trace[k].calls[a].container == trace[i].calls[a].container
    ensures trace[k + 1].calls[a] == trace[j].calls[a] && Answers(actions[i].docker, trace[k], trace[k + 1], a)
  {
    hide Enabled, Apply, Ending, GivenUp, Settles, Answers;
    OnItsWay(cfg, trace, actions, i, j, a);
    if j == i + 1 {
      NotDoneAtOnce(cfg, trace, actions, i, a);
      assert false;
    }
    OnItsWay(cfg, trace, actions, i, j - 1, a);
    RunKeepsInv(cfg, trace, actions, j - 1);
    var st, act := trace[j - 1], actions[j - 1];
    if st.calls[a].phase.Done? {
      DoneStays(st, act, a);
      k := AnswerFollowsDocker(cfg, trace, actions, i, j - 1, a);
    } else {
      if !StepOf(act, a) {
        OthersLeaveIt(st, act, a);
      }
      EndingStep(st, act, a, actions[i].docker);
      k := j - 1;
    }
  }

  lemma NotDoneAtOnce(cfg: LeaseConfig, trace: seq<State>, actions: seq<Action>, i: nat, a: nat)
    requires IsRun(cfg, trace, actions) && i < |actions|
    requires actions[i].Docker? && actions[i].id == a && Settles(actions[i].docker)
    ensures a in trace[i + 1].calls && !trace[i + 1].calls[a].phase.Done?
  {
    hide Locked, Claimed;
    assert Enabled(trace[i], actions[i]) && trace[i + 1] == Apply(trace[i], actions[i]);
  }

  /** A session that a call has given up stays out of the table, and its removal issued. */
  lemma {:induction false} ReleasedForGood(cfg: LeaseConfig, trace: seq<State>, actions: seq<Action>, k: nat, j: nat,
                                           container: string)
    requires IsRun(cfg, trace, actions) && k <= j < |trace| && Released(trace[k], container)
    ensures Released(trace[j], container) && (container in trace[k].issued ==> container in trace[j].issued)
    decreases j - k
  {
    hide Enabled, Apply, Released;
    if k < j {
      ReleasedForGood(cfg, trace, actions, k, j - 1, container);
      ReleasedStays(trace[j - 1], actions[j - 1], container);
      IssuedGrows(trace[j - 1], actions[j - 1]);
    }
  }

  // ---------- The claim's part ----------

  /** The one session a claim takes: marked busy; an execute call moves its lease up to the start of the
      call plus the TTL asked for, and no further. */
  predicate TakenBy(before: Table, after: Table, c: Call, container: string) {
    && c.sid in after && after == before[c.sid := after[c.sid]]
    && after[c.sid].busy && after[c.sid].container == container
    && (c.sid in before ==> container == before[c.sid].container)
    && if c.kind.Resource? then c.sid in before && after[c.sid].lease == before[c.sid].lease
       else
         var target := c.kind.start + c.kind.ttlSec * 1_000_000_000;
         after[c.sid].lease == if c.sid in before && before[c.sid].lease > target then before[c.sid].lease else target
  }

  /** The answer of the claim: a resource call wants a session, an execute call may make one; nobody
      gets a busy one. */
  lemma ClaimAnswersTheTable(cfg: LeaseConfig, trace: seq<State>, actions: seq<Action>, i: nat, a: nat)
    requires IsRun(cfg, trace, actions) && i < |actions|
    requires actions[i].Lock? && actions[i].id == a && actions[i].lock.Claim?
    ensures a in trace[i].calls && a in trace[i + 1].calls
    ensures var before, after, named := trace[i].calls[a], trace[i + 1].calls[a], actions[i].lock.name.Some?;
            var makes := before.kind.ExecNew? || (before.kind.Exec? && before.kind.create);
            && after.sid == before.sid && after.kind == before.kind
            && (after.phase == Done(Refused(SessionBusy)) <==>
                  before.sid in trace[i].table && trace[i].table[before.sid].busy)
            && (after.phase == Done(Refused(SessionNotFound)) <==> before.sid !in trace[i].table && !makes)
            && (after.phase == Done(Refused(NotAllocated)) <==> before.sid !in trace[i].table && makes && !named)
            && (after.phase.Creating? <==> before.sid !in trace[i].table && makes && named)
            && (after.phase.Running? <==> before.sid in trace[i].table && !trace[i].table[before.sid].busy)
            && (after.phase.Done? ==> trace[i + 1].table == trace[i].table)
            && (!after.phase.Done? ==> TakenBy(trace[i].table, trace[i + 1].table, before, after.container))
  {
    hide Dockered;
    assert Enabled(trace[i], actions[i]) && trace[i + 1] == Apply(trace[i], actions[i]);
  }

  // ---------- Where answers come from ----------

  /** The step refuses the call or has docker settle it. */
  predicate Decides(before: State, after: State, act: Action, a: nat) {
    && StepOf(act, a) && a in before.calls && a in after.calls
    && (act.Docker? ==> Settles(act.docker))
    && (act.Lock? ==> act.lock.Claim? && after.calls[a].phase.Done?)
  }

  predicate Undecided(phase: Phase) {
    phase.Claiming? || phase.Creating? || phase.Starting? || phase.Running?
  }

  lemma UndecidedUntilDecided(st: State, act: Action, a: nat)
    requires Enabled(st, act) && a in st.calls && Undecided(st.calls[a].phase) && StepOf(act, a)
    requires a in Apply(st, act).calls && !Undecided(Apply(st, act).calls[a].phase)
    ensures Decides(st, Apply(st, act), act, a)
  {
  }

  lemma NewCallsClaim(st: State, act: Action, a: nat)
    requires Enabled(st, act) && a !in st.calls && a in Apply(st, act).calls
    ensures Apply(st, act).calls[a].phase.Claiming?
  {
    hide ClaimAnswer, ClaimEntry, CanLock;
  }

  /** Every answer has such a cause. */
  lemma {:induction false} AnswersHaveACause(cfg: LeaseConfig, trace: seq<State>, actions: seq<Action>, j: nat, a: nat)
    returns (i: nat)
    requires IsRun(cfg, trace, actions) && j < |trace| && a in trace[j].calls && !Undecided(trace[j].calls[a].phase)
    ensures i < j && Decides(trace[i], trace[i + 1], actions[i], a)
  {
    hide Enabled, Apply, Undecided, Decides;
    i := j - 1;
    var st, act := trace[i], actions[i];
    if a !in st.calls {
      NewCallsClaim(st, act, a);
      assert Undecided(Claiming) by { ClaimingIsUndecided(); }
      assert false;
    } else if !Undecided(st.calls[a].phase) {
      i := AnswersHaveACause(cfg, trace, actions, j - 1, a);
    } else {
      if !StepOf(act, a) {
        OthersLeaveIt(st, act, a);
      }
      UndecidedUntilDecided(st, act, a);
    }
  }

  lemma ClaimingIsUndecided()
    ensures Undecided(Claiming)
  {
  }
}
