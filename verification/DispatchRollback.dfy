/** A run in which the rollback of one dispatch takes away the route that another dispatch has made and
    is relying on: the flag the code consults says that the dispatch once made a route for its
    terminal session, not that the route there now is the one it made. */
module DispatchRollback {
  import opened Prelude
  import opened SessionRuntime
  import opened Routes
  import opened Dispatch
  import opened DispatchHistory

  datatype Runs = Runs(trace: seq<State>, actions: seq<Action>)

  ghost predicate EndsIn(run: Runs, st: State) {
    Run(run.trace, run.actions) && run.trace[|run.actions|] == st
  }

  /** One more action at the end of a run. */
  lemma Extend(run: Runs, st: State, a: Action) returns (longer: Runs, end: State)
    requires EndsIn(run, st) && Enabled(st, a)
    ensures EndsIn(longer, end) && end == Apply(st, a)
    ensures longer.actions == run.actions + [a] && |longer.trace| == |run.actions| + 2
    ensures longer.trace[|run.actions|] == st
  {
    hide Enabled, Apply;
    end := Apply(st, a);
    longer := Runs(run.trace + [end], run.actions + [a]);
  }

  function Busy(inflight: int): Session {
    Session("A", map["c" := Slots(1, inflight)], map[], false, None, false)
  }

  lemma NewOnA()
    ensures NewSession("A", map["c" := 1]) == Busy(0)
  {
    assert NewSession("A", map["c" := 1]).caps == map["c" := Slots(1, 0)];
  }

  /** What matters of a state of this run. */
  ghost predicate Scene(st: State, disp: map<Did, Dispatcher>, fwd: Forward, epoch: nat, sess: map<Sid, Session>) {
    && st.disp == disp && st.routes == fwd && EpochOf(st, "t") == epoch && st.sess == sess && st.cmds == map[]
  }

  lemma WorkerConnects(run: Runs, st: State, s: Sid, disp: map<Did, Dispatcher>, fwd: Forward, epoch: nat,
                       sess: map<Sid, Session>) returns (longer: Runs, end: State)
    requires EndsIn(run, st) && Scene(st, disp, fwd, epoch, sess) && s !in sess
    ensures EndsIn(longer, end) && Scene(end, disp, fwd, epoch, sess[s := Busy(0)])
  {
    hide EndsIn;
    NewOnA();
    hide NewSession;
    longer, end := Extend(run, st, Connection(Connect(s, "A", map["c" := 1])));
  }

  /** A new dispatch finds no route and begins to pick. */
  lemma BeginsToPick(run: Runs, st: State, d: Did, now: int, disp: map<Did, Dispatcher>, epoch: nat,
                     sess: map<Sid, Session>) returns (longer: Runs, end: State)
    requires EndsIn(run, st) && Scene(st, disp, map[], epoch, sess) && d !in disp
    ensures EndsIn(longer, end)
    ensures Scene(end, disp[d := Dispatcher("c", "t", Pick(First), None)], map[], epoch, sess)
  {
    hide EndsIn;
    longer, end := Extend(run, st, Start(d, "c", "t"));
    assert Scene(end, disp[d := Dispatcher("c", "t", Entry, None)], map[], epoch, sess);
    longer, end := Extend(longer, end, Look(d, BeginTerminal(now)));
  }

  lemma TakesSlot(run: Runs, st: State, d: Did, s: Sid, disp: map<Did, Dispatcher>, epoch: nat,
                  sess: map<Sid, Session>) returns (longer: Runs, end: State)
    requires EndsIn(run, st) && Scene(st, disp, map[], epoch, sess) && s in sess && sess[s] == Busy(0)
    requires d in disp && disp[d] == Dispatcher("c", "t", Pick(First), None)
    ensures EndsIn(longer, end)
    ensures Scene(end, disp[d := Dispatcher("c", "t", Reserving(s, First), None)], map[], epoch, sess[s := Busy(1)])
  {
    hide EndsIn;
    longer, end := Extend(run, st, Slot(d, PickTakes(s)));
    assert end.sess[s].caps == map["c" := Slots(1, 1)];
  }

  lemma MakesRoute(run: Runs, st: State, d: Did, s: Sid, now: int, disp: map<Did, Dispatcher>, epoch: nat,
                   sess: map<Sid, Session>) returns (longer: Runs, end: State)
    requires EndsIn(run, st) && Scene(st, disp, map[], epoch, sess) && s in sess && sess[s].node == "A"
    requires d in disp && disp[d] == Dispatcher("c", "t", Reserving(s, First), None)
    ensures EndsIn(longer, end)
    ensures Scene(end, disp[d := Dispatcher("c", "t", Picked(s, true), Some(Moment("A", epoch)))],
                  map["t" := Route("A", now)], epoch, sess)
  {
    hide EndsIn;
    longer, end := Extend(run, st, Slot(d, ReserveRoute(now)));
    assert Reserved(st.routes, "t", "A", now) == map["t" := Route("A", now)];
  }

  lemma RoutesCleared(run: Runs, st: State, now: int, disp: map<Did, Dispatcher>, epoch: nat, sess: map<Sid, Session>)
    returns (longer: Runs, end: State)
    requires EndsIn(run, st) && Scene(st, disp, map["t" := Route("A", now)], epoch, sess)
    ensures EndsIn(longer, end) && Scene(end, disp, map[], epoch + 1, sess)
  {
    hide EndsIn;
    longer, end := Extend(run, st, Connection(ClearNodeRoutes("A")));
    assert ClearedByNode(st.routes, "A") == map[];
  }

  /** A dispatch on a fresh session of the node finds no route and makes one. */
  lemma RoutesOn(run: Runs, st: State, d: Did, now: int, disp: map<Did, Dispatcher>, epoch: nat,
                 sess: map<Sid, Session>) returns (longer: Runs, end: State)
    requires EndsIn(run, st) && Scene(st, disp, map[], epoch, sess) && d !in disp && d in sess && sess[d] == Busy(0)
    ensures EndsIn(longer, end)
    ensures Scene(end, disp[d := Dispatcher("c", "t", Picked(d, true), Some(Moment("A", epoch)))],
                  map["t" := Route("A", now)], epoch, sess[d := Busy(1)])
  {
    hide EndsIn, Scene;
    var pick, reserve := Dispatcher("c", "t", Pick(First), None), Dispatcher("c", "t", Reserving(d, First), None);
    longer, end := BeginsToPick(run, st, d, now, disp, epoch, sess);
    longer, end := TakesSlot(longer, end, d, d, disp[d := pick], epoch, sess);
    assert disp[d := pick][d := reserve] == disp[d := reserve];
    longer, end := MakesRoute(longer, end, d, d, now, disp[d := reserve], epoch, sess[d := Busy(1)]);
    var picked := Dispatcher("c", "t", Picked(d, true), Some(Moment("A", epoch)));
    assert disp[d := reserve][d := picked] == disp[d := picked];
  }

  /** The first dispatch has taken a slot on the only session and made the route to its node; the worker
      connects again, its old routes are cleared, and a second dispatch makes the route anew. */
  lemma SecondMakesItAnew() returns (run: Runs, st: State)
    ensures EndsIn(run, st)
    ensures Scene(st, map[0 := Dispatcher("c", "t", Picked(0, true), Some(Moment("A", 0))),
                          1 := Dispatcher("c", "t", Picked(1, true), Some(Moment("A", 1)))],
                  map["t" := Route("A", 2)], 1, map[0 := Busy(1), 1 := Busy(1)])
  {
    run, st := Runs([INIT], []), INIT;
    assert EndsIn(run, st) && Scene(st, map[], map[], 0, map[]);
    hide EndsIn, Scene;
    run, st := WorkerConnects(run, st, 0, map[], map[], 0, map[]);
    run, st := RoutesOn(run, st, 0, 1, map[], 0, map[0 := Busy(0)]);
    var picked := map[0 := Dispatcher("c", "t", Picked(0, true), Some(Moment("A", 0)))];
    run, st := WorkerConnects(run, st, 1, picked, map["t" := Route("A", 1)], 0, map[0 := Busy(1)]);
    run, st := RoutesCleared(run, st, 1, picked, 0, map[0 := Busy(1), 1 := Busy(0)]);
    run, st := RoutesOn(run, st, 1, 2, picked, 1, map[0 := Busy(1), 1 := Busy(0)]);
  }

  /** A dispatch whose session has closed fails to register and gives its slot back. */
  lemma FailsToRegister(run: Runs, st: State, disp: map<Did, Dispatcher>, fwd: Forward, epoch: nat,
                        sess: map<Sid, Session>)
    returns (longer: Runs, end: State)
    requires EndsIn(run, st) && Scene(st, disp, fwd, epoch, sess) && 0 in sess && sess[0] == Busy(1)
    requires 0 in disp && disp[0].cap == "c" && disp[0].pc == Picked(0, true)
    ensures EndsIn(longer, end)
    ensures Scene(end, disp[0 := disp[0].(pc := Undoing(0, true, None, Unavailable))], fwd, epoch, end.sess)
    ensures end.sess.Keys == sess.Keys && end.sess[0].node == "A"
  {
    hide EndsIn;
    longer, end := Extend(run, st, Connection(CloseStart(0, "gone")));
    assert Scene(end, disp, fwd, epoch, sess[0 := Busy(1).(done := true, closedErr := Some("gone"))]);
    longer, end := Extend(longer, end, Send(0, Register("k")));
    var abandoning := disp[0 := disp[0].(pc := Abandoning(0, true, Unavailable))];
    longer, end := GivesSlotBack(longer, end, abandoning, fwd, epoch, end.sess);
  }

  lemma GivesSlotBack(run: Runs, st: State, disp: map<Did, Dispatcher>, fwd: Forward, epoch: nat,
                      sess: map<Sid, Session>)
    returns (longer: Runs, end: State)
    requires EndsIn(run, st) && Scene(st, disp, fwd, epoch, sess) && 0 in sess && sess[0].node == "A"
    requires 0 in disp && disp[0].pc == Abandoning(0, true, Unavailable)
    ensures EndsIn(longer, end)
    ensures Scene(end, disp[0 := disp[0].(pc := Undoing(0, true, None, Unavailable))], fwd, epoch, end.sess)
    ensures end.sess.Keys == sess.Keys && end.sess[0].node == "A"
  {
    hide EndsIn, Release;
    longer, end := Extend(run, st, Slot(0, AbandonSlot));
  }

  /** The first dispatch then fails, and its rollback removes the second's route while the second is
      still using it. */
  lemma RollbackTakesAnothersRoute() returns (run: Runs, st: State)
    ensures Run(run.trace, run.actions) && run.trace[|run.actions|] == st
    ensures var i := |run.actions| - 1;
            && i >= 0 && run.actions[i] == Answering(0, UndoRoute) && 0 in run.trace[i].disp
            && TakesRoute(run.trace, i, 0) && !Own(run.trace, i, 0)
    ensures 1 in st.disp && st.disp[1].pc == Picked(1, true) && st.disp[1].tsid == "t" && "t" !in st.routes
  {
    run, st := SecondMakesItAnew();
    hide EndsIn, Own, TakesRoute;
    run, st := FailsToRegister(run, st, st.disp, st.routes, 1, st.sess);
    var before := st;
    run, st := Extend(run, st, Answering(0, UndoRoute));
    RollbackIsLast(run, before, st);
  }

  /** The last step of such a run takes a route, which the exact condition says is not its own. */
  lemma RollbackIsLast(run: Runs, before: State, st: State)
    requires EndsIn(run, st) && |run.actions| > 0 && run.trace[|run.actions| - 1] == before
    requires run.actions[|run.actions| - 1] == Answering(0, UndoRoute)
    requires 0 in before.disp && before.disp[0].tsid in before.routes && before.disp[0].tsid !in st.routes
    requires before.disp[0].moment.Some? && before.disp[0].moment.value.epoch != EpochOf(before, before.disp[0].tsid)
    ensures Run(run.trace, run.actions) && run.trace[|run.actions|] == st
    ensures TakesRoute(run.trace, |run.actions| - 1, 0) && !Own(run.trace, |run.actions| - 1, 0)
  {
    hide Enabled, Apply, EpochOf, Own;
    RollbackTakesItsOwnRouteExactly(run.trace, run.actions, |run.actions| - 1, 0);
  }
}
