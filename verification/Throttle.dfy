/** Throttling by compare-and-swap on a timestamp, as used by the route pruner (one minute) and
    the task pruner (fifteen seconds). Many callers read, decide and swap; each access of the
    timestamp is one atomic step. */
module Throttle {

  const TERMINAL_ROUTE_PRUNE_MIN_INTERVAL_MS := 60_000
  const INLINE_TASK_PRUNE_MIN_INTERVAL_MS := 15_000

  /** The decision to skip this round. */
  predicate Throttled(interval: int, last: int, now: int) {
    last > 0 && now - last < interval
  }

  datatype Caller =
    | Reading(now: int)             // about to load the timestamp
    | Swapping(now: int, last: int) // loaded `last`, decided to try
    | Skipped
    | Pruning(now: int)             // won the swap

  /** `stores` is the history of successful swaps. */
  datatype State = State(stored: int, callers: map<nat, Caller>, stores: seq<int>)

  datatype Action = Call(id: nat, now: int) | Load(id: nat) | CompareAndSwap(id: nat)

  predicate Enabled(st: State, a: Action) {
    match a
    case Call(id, now) => id !in st.callers
    case Load(id) => id in st.callers && st.callers[id].Reading?
    case CompareAndSwap(id) => id in st.callers && st.callers[id].Swapping?
  }

  function Apply(interval: int, st: State, a: Action): State
    requires Enabled(st, a)
  {
    match a
    case Call(id, now) => st.(callers := st.callers[id := Reading(now)])
    case Load(id) =>
      var now := st.callers[id].now;
      st.(callers := st.callers[id := if Throttled(interval, st.stored, now) then Skipped
                                      else Swapping(now, st.stored)])
    case CompareAndSwap(id) =>
      var c := st.callers[id];
      if st.stored == c.last then
        State(c.now, st.callers[id := Pruning(c.now)], st.stores + [c.now])
      else
        st.(callers := st.callers[id := Reading(c.now)])
  }

  ghost predicate Run(interval: int, trace: seq<State>, actions: seq<Action>) {
    && |trace| == |actions| + 1
    && trace[0] == State(0, map[], [])
    && forall i :: 0 <= i < |actions| ==>
         Enabled(trace[i], actions[i]) && trace[i + 1] == Apply(interval, trace[i], actions[i])
  }

  ghost predicate Inv(interval: int, st: State) {
    && st.stored == (if st.stores == [] then 0 else st.stores[|st.stores| - 1])
    && (forall id :: id in st.callers && st.callers[id].Swapping? ==>
          !Throttled(interval, st.callers[id].last, st.callers[id].now))
    && (forall i :: 0 < i < |st.stores| ==> !Throttled(interval, st.stores[i - 1], st.stores[i]))
  }

  lemma StepKeepsInv(interval: int, st: State, a: Action)
    requires Inv(interval, st) && Enabled(st, a)
    ensures Inv(interval, Apply(interval, st, a))
  {
  }

  lemma {:induction false} RunKeepsInv(interval: int, trace: seq<State>, actions: seq<Action>, i: nat)
    requires Run(interval, trace, actions) && i < |trace|
    ensures Inv(interval, trace[i])
  {
    if i > 0 {
      RunKeepsInv(interval, trace, actions, i - 1);
      StepKeepsInv(interval, trace[i - 1], actions[i - 1]);
    }
  }

  lemma {:induction false} Spread(interval: int, stores: seq<int>, a: nat, b: nat)
    requires forall i :: 0 < i < |stores| ==> !Throttled(interval, stores[i - 1], stores[i])
    requires a <= b < |stores|
    requires forall i :: a <= i <= b ==> stores[i] > 0
    ensures (b - a) * interval <= stores[b] - stores[a]
  {
    if a < b {
      Spread(interval, stores, a, b - 1);
    }
  }

  /** In every interleaving, n prunes with positive stored times span at least n - 1 intervals. */
  lemma PruneRateBound(interval: int, trace: seq<State>, actions: seq<Action>, a: nat, b: nat)
    requires Run(interval, trace, actions)
    requires a <= b < |trace[|actions|].stores|
    requires forall i :: a <= i <= b ==> trace[|actions|].stores[i] > 0
    ensures (b - a) * interval <= trace[|actions|].stores[b] - trace[|actions|].stores[a]
  {
    RunKeepsInv(interval, trace, actions, |actions|);
    Spread(interval, trace[|actions|].stores, a, b);
  }

  /** The route pruner: stored times of any two of its prunes are a minute apart per prune between. */
  lemma RoutePrunesAreAMinuteApart(trace: seq<State>, actions: seq<Action>, a: nat, b: nat)
    requires Run(TERMINAL_ROUTE_PRUNE_MIN_INTERVAL_MS, trace, actions)
    requires a <= b < |trace[|actions|].stores|
    requires forall i :: a <= i <= b ==> trace[|actions|].stores[i] > 0
    ensures (b - a) * 60_000 <= trace[|actions|].stores[b] - trace[|actions|].stores[a]
  {
    PruneRateBound(TERMINAL_ROUTE_PRUNE_MIN_INTERVAL_MS, trace, actions, a, b);
  }

  /** The task pruner, with fifteen seconds. */
  lemma TaskPrunesAreFifteenSecondsApart(trace: seq<State>, actions: seq<Action>, a: nat, b: nat)
    requires Run(INLINE_TASK_PRUNE_MIN_INTERVAL_MS, trace, actions)
    requires a <= b < |trace[|actions|].stores|
    requires forall i :: a <= i <= b ==> trace[|actions|].stores[i] > 0
    ensures (b - a) * 15_000 <= trace[|actions|].stores[b] - trace[|actions|].stores[a]
  {
    PruneRateBound(INLINE_TASK_PRUNE_MIN_INTERVAL_MS, trace, actions, a, b);
  }

  /** In a run of the pruner, a call gives up exactly if, when it loads the stored time, that is less than
      the interval ago; a lost swap makes it look again, and a won one stores its own time. */
  ghost predicate Decides(before: State, after: State, a: Action, intervalMs: int) {
    match a
    case Call(id, now) => id in after.callers && after.callers[id] == Reading(now) && after.stores == before.stores
    case Load(id) =>
      && id in before.callers && before.callers[id].Reading? && id in after.callers && after.stores == before.stores
      && (after.callers[id].Skipped? <==> before.stored > 0 && before.callers[id].now - before.stored < intervalMs)
      && (!after.callers[id].Skipped? ==> after.callers[id] == Swapping(before.callers[id].now, before.stored))
    case CompareAndSwap(id) =>
      && id in before.callers && before.callers[id].Swapping? && id in after.callers
      && var now := before.callers[id].now;
         if before.stored == before.callers[id].last then
           after.callers[id] == Pruning(now) && after.stores == before.stores + [now] && after.stored == now
         else
           after.callers[id] == Reading(now) && after.stores == before.stores && after.stored == before.stored
  }

  /** Route pruners decide by a minute, task pruners by fifteen seconds. */
  lemma PrunersDecide(trace: seq<State>, actions: seq<Action>, i: nat)
    requires i < |actions|
    ensures Run(TERMINAL_ROUTE_PRUNE_MIN_INTERVAL_MS, trace, actions) ==>
              |trace| == |actions| + 1 && Decides(trace[i], trace[i + 1], actions[i], 60_000)
    ensures Run(INLINE_TASK_PRUNE_MIN_INTERVAL_MS, trace, actions) ==>
              |trace| == |actions| + 1 && Decides(trace[i], trace[i + 1], actions[i], 15_000)
  {
    if Run(TERMINAL_ROUTE_PRUNE_MIN_INTERVAL_MS, trace, actions) {
      assert trace[i + 1] == Apply(TERMINAL_ROUTE_PRUNE_MIN_INTERVAL_MS, trace[i], actions[i]);
    }
    if Run(INLINE_TASK_PRUNE_MIN_INTERVAL_MS, trace, actions) {
      assert trace[i + 1] == Apply(INLINE_TASK_PRUNE_MIN_INTERVAL_MS, trace[i], actions[i]);
    }
  }
}
