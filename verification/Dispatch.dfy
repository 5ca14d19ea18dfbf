/** Dispatching a command, with every lock section as one atomic step (service_dispatch.go,
    session_runtime.go, service_connect.go). Any number of dispatchers, worker result frames,
    connection swaps, route prunes and session closes interleave freely. */
module Dispatch {
  import opened Prelude
  import opened Text
  import opened SessionRuntime
  import opened Routes

  type Sid = nat // one activeSession object
  type Did = nat // one dispatchCommand call

  datatype Session = Session(node: string, caps: Capabilities, pending: map<string, string>,
                             done: bool, closedErr: Option<string>, drained: bool)

  /** Which pickSessionForCapability call a dispatcher is in. */
  datatype Attempt = Plain | First | Retry

  /** Which pickSessionForNodeAndCapability call a dispatcher is in. */
  datatype Lookup = Sticky | AfterFirst | AfterRetry

  datatype Reply =
    | NoWorker | NoCapacity | Internal | Unavailable | ContextEnded
    | BareClose // result channel closed without a value
    | Got(outcome: Outcome)

  /** Where one dispatchCommand goroutine is, with the locals it still needs. */
  datatype Pc =
    | Entry
    | Pick(attempt: Attempt)
    | Reserving(s: Sid, attempt: Attempt)            // slot taken, route not yet reserved
    | Yielding(s: Sid, node: string, attempt: Attempt) // route names another node: give the slot back
    | Find(node: string, lookup: Lookup)
    | Acquiring(s: Sid, node: string, lookup: Lookup)
    | Stale(node: string, lookup: Lookup)
    | Picked(s: Sid, created: bool)                  // routing succeeded
    | Abandoning(s: Sid, created: bool, reply: Reply) // no pending entry: release by hand
    | Undoing(s: Sid, created: bool, registered: Option<string>, reply: Reply) // roll the route back
    | Enqueuing(s: Sid, created: bool, cmd: string)
    | Waiting(s: Sid, created: bool, cmd: string)
    | Settling(s: Sid, cmd: string, outcome: Outcome)
    | Unregistering(s: Sid, cmd: string, reply: Reply)
    | Leaving(cmd: string, reply: Reply)             // own removal in progress
    | Returned(reply: Reply)

  /** What the route of a terminal session said when a dispatcher touched or reserved it; `epoch`
      counts how often that route had been removed or rebound before. */
  datatype Moment = Moment(node: string, epoch: nat)

  datatype Dispatcher = Dispatcher(cap: string, tsid: string, pc: Pc, moment: Option<Moment>)

  datatype Remover = ByResult | ByUnregister | ByClose

  /** A pending entry that has left the map and whose remover has not finished with it. */
  datatype Owed = Owed(s: Sid, cap: string, via: Remover, outcome: Option<Outcome>, released: bool)

  /** A command ever registered; `removals`, `finishes` and `received` are history. */
  datatype Command = Command(owner: Did, s: Sid, cap: string, chan: Chan,
                             removals: seq<Remover>, finishes: nat, received: seq<Outcome>)

  datatype State = State(sess: map<Sid, Session>, current: map<string, Sid>,
                         routes: Forward, epochs: map<string, nat>,
                         disp: map<Did, Dispatcher>, owed: map<string, Owed>, cmds: map<string, Command>)

  const INIT := State(map[], map[], map[], map[], map[], map[], map[])

  /** Finding a session to try: pickSessionForDispatch and what it looks up. */
  datatype LookStep =
    | BeginPlain
    | BeginTerminal(now: int)
    | PickFails(reply: Reply)
    | FindSession
    | ClearStale

  /** Taking a slot, and giving it back by hand. */
  datatype SlotStep =
    | PickTakes(s: Sid)
    | ReserveRoute(now: int)
    | YieldSlot
    | AcquireFound
    | AbandonSlot

  /** Registering the command and handing it to the worker's queue. */
  datatype SendStep =
    | NoCommandID
    | Register(id: string) // a freshly generated, trimmed command ID
    | EnqueueFails(reply: Reply)
    | EnqueueSucceeds

  /** Waiting, settling the route, and leaving through the deferred unregister. */
  datatype ReplyStep =
    | WaitEnds
    | Receive
    | Settle(now: int, notFound: bool)
    | UndoRoute
    | Unregister
    | Leave

  /** Connections coming and going, and routes cleared by others. */
  datatype ConnectStep =
    | Connect(s: Sid, node: string, limits: map<string, nat>)
    | DropCurrent(node: string)
    | ClearNodeRoutes(node: string)
    | PruneRoutes(expireBefore: int)
    | CloseStart(s: Sid, reason: string)

  /** The ways out of a pending map other than the dispatcher's own, and what removers do next. */
  datatype RemoveStep =
    | CloseDrain(s: Sid)
    | ResultArrives(s: Sid, id: string, frame: ResultFrame)
    | OwedRelease(cmd: string)
    | OwedFinish(cmd: string)

  datatype Action =
    | Start(d: Did, cap: string, tsid: string)
    | Look(d: Did, look: LookStep)
    | Slot(d: Did, slot: SlotStep)
    | Send(d: Did, send: SendStep)
    | Answering(d: Did, reply: ReplyStep)
    | Connection(connect: ConnectStep)
    | Removal(remove: RemoveStep)

  // ---------- Readers ----------

  /** The session on which this point of the program holds a slot not yet in any pending map. */
  function Held(pc: Pc): Option<Sid> {
    match pc
    case Reserving(s, _) => Some(s)
    case Yielding(s, _, _) => Some(s)
    case Picked(s, _) => Some(s)
    case Abandoning(s, _, _) => Some(s)
    case _ => None
  }

  /** The session that routing returned, once it has. */
  function Routed(pc: Pc): Option<Sid> {
    match pc
    case Picked(s, _) => Some(s)
    case Abandoning(s, _, _) => Some(s)
    case Undoing(s, _, _, _) => Some(s)
    case Enqueuing(s, _, _) => Some(s)
    case Waiting(s, _, _) => Some(s)
    case Settling(s, _, _) => Some(s)
    case Unregistering(s, _, _) => Some(s)
    case _ => None
  }

  /** The command this dispatcher has registered, until it returns. */
  function CommandOf(pc: Pc): Option<string> {
    match pc
    case Undoing(_, _, cmd, _) => cmd
    case Enqueuing(_, _, cmd) => Some(cmd)
    case Waiting(_, _, cmd) => Some(cmd)
    case Settling(_, cmd, _) => Some(cmd)
    case Unregistering(_, cmd, _) => Some(cmd)
    case Leaving(cmd, _) => Some(cmd)
    case _ => None
  }

  function EpochOf(st: State, tsid: string): nat {
    if tsid in st.epochs then st.epochs[tsid] else 0
  }

  // ---------- Writers ----------

  function Goto(st: State, d: Did, pc: Pc): State
    requires d in st.disp
  {
    st.(disp := st.disp[d := st.disp[d].(pc := pc)])
  }

  function SetCaps(st: State, s: Sid, caps: Capabilities): State
    requires s in st.sess
  {
    st.(sess := st.sess[s := st.sess[s].(caps := caps)])
  }

  /** Replaces the route table; a route that vanished or changed node starts a new epoch. */
  function Reroute(st: State, fwd: Forward): State {
    st.(routes := fwd,
        epochs := map t | t in st.routes.Keys + st.epochs.Keys ::
          EpochOf(st, t) +
          if t in st.routes && (t !in fwd || fwd[t].nodeID != st.routes[t].nodeID) then 1 else 0)
  }

  /** Records what the route of `d`'s terminal session says now. */
  function Witness(st: State, d: Did): State
    requires d in st.disp && st.disp[d].tsid in st.routes
  {
    var t := st.disp[d].tsid;
    st.(disp := st.disp[d := st.disp[d].(moment := Some(Moment(st.routes[t].nodeID, EpochOf(st, t))))])
  }

  /** Takes one entry out of a pending map; its remover now owes a release and a result. */
  function TakeEntry(st: State, s: Sid, cmd: string, via: Remover, outcome: Option<Outcome>): State
    requires s in st.sess && cmd in st.sess[s].pending && cmd in st.cmds
  {
    st.(sess := st.sess[s := st.sess[s].(pending := st.sess[s].pending - {cmd})],
        owed := st.owed[cmd := Owed(s, st.sess[s].pending[cmd], via, outcome, false)],
        cmds := st.cmds[cmd := st.cmds[cmd].(removals := st.cmds[cmd].removals + [via])])
  }

  /** Takes every entry at once, as the close of a session does. */
  function TakeAll(st: State, s: Sid, outcome: Option<Outcome>): State
    requires s in st.sess
  {
    var pending := st.sess[s].pending;
    st.(sess := st.sess[s := st.sess[s].(pending := map[], drained := true)],
        owed := st.owed + Moved(s, pending, outcome),
        cmds := MarkRemoved(st.cmds, pending))
  }

  function Moved(s: Sid, pending: map<string, string>, outcome: Option<Outcome>): map<string, Owed> {
    map k | k in pending :: Owed(s, pending[k], ByClose, outcome, false)
  }

  function MarkRemoved(cmds: map<string, Command>, pending: map<string, string>): map<string, Command> {
    map k | k in cmds :: if k in pending then cmds[k].(removals := cmds[k].removals + [ByClose]) else cmds[k]
  }

  /** Puts a new command into the pending map. */
  function AddEntry(st: State, s: Sid, cmd: string, cap: string, owner: Did): State
    requires s in st.sess
  {
    st.(sess := st.sess[s := st.sess[s].(pending := st.sess[s].pending[cmd := cap])],
        cmds := st.cmds[cmd := Command(owner, s, cap, FRESH_CHAN, [], 0, [])])
  }

  /** The remover gives the slot back. */
  function ReleaseEntry(st: State, cmd: string): State
    requires cmd in st.owed && st.owed[cmd].s in st.sess
  {
    var o := st.owed[cmd];
    SetCaps(st.(owed := st.owed[cmd := o.(released := true)]), o.s, Release(st.sess[o.s].caps, o.cap))
  }

  /** The remover's last act: the result channel gets its outcome, if any, and is closed. */
  function FinishEntry(st: State, cmd: string): State
    requires cmd in st.owed && cmd in st.cmds
  {
    var c := st.cmds[cmd];
    st.(owed := st.owed - {cmd},
        cmds := st.cmds[cmd := c.(chan := CloseChan(c.chan, st.owed[cmd].outcome), finishes := c.finishes + 1)])
  }

  /** The dispatcher takes the buffered outcome. */
  function Deliver(st: State, cmd: string): State
    requires cmd in st.cmds && st.cmds[cmd].chan.buffer != []
  {
    var c := st.cmds[cmd];
    st.(cmds := st.cmds[cmd := c.(chan := c.chan.(buffer := c.chan.buffer[1..]),
                                  received := c.received + [c.chan.buffer[0]])])
  }

  /** After the route rollback: a registered command still has its deferred unregister to run. */
  function AfterUndo(s: Sid, cmd: Option<string>, reply: Reply): Pc {
    if cmd.Some? then Unregistering(s, cmd.value, reply) else Returned(reply)
  }

  // ---------- Steps of one dispatcher ----------

  predicate CanLook(st: State, d: Did, l: LookStep)
    requires d in st.disp
  {
    var x := st.disp[d];
    match l
    case BeginPlain => x.pc.Entry? && x.tsid == ""
    case BeginTerminal(now) => x.pc.Entry? && x.tsid != ""
    case PickFails(reply) => x.pc.Pick? && (reply == NoWorker || reply == NoCapacity)
    case FindSession => x.pc.Find?
    case ClearStale => x.pc.Stale?
  }

  function Looked(st: State, d: Did, l: LookStep): State
    requires d in st.disp && CanLook(st, d, l)
  {
    var x := st.disp[d];
    match l
    case BeginPlain => Goto(st, d, Pick(Plain))
    case BeginTerminal(now) =>
      var touched := Reroute(st, Touched(st.routes, x.tsid, now));
      if x.tsid in touched.routes then Goto(Witness(touched, d), d, Find(touched.routes[x.tsid].nodeID, Sticky))
      else Goto(touched, d, Pick(First))
    case PickFails(reply) => Goto(st, d, Returned(reply))
    case FindSession => Goto(st, d, Found(st, x.cap, x.pc.node, x.pc.lookup))
    case ClearStale =>
      Goto(Reroute(st, Cleared(st.routes, x.tsid, x.pc.node)), d,
           Pick(if x.pc.lookup.Sticky? then First else Retry))
  }

  /** getSession and hasCapability, and where each answer leads. */
  function Found(st: State, cap: string, node: string, lookup: Lookup): Pc {
    if node in st.current && st.current[node] in st.sess && cap in st.sess[st.current[node]].caps then
      Acquiring(st.current[node], node, lookup)
    else if lookup.AfterRetry? then Returned(NoWorker)
    else Stale(node, lookup)
  }

  predicate CanSlot(st: State, d: Did, t: SlotStep)
    requires d in st.disp
  {
    var x := st.disp[d];
    match t
    case PickTakes(s) => x.pc.Pick? && s in st.sess && CanAcquire(st.sess[s].caps, x.cap)
    case ReserveRoute(now) => x.pc.Reserving? && x.pc.s in st.sess
    case YieldSlot => x.pc.Yielding? && x.pc.s in st.sess
    case AcquireFound => x.pc.Acquiring? && x.pc.s in st.sess
    case AbandonSlot => x.pc.Abandoning? && x.pc.s in st.sess
  }

  function Slotted(st: State, d: Did, t: SlotStep): State
    requires d in st.disp && CanSlot(st, d, t)
  {
    var x := st.disp[d];
    match t
    case PickTakes(s) =>
      Goto(SetCaps(st, s, Acquire(st.sess[s].caps, x.cap)), d,
           if x.pc.attempt.Plain? then Picked(s, false) else Reserving(s, x.pc.attempt))
    case ReserveRoute(now) =>
      var mine := st.sess[x.pc.s].node;
      var reserved := Witness(Reroute(st, Reserved(st.routes, x.tsid, mine, now)), d);
      var resolved := reserved.routes[x.tsid].nodeID;
      Goto(reserved, d, if resolved == mine then Picked(x.pc.s, x.tsid !in st.routes)
                        else Yielding(x.pc.s, resolved, x.pc.attempt))
    case YieldSlot =>
      Goto(SetCaps(st, x.pc.s, Release(st.sess[x.pc.s].caps, x.cap)), d,
           Find(x.pc.node, if x.pc.attempt.Retry? then AfterRetry else AfterFirst))
    case AcquireFound =>
      var caps := st.sess[x.pc.s].caps;
      Goto(SetCaps(st, x.pc.s, Acquire(caps, x.cap)), d,
           if CanAcquire(caps, x.cap) then Picked(x.pc.s, false) else Returned(NoCapacity))
    case AbandonSlot =>
      Goto(SetCaps(st, x.pc.s, Release(st.sess[x.pc.s].caps, x.cap)), d,
           Undoing(x.pc.s, x.pc.created, None, x.pc.reply))
  }

  predicate CanSend(st: State, d: Did, e: SendStep)
    requires d in st.disp
  {
    var x := st.disp[d];
    match e
    case NoCommandID => x.pc.Picked?
    case Register(id) => x.pc.Picked? && x.pc.s in st.sess && id !in st.cmds
    case EnqueueFails(reply) => x.pc.Enqueuing? && (reply == Unavailable || reply == ContextEnded)
    case EnqueueSucceeds => x.pc.Enqueuing?
  }

  function Sent(st: State, d: Did, e: SendStep): State
    requires d in st.disp && CanSend(st, d, e)
  {
    var x := st.disp[d];
    match e
    case NoCommandID => Goto(st, d, Abandoning(x.pc.s, x.pc.created, Internal))
    case Register(id) =>
      if id == "" then Goto(st, d, Abandoning(x.pc.s, x.pc.created, Internal))
      else if st.sess[x.pc.s].done then Goto(st, d, Abandoning(x.pc.s, x.pc.created, Unavailable))
      else Goto(AddEntry(st, x.pc.s, id, x.cap, d), d, Enqueuing(x.pc.s, x.pc.created, id))
    case EnqueueFails(reply) => Goto(st, d, Undoing(x.pc.s, x.pc.created, Some(x.pc.cmd), reply))
    case EnqueueSucceeds => Goto(st, d, Waiting(x.pc.s, x.pc.created, x.pc.cmd))
  }

  predicate CanReply(st: State, d: Did, r: ReplyStep)
    requires d in st.disp
  {
    var x := st.disp[d];
    match r
    case WaitEnds => x.pc.Waiting?
    case Receive =>
      && x.pc.Waiting? && x.pc.cmd in st.cmds
      && (st.cmds[x.pc.cmd].chan.buffer != [] || st.cmds[x.pc.cmd].chan.closed)
    case Settle(now, notFound) => x.pc.Settling? && x.pc.s in st.sess
    case UndoRoute => x.pc.Undoing? && x.pc.s in st.sess
    case Unregister => x.pc.Unregistering? && x.pc.s in st.sess && x.pc.cmd in st.cmds
    case Leave => x.pc.Leaving? && x.pc.cmd !in st.owed
  }

  function Replied(st: State, d: Did, r: ReplyStep): State
    requires d in st.disp && CanReply(st, d, r)
  {
    var x := st.disp[d];
    match r
    case WaitEnds => Goto(st, d, Unregistering(x.pc.s, x.pc.cmd, ContextEnded))
    case Receive =>
      if st.cmds[x.pc.cmd].chan.buffer != [] then
        Goto(Deliver(st, x.pc.cmd), d, Settling(x.pc.s, x.pc.cmd, st.cmds[x.pc.cmd].chan.buffer[0]))
      else Goto(st, d, Undoing(x.pc.s, x.pc.created, Some(x.pc.cmd), BareClose))
    case Settle(now, notFound) =>
      Goto(Reroute(st, SettledRoutes(st, x.tsid, x.pc.s, x.pc.outcome, now, notFound)), d,
           Unregistering(x.pc.s, x.pc.cmd, Got(x.pc.outcome)))
    case UndoRoute =>
      Goto(if x.pc.created && x.tsid != "" then Reroute(st, Cleared(st.routes, x.tsid, st.sess[x.pc.s].node)) else st,
           d, AfterUndo(x.pc.s, x.pc.registered, x.pc.reply))
    case Unregister =>
      if x.pc.cmd in st.sess[x.pc.s].pending then
        Goto(TakeEntry(st, x.pc.s, x.pc.cmd, ByUnregister, None), d, Leaving(x.pc.cmd, x.pc.reply))
      else Goto(st, d, Returned(x.pc.reply))
    case Leave => Goto(st, d, Returned(x.pc.reply))
  }

  /** A success refreshes the route; "session not found" clears it. */
  function SettledRoutes(st: State, tsid: string, s: Sid, outcome: Outcome, now: int, notFound: bool): Forward
    requires s in st.sess
  {
    if tsid != "" && outcome.Answer? then Bound(st.routes, tsid, st.sess[s].node, now)
    else if tsid != "" && outcome.Failure? && notFound then Cleared(st.routes, tsid, st.sess[s].node)
    else st.routes
  }

  // ---------- Steps of the rest of the console ----------

  predicate CanConnect(st: State, e: ConnectStep) {
    match e
    case Connect(s, node, limits) => s !in st.sess && node != "" && forall c :: c in limits ==> c != "" && limits[c] > 0
    case DropCurrent(node) => true
    case ClearNodeRoutes(node) => true
    case PruneRoutes(expireBefore) => true
    case CloseStart(s, reason) => s in st.sess && !st.sess[s].done
  }

  /** swapSession: the new object becomes the node's current one. */
  function AddSession(st: State, s: Sid, node: string, limits: map<string, nat>): State {
    st.(sess := st.sess[s := NewSession(node, limits)], current := st.current[node := s])
  }

  function NewSession(node: string, limits: map<string, nat>): Session {
    Session(node, map c | c in limits :: Slots(limits[c], 0), map[], false, None, false)
  }

  function MarkClosed(st: State, s: Sid, reason: string): State
    requires s in st.sess
  {
    st.(sess := st.sess[s := st.sess[s].(done := true, closedErr := Some(reason))])
  }

  function Connected(st: State, e: ConnectStep): State
    requires CanConnect(st, e)
  {
    match e
    case Connect(s, node, limits) => AddSession(st, s, node, limits)
    case DropCurrent(node) => st.(current := st.current - {node})
    case ClearNodeRoutes(node) => Reroute(st, ClearedByNode(st.routes, node))
    case PruneRoutes(expireBefore) => Reroute(st, Pruned(st.routes, expireBefore))
    case CloseStart(s, reason) => MarkClosed(st, s, reason)
  }

  predicate CanRemove(st: State, e: RemoveStep) {
    match e
    case CloseDrain(s) => s in st.sess && st.sess[s].closedErr.Some? && !st.sess[s].drained
    case ResultArrives(s, id, frame) =>
      s in st.sess && id in st.sess[s].pending && id in st.cmds && id == Trim(frame.commandID)
    case OwedRelease(cmd) => cmd in st.owed && !st.owed[cmd].released && st.owed[cmd].s in st.sess
    case OwedFinish(cmd) => cmd in st.owed && st.owed[cmd].released && cmd in st.cmds
  }

  function Removed(st: State, e: RemoveStep): State
    requires CanRemove(st, e)
  {
    match e
    case CloseDrain(s) => TakeAll(st, s, Some(SessionLost(st.sess[s].closedErr.value)))
    case ResultArrives(s, id, frame) => TakeEntry(st, s, id, ByResult, Some(OutcomeOf(frame)))
    case OwedRelease(cmd) => ReleaseEntry(st, cmd)
    case OwedFinish(cmd) => FinishEntry(st, cmd)
  }

  // ---------- Runs ----------

  predicate Enabled(st: State, a: Action) {
    match a
    case Start(d, cap, tsid) => d !in st.disp && cap != ""
    case Look(d, l) => d in st.disp && CanLook(st, d, l)
    case Slot(d, t) => d in st.disp && CanSlot(st, d, t)
    case Send(d, e) => d in st.disp && CanSend(st, d, e)
    case Answering(d, r) => d in st.disp && CanReply(st, d, r)
    case Connection(e) => CanConnect(st, e)
    case Removal(e) => CanRemove(st, e)
  }

  function Started(st: State, d: Did, cap: string, tsid: string): State {
    st.(disp := st.disp[d := Dispatcher(cap, tsid, Entry, None)])
  }

  function Apply(st: State, a: Action): State
    requires Enabled(st, a)
  {
    match a
    case Start(d, cap, tsid) => Started(st, d, cap, tsid)
    case Look(d, l) => Looked(st, d, l)
    case Slot(d, t) => Slotted(st, d, t)
    case Send(d, e) => Sent(st, d, e)
    case Answering(d, r) => Replied(st, d, r)
    case Connection(e) => Connected(st, e)
    case Removal(e) => Removed(st, e)
  }

  ghost predicate Run(trace: seq<State>, actions: seq<Action>) {
    && |trace| == |actions| + 1
    && trace[0] == INIT
    && forall i :: 0 <= i < |actions| ==> Enabled(trace[i], actions[i]) && trace[i + 1] == Apply(trace[i], actions[i])
  }
}
