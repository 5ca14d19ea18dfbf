/** One worker connection (session_runtime.go): capability slots behind one lock, pending
    commands behind another. The functions are the effects of the lock sections; the classes
    are the code that performs them. */
module SessionRuntime {
  import opened Prelude
  import opened Text

  const DEFAULT_CAPABILITY_MAX_INFLIGHT := 4
  const DEFAULT_CLOSE_MESSAGE := "session closed"

  // ---------- Capability slots ----------

  datatype Slots = Slots(maxInflight: int, inflight: int)

  type Capabilities = map<string, Slots>

  function Limit(slots: Slots): int {
    if slots.maxInflight <= 0 then DEFAULT_CAPABILITY_MAX_INFLIGHT else slots.maxInflight
  }

  function WithLimit(caps: Capabilities, cap: string): Capabilities {
    if cap != "" && cap in caps then caps[cap := caps[cap].(maxInflight := Limit(caps[cap]))] else caps
  }

  predicate CanAcquire(caps: Capabilities, cap: string) {
    cap != "" && cap in caps && caps[cap].inflight < Limit(caps[cap])
  }

  /** The capability table after an acquire attempt; it takes a slot iff CanAcquire. */
  function Acquire(caps: Capabilities, cap: string): Capabilities {
    if cap == "" || cap !in caps then caps
    else
      var c := WithLimit(caps, cap);
      if CanAcquire(caps, cap) then c[cap := c[cap].(inflight := c[cap].inflight + 1)] else c
  }

  function Release(caps: Capabilities, cap: string): Capabilities {
    if cap == "" || cap !in caps then caps
    else if caps[cap].inflight > 0 then caps[cap := caps[cap].(inflight := caps[cap].inflight - 1)]
    else caps
  }

  /** An offered limit that is missing counts as four. */
  predicate LimitIs(slots: Slots, limit: int) {
    limit == if slots.maxInflight > 0 then slots.maxInflight else 4
  }

  /** One capability's slots change to these, and nothing else does. */
  ghost predicate SlotsBecome(before: Capabilities, after: Capabilities, cap: string, slots: Slots) {
    && cap in before && after.Keys == before.Keys && after[cap] == slots
    && forall c | c in before && c != cap :: after[c] == before[c]
  }

  /** What an attempt to take a slot does: an offered capability below its limit gets one more. */
  ghost predicate Attempted(before: Capabilities, after: Capabilities, cap: string, ok: bool) {
    if cap == "" || cap !in before then !ok && after == before
    else
      && cap in after && SlotsBecome(before, after, cap, after[cap]) && LimitIs(before[cap], after[cap].maxInflight)
      && (ok <==> before[cap].inflight < after[cap].maxInflight)
      && after[cap].inflight == before[cap].inflight + if ok then 1 else 0
  }

  /** What giving a slot back does. */
  ghost predicate GivenBack(before: Capabilities, after: Capabilities, cap: string) {
    if cap == "" || cap !in before then after == before
    else
      var n := before[cap].inflight;
      SlotsBecome(before, after, cap, Slots(before[cap].maxInflight, if n > 0 then n - 1 else n))
  }

  /** An account of slots: for each capability, acquires that took one minus releases. */
  type Ledger = map<string, int>

  ghost function Balance(ledger: Ledger, cap: string): int {
    if cap in ledger then ledger[cap] else 0
  }

  ghost function Book(ledger: Ledger, cap: string, change: int): Ledger {
    ledger[cap := Balance(ledger, cap) + change]
  }

  /** The account after a release, which counts if the session offers the capability. */
  ghost function Repaid(ledger: Ledger, caps: Capabilities, cap: string): Ledger {
    if cap != "" && cap in caps then Book(ledger, cap, -1) else ledger
  }

  // ---------- Result channels ----------

  datatype CommandError = CommandError(code: string, message: string)

  /** What a dispatcher can be told. The command ID of an answer records whose frame it came from. */
  datatype Outcome =
    | Answer(commandID: string, payload: string)
    | Failure(commandID: string, error: CommandError)
    | SessionLost(reason: string)

  /** A result channel of capacity one, closed at most once. */
  datatype Chan = Chan(buffer: seq<Outcome>, closed: bool)

  const FRESH_CHAN := Chan([], false)

  function CloseChan(ch: Chan, outcome: Option<Outcome>): Chan {
    if ch.closed then ch
    else if outcome.Some? && |ch.buffer| < 1 then Chan(ch.buffer + [outcome.value], true)
    else Chan(ch.buffer, true)
  }

  datatype ResultFrame = ResultFrame(commandID: string, error: Option<CommandError>, payload: string)

  function OutcomeOf(frame: ResultFrame): Outcome {
    var id := Trim(frame.commandID);
    if frame.error.Some? then Failure(id, frame.error.value)
    else if frame.payload != "" then Answer(id, frame.payload)
    else Failure(id, CommandError("empty_result", "worker returned empty command result"))
  }

  /** What the worker's frame says: its error if it has one, its payload otherwise, and an error of its own
      kind if it has neither. */
  predicate Says(frame: ResultFrame, o: Outcome) {
    match o
    case Answer(id, payload) => id == Trim(frame.commandID) && frame.error == None && payload == frame.payload != ""
    case Failure(id, error) =>
      && id == Trim(frame.commandID)
      && if frame.error.Some? then error == frame.error.value
         else frame.payload == "" && error == CommandError("empty_result", "worker returned empty command result")
    case SessionLost(_) => false
  }

  lemma FramesSay(frame: ResultFrame, o: Outcome)
    ensures o == OutcomeOf(frame) <==> Says(frame, o)
  {
    hide Trim;
  }

  function IsCap(cap: string): string -> bool {
    c => c == cap
  }

  // ---------- The code ----------

  class PendingCommand {
    const capability: string
    var result: Chan

    constructor (capability: string)
      ensures this.capability == capability && result == FRESH_CHAN
    {
      this.capability := capability;
      result := FRESH_CHAN;
    }

    method CloseResult(outcome: Option<Outcome>)
      modifies this
      ensures result == CloseChan(old(result), outcome)
    {
      if !result.closed {
        if outcome.Some? && |result.buffer| < 1 {
          result := result.(buffer := result.buffer + [outcome.value]);
        }
        result := result.(closed := true);
      }
    }
  }

  /** The capability each command occupies. */
  ghost function CapsOf(commands: map<string, PendingCommand>): map<string, string> {
    map k | k in commands :: commands[k].capability
  }

  class ActiveSession {
    const nodeID: string
    const sessionID: string
    var capabilities: Capabilities
    var pending: map<string, PendingCommand>
    var done: bool
    var closedErr: Option<string>
    ghost var ledger: Ledger

    constructor (nodeID: string, sessionID: string, capabilities: Capabilities)
      ensures this.nodeID == nodeID && this.sessionID == sessionID && this.capabilities == capabilities
      ensures pending == map[] && !done && closedErr == None && ledger == map[]
    {
      this.nodeID := nodeID;
      this.sessionID := sessionID;
      this.capabilities := capabilities;
      pending := map[];
      done := false;
      closedErr := None;
      ledger := map[];
    }

    function SessionError(): string
      reads this
    {
      if closedErr.Some? then closedErr.value else DEFAULT_CLOSE_MESSAGE
    }

    method HasCapability(cap: string) returns (ok: bool)
      ensures ok <==> cap != "" && cap in capabilities
    {
      if cap == "" {
        return false;
      }
      ok := cap in capabilities;
    }

    /** Reading the slots also writes a missing limit out. */
    method InflightSnapshot(cap: string) returns (slots: Option<Slots>)
      modifies this`capabilities
      ensures capabilities == WithLimit(old(capabilities), cap)
      ensures slots == if cap != "" && cap in capabilities then Some(capabilities[cap]) else None
      ensures slots.Some? ==>
                && LimitIs(old(capabilities)[cap], slots.value.maxInflight)
                && slots.value.inflight == old(capabilities)[cap].inflight
                && SlotsBecome(old(capabilities), capabilities, cap, slots.value)
    {
      if cap == "" || cap !in capabilities {
        return None;
      }
      if capabilities[cap].maxInflight <= 0 {
        capabilities := capabilities[cap := capabilities[cap].(maxInflight := DEFAULT_CAPABILITY_MAX_INFLIGHT)];
      }
      return Some(capabilities[cap]);
    }

    method TryAcquireCapability(cap: string) returns (ok: bool)
      modifies this`capabilities, this`ledger
      ensures ok == CanAcquire(old(capabilities), cap)
      ensures capabilities == Acquire(old(capabilities), cap)
      ensures Attempted(old(capabilities), capabilities, cap, ok)
      ensures ledger == if ok then Book(old(ledger), cap, 1) else old(ledger)
    {
      if cap == "" || cap !in capabilities {
        return false;
      }
      if capabilities[cap].maxInflight <= 0 {
        capabilities := capabilities[cap := capabilities[cap].(maxInflight := DEFAULT_CAPABILITY_MAX_INFLIGHT)];
      }
      if capabilities[cap].inflight >= capabilities[cap].maxInflight {
        return false;
      }
      capabilities := capabilities[cap := capabilities[cap].(inflight := capabilities[cap].inflight + 1)];
      ledger := Book(ledger, cap, 1);
      return true;
    }

    method ReleaseCapability(cap: string)
      modifies this`capabilities, this`ledger
      ensures capabilities == Release(old(capabilities), cap)
      ensures GivenBack(old(capabilities), capabilities, cap)
      ensures ledger == Repaid(old(ledger), old(capabilities), cap)
    {
      if cap == "" || cap !in capabilities {
        return;
      }
      ledger := Book(ledger, cap, -1);
      if capabilities[cap].inflight > 0 {
        capabilities := capabilities[cap := capabilities[cap].(inflight := capabilities[cap].inflight - 1)];
      }
    }

    method RegisterPending(commandID: string, cap: string) returns (r: Result<PendingCommand, string>)
      modifies this`pending
      ensures r.Ok? <==> Trim(commandID) != "" && !done
      ensures r.Ok? ==> fresh(r.value) && r.value.capability == cap && r.value.result == FRESH_CHAN
      ensures r.Ok? ==> pending == old(pending)[Trim(commandID) := r.value]
      ensures r.Err? ==> pending == old(pending)
      ensures r.Err? ==>
                r.error == if Trim(commandID) == "" then "command_id is required"
                           else if closedErr.Some? then closedErr.value else "session closed"
    {
      var id := Trim(commandID);
      if id == "" {
        return Err("command_id is required");
      }
      if done {
        return Err(SessionError());
      }
      var command := new PendingCommand(cap);
      pending := pending[id := command];
      return Ok(command);
    }

    /** The pendingMu section shared by unregister and resolve. */
    method TakePending(id: string) returns (command: Option<PendingCommand>)
      modifies this`pending
      ensures pending == old(pending) - {id}
      ensures command == if id in old(pending) then Some(old(pending)[id]) else None
    {
      if id !in pending {
        return None;
      }
      command := Some(pending[id]);
      pending := pending - {id};
    }

    method UnregisterPending(commandID: string)
      modifies this`pending, this`capabilities, this`ledger, pending.Values
      ensures var id := Trim(commandID);
              if id == "" || id !in old(pending) then
                && pending == old(pending) && capabilities == old(capabilities) && ledger == old(ledger)
                && unchanged(old(pending.Values))
              else
                var command := old(pending)[id];
                && pending == old(pending) - {id}
                && capabilities == Release(old(capabilities), command.capability)
                && ledger == Repaid(old(ledger), old(capabilities), command.capability)
                && command.result == CloseChan(old(command.result), None)
                && (old(command.result) == FRESH_CHAN ==> command.result == Chan([], true))
                && unchanged(old(pending.Values) - {command})
    {
      var id := Trim(commandID);
      if id == "" {
        return;
      }
      var command := TakePending(id);
      if command.None? {
        return;
      }
      ReleaseCapability(command.value.capability);
      command.value.CloseResult(None);
    }

    method ResolvePending(frame: ResultFrame)
      modifies this`pending, this`capabilities, this`ledger, pending.Values
      ensures var id := Trim(frame.commandID);
              if id == "" || id !in old(pending) then
                && pending == old(pending) && capabilities == old(capabilities) && ledger == old(ledger)
                && unchanged(old(pending.Values))
              else
                var command := old(pending)[id];
                && pending == old(pending) - {id}
                && capabilities == Release(old(capabilities), command.capability)
                && ledger == Repaid(old(ledger), old(capabilities), command.capability)
                && command.result == CloseChan(old(command.result), Some(OutcomeOf(frame)))
                && (old(command.result) == FRESH_CHAN ==>
                      command.result.closed && |command.result.buffer| == 1 && Says(frame, command.result.buffer[0]))
                && unchanged(old(pending.Values) - {command})
    {
      var id := Trim(frame.commandID);
      if id == "" {
        return;
      }
      var command := TakePending(id);
      if command.None? {
        return;
      }
      ReleaseCapability(command.value.capability);
      var outcome;
      if frame.error.Some? {
        outcome := Failure(id, frame.error.value);
      } else if frame.payload != "" {
        outcome := Answer(id, frame.payload);
      } else {
        outcome := Failure(id, CommandError("empty_result", "worker returned empty command result"));
      }
      command.value.CloseResult(Some(outcome));
    }

    /** Closing drains every pending command: each gives back one slot of its capability and
        delivers the close reason. A second close does nothing. */
    method Close(err: Option<string>)
      modifies this, pending.Values
      ensures done
      ensures old(done) ==> unchanged(this) && unchanged(old(pending.Values))
      ensures !old(done) ==>
                && pending == map[]
                && closedErr == Some(if err.Some? then err.value else "session closed")
                && (forall k :: k in old(pending) ==>
                      old(pending)[k].result == CloseChan(old(pending[k].result), Some(SessionLost(closedErr.value))))
                && (forall k :: k in old(pending) && old(pending[k].result) == FRESH_CHAN ==>
                      old(pending)[k].result == Chan([SessionLost(closedErr.value)], true))
                && Drained(old(capabilities), capabilities, CapsOf(old(pending)))
    {
      if done {
        return;
      }
      var reason := if err.Some? then err.value else DEFAULT_CLOSE_MESSAGE;
      closedErr := Some(reason);
      done := true;
      var drained := pending;
      pending := map[];
      DrainEntries(drained, reason);
    }

    method DrainEntries(drained: map<string, PendingCommand>, reason: string)
      modifies this`capabilities, this`ledger, drained.Values
      ensures forall k :: k in drained ==>
                drained[k].result == CloseChan(old(drained[k].result), Some(SessionLost(reason)))
      ensures Drained(old(capabilities), capabilities, CapsOf(drained))
    {
      hide CloseChan, Drained, Release, GivenBack, Repaid;
      var todo := drained.Keys;
      ghost var finished: map<string, string> := map[];
      ghost var told: set<PendingCommand> := {};
      var lost := Some(SessionLost(reason));
      NothingDrained(capabilities);
      while todo != {}
        invariant todo <= drained.Keys
        invariant finished.Keys == drained.Keys - todo
        invariant forall k :: k in finished ==> finished[k] == drained[k].capability
        invariant Drained(old(capabilities), capabilities, finished)
        invariant forall k :: k in drained && k !in todo ==> drained[k] in told
        invariant forall c :: c in drained.Values ==>
                    c.result == if c in told then CloseChan(old(c.result), lost) else old(c.result)
        decreases todo
      {
        var k :| k in todo;
        var command := drained[k];
        DrainOne(old(capabilities), capabilities, finished, k, command.capability);
        ReleaseCapability(command.capability);
        FirstCloseWins(old(command.result), lost, lost);
        command.CloseResult(lost);
        told := told + {command};
        finished := finished[k := command.capability];
        todo := todo - {k};
      }
      assert finished == CapsOf(drained);
    }
  }

  /** Every capability has given back one slot per drained entry, never below zero. */
  ghost predicate Drained(before: Capabilities, after: Capabilities, entries: map<string, string>) {
    && after.Keys == before.Keys
    && forall c :: c in before ==>
         && after[c].maxInflight == before[c].maxInflight
         && var n := if c == "" then 0 else Count(entries, IsCap(c));
            after[c].inflight == if before[c].inflight >= n then before[c].inflight - n
                                 else if before[c].inflight >= 0 then 0 else before[c].inflight
  }

  lemma NothingDrained(caps: Capabilities)
    ensures Drained(caps, caps, map[])
  {
    var none: map<string, string> := map[];
    forall c | c in caps
      ensures Count(none, IsCap(c)) == 0
    {
      CountZero(none, IsCap(c));
    }
  }

  lemma DrainOne(before: Capabilities, now: Capabilities, entries: map<string, string>, k: string, cap: string)
    requires Drained(before, now, entries) && k !in entries
    ensures Drained(before, Release(now, cap), entries[k := cap])
  {
    hide Count;
    forall c | c in before
      ensures Count(entries[k := cap], IsCap(c)) == Count(entries, IsCap(c)) + if c == cap then 1 else 0
    {
      CountUpdate(entries, k, cap, IsCap(c));
    }
  }

  /** The second of two closes of one result changes nothing: it is the first outcome that counts. */
  lemma FirstCloseWins(ch: Chan, first: Option<Outcome>, second: Option<Outcome>)
    ensures CloseChan(CloseChan(ch, first), second) == CloseChan(ch, first)
  {
  }

  /** Acquiring and releasing one slot restores the count of every capability. */
  lemma AcquireRelease(caps: Capabilities, cap: string)
    requires CanAcquire(caps, cap) && caps[cap].inflight >= 0
    ensures Release(Acquire(caps, cap), cap) == WithLimit(caps, cap)
  {
  }
}
