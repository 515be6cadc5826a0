// The per-session driver row: single-flight ownership with a lease, a generation fence,
// recovery takeover and a per-user quota (backend/agent/driver.py).
module Driver {
  import opened Common

  const LEASE_SECONDS := 60

  datatype Phase = Idle | Reserved | Running | Finalizing

  // `handoff` is history, not a column: it records that the current generation was created
  // by the settlement hand-off rather than by a quota-checked reservation.
  datatype DriverRow = DriverRow(
    user: string,
    generation: nat,
    run: Option<RunId>,
    owner: Option<string>,
    phase: Phase,
    trigger: Option<MessageId>,
    lease: Option<Time>,
    abortRequested: Option<Time>,
    handoff: bool)

  datatype SessionRow = SessionRow(user: string, deleted: bool)

  datatype World = World(
    limit: int,
    now: Time,
    sessions: map<string, SessionRow>,
    rows: map<string, DriverRow>)

  // The durable marker an expired generation leaves behind.
  datatype RecoveredDriver = RecoveredDriver(
    session: string, user: string, run: Option<RunId>, generation: nat, phase: Phase, trigger: Option<MessageId>)

  datatype RunLease = RunLease(session: string, user: string, run: RunId, generation: nat, owner: string)

  datatype Outcome =
    | Done
    | Invalid
    | NotFound
    | Held
    | Busy(run: Option<RunId>, generation: nat)
    | RecoveryRequired(record: RecoveredDriver)
    | QuotaExceeded(used: nat)
    | StaleRecovery
    | LeaseLost

  datatype Reply = Reply(w: World, out: Outcome)

  // ---- what the guards read

  predicate Live(row: DriverRow, now: Time) {
    row.phase != Idle && row.run.Some? && row.lease.Some? && row.lease.value > now
  }

  // A non-idle row whose lease has run out: the recovery marker.
  predicate Expired(row: DriverRow, now: Time) {
    row.phase != Idle && row.lease.Some? && row.lease.value <= now
  }

  predicate OwnedSession(w: World, s: string, user: string) {
    s in w.sessions && w.sessions[s].user == user
  }

  predicate OpenSession(w: World, s: string, user: string) {
    OwnedSession(w, s, user) && !w.sessions[s].deleted
  }

  // The driver half of the write fence: the exact (run, generation) of an unexpired non-idle row.
  predicate Current(w: World, s: string, user: string, run: RunId, generation: nat) {
    && s in w.rows
    && w.rows[s].user == user
    && w.rows[s].run == Some(run)
    && w.rows[s].generation == generation
    && w.rows[s].phase != Idle
    && w.rows[s].lease.Some?
    && w.rows[s].lease.value > w.now
  }

  predicate Fence(w: World, s: string, user: string, run: RunId, generation: nat) {
    OwnedSession(w, s, user) && Current(w, s, user, run, generation)
  }

  // The exact lease (owner included) of a live row.
  predicate Holds(w: World, l: RunLease) {
    Current(w, l.session, l.user, l.run, l.generation) && w.rows[l.session].owner == Some(l.owner)
  }

  function RecordOf(s: string, row: DriverRow): RecoveredDriver {
    RecoveredDriver(s, row.user, row.run, row.generation, row.phase, row.trigger)
  }

  function LiveSessions(w: World, user: string): set<string> {
    set s | s in w.rows && w.rows[s].user == user && Live(w.rows[s], w.now)
  }

  function Put(w: World, s: string, row: DriverRow): World {
    w.(rows := w.rows[s := row])
  }

  function FreshRow(w: World, user: string, generation: nat, run: RunId, worker: string, phase: Phase,
                    trigger: Option<MessageId>, handoff: bool): DriverRow {
    DriverRow(user, generation, Some(run), Some(worker), phase, trigger, Some(w.now + LEASE_SECONDS), None, handoff)
  }

  // ---- transactions, as functions of the rows they find

  // `runnable` and `linked` are the answers of the scheduling and task-link guards.
  function Reserve(w: World, s: string, user: string, run: Option<RunId>, uuid: RunId, worker: string,
                   trigger: Option<MessageId>, phase: Phase, runnable: bool, linked: bool): Reply {
    if phase == Idle then Reply(w, Invalid)
    else if !OpenSession(w, s, user) then Reply(w, NotFound)
    else if phase != Finalizing && !runnable then Reply(w, Held)
    else if linked then Reply(w, Held)
    else if s in w.rows && Live(w.rows[s], w.now) then Reply(w, Busy(w.rows[s].run, w.rows[s].generation))
    else if s in w.rows && w.rows[s].phase != Idle then Reply(w, RecoveryRequired(RecordOf(s, w.rows[s])))
    else if |LiveSessions(w, user)| >= w.limit then Reply(w, QuotaExceeded(|LiveSessions(w, user)|))
    else
      var generation := (if s in w.rows then w.rows[s].generation else 0) + 1;
      var actual := if run.Some? then run.value else uuid;
      Reply(Put(w, s, FreshRow(w, user, generation, actual, worker, phase, trigger, false)), Done)
  }

  predicate ExactMarker(w: World, record: RecoveredDriver) {
    record.session in w.rows && RecordOf(record.session, w.rows[record.session]) == record &&
    Expired(w.rows[record.session], w.now)
  }

  function Takeover(w: World, record: RecoveredDriver, uuid: RunId, worker: string, phase: Phase,
                    runnable: bool): Reply {
    if phase != Reserved && phase != Finalizing then Reply(w, Invalid)
    else if !OpenSession(w, record.session, record.user) then Reply(w, NotFound)
    else if phase != Finalizing && !runnable then Reply(w, Held)
    else if !ExactMarker(w, record) then Reply(w, StaleRecovery)
    else if |LiveSessions(w, record.user)| >= w.limit then
      Reply(w, QuotaExceeded(|LiveSessions(w, record.user)|))
    else
      var row := FreshRow(w, record.user, record.generation + 1, uuid, worker, phase, record.trigger, false);
      Reply(Put(w, record.session, row), Done)
  }

  function SettlementHandoff(w: World, s: string, user: string, settledRun: string, settledGeneration: nat,
                             uuid: RunId, worker: string): Reply {
    if settledRun == "" then Reply(w, Invalid)
    else if !OpenSession(w, s, user) then Reply(w, NotFound)
    else if !(s in w.rows && w.rows[s].user == user && w.rows[s].generation == settledGeneration &&
              w.rows[s].phase == Idle && w.rows[s].run == None && w.rows[s].owner == None &&
              w.rows[s].trigger == None && w.rows[s].lease == None) then Reply(w, StaleRecovery)
    else
      var row := FreshRow(w, user, settledGeneration + 1, uuid, worker, Finalizing, None, true);
      Reply(Put(w, s, row), Done)
  }

  function Renew(w: World, l: RunLease): Reply {
    if OwnedSession(w, l.session, l.user) && Holds(w, l) then
      Reply(Put(w, l.session, w.rows[l.session].(lease := Some(w.now + LEASE_SECONDS))), Done)
    else Reply(w, LeaseLost)
  }

  function SetPhase(w: World, l: RunLease, phase: Phase): Reply {
    if phase == Idle then Reply(w, Invalid)
    else if OwnedSession(w, l.session, l.user) && Holds(w, l) then
      Reply(Put(w, l.session, w.rows[l.session].(phase := phase, lease := Some(w.now + LEASE_SECONDS))), Done)
    else Reply(w, LeaseLost)
  }

  function BindTrigger(w: World, l: RunLease, message: MessageId): Reply {
    if Holds(w, l) then Reply(Put(w, l.session, w.rows[l.session].(trigger := Some(message))), Done)
    else Reply(w, LeaseLost)
  }

  // The same binding inside a transcript transaction that already holds the write fence.
  function BindTriggerLocked(w: World, s: string, user: string, run: RunId, generation: nat,
                             message: MessageId): Reply {
    if Current(w, s, user, run, generation) then Reply(Put(w, s, w.rows[s].(trigger := Some(message))), Done)
    else Reply(w, LeaseLost)
  }

  function Release(w: World, l: RunLease): Reply {
    if Holds(w, l) then
      Reply(Put(w, l.session,
                w.rows[l.session].(run := None, owner := None, phase := Idle, trigger := None, lease := None,
                                   abortRequested := None)), Done)
    else Reply(w, LeaseLost)
  }

  // Unlike every other owner write, this one has no liveness guard: it may hit an expired marker.
  function PreserveForRecovery(w: World, l: RunLease): Reply {
    if && l.session in w.rows
       && w.rows[l.session].user == l.user
       && w.rows[l.session].run == Some(l.run)
       && w.rows[l.session].generation == l.generation
       && w.rows[l.session].owner == Some(l.owner)
       && w.rows[l.session].phase != Idle
    then Reply(Put(w, l.session, w.rows[l.session].(lease := Some(w.now))), Done)
    else Reply(w, LeaseLost)
  }

  function RequestAbort(w: World, s: string, user: string, exact: Option<(RunId, nat)>): Reply {
    if && s in w.rows
       && w.rows[s].user == user
       && w.rows[s].phase != Idle
       && w.rows[s].lease.Some?
       && w.rows[s].lease.value > w.now
       && (exact.Some? ==> w.rows[s].run == Some(exact.value.0) && w.rows[s].generation == exact.value.1)
    then Reply(Put(w, s, w.rows[s].(abortRequested := Some(w.now))), Done)
    else Reply(w, LeaseLost)
  }

  // What a recovery sweep hands to its takeovers.
  function ExpiredRecords(w: World): set<RecoveredDriver> {
    set s | s in w.rows && Expired(w.rows[s], w.now) :: RecordOf(s, w.rows[s])
  }

  // The driver table as the API workers see it: every method is one database transaction.
  class DriverTable {
    const limit: int
    var now: Time
    var sessions: map<string, SessionRow>
    var rows: map<string, DriverRow>

    ghost function View(): World
      reads this
    {
      World(limit, now, sessions, rows)
    }

    constructor (limit: int, now: Time)
      ensures View() == World(limit, now, map[], map[])
    {
      this.limit, this.now, this.sessions, this.rows := limit, now, map[], map[];
    }

    // The quota count: the user's live generations at the current clock.
    method CountLive(user: string) returns (used: nat)
      ensures used == |LiveSessions(View(), user)|
    {
      var live := set t | t in rows && rows[t].user == user && Live(rows[t], now);
      used := |live|;
    }

    method ReserveRun(s: string, user: string, run: Option<RunId>, uuid: RunId, worker: string,
                      trigger: Option<MessageId>, phase: Phase, runnable: bool, linked: bool) returns (out: Outcome)
      modifies this`rows
      ensures Reply(View(), out) == Reserve(old(View()), s, user, run, uuid, worker, trigger, phase, runnable, linked)
      ensures out == Done <==>
                && phase != Idle && OpenSession(View(), s, user) && (phase == Finalizing || runnable) && !linked
                && (s in old(rows) ==> old(rows)[s].phase == Idle) && |LiveSessions(old(View()), user)| < limit
      ensures out == Done ==> s in rows && rows == old(rows)[s := rows[s]]
      ensures out == Done ==>
                rows[s] == DriverRow(user, if s in old(rows) then old(rows)[s].generation + 1 else 1,
                                     if run.Some? then run else Some(uuid), Some(worker), phase, trigger,
                                     Some(now + LEASE_SECONDS), None, false)
      ensures out != Done ==> rows == old(rows)
    {
      if phase == Idle { return Invalid; }
      if s !in sessions || sessions[s].user != user || sessions[s].deleted { return NotFound; }
      if phase != Finalizing && !runnable { return Held; }
      if linked { return Held; }
      var generation := 1;
      if s in rows {
        var state := rows[s];
        if Live(state, now) { return Busy(state.run, state.generation); }
        if state.phase != Idle { return RecoveryRequired(RecordOf(s, state)); }
        generation := state.generation + 1;
      }
      var used := CountLive(user);
      if used >= limit { return QuotaExceeded(used); }
      var actual := if run.Some? then run.value else uuid;
      rows := rows[s := DriverRow(user, generation, Some(actual), Some(worker), phase, trigger,
                                  Some(now + LEASE_SECONDS), None, false)];
      out := Done;
    }

    method ReserveRecoveredRun(record: RecoveredDriver, uuid: RunId, worker: string, phase: Phase,
                               runnable: bool) returns (out: Outcome)
      modifies this`rows
      ensures Reply(View(), out) == Takeover(old(View()), record, uuid, worker, phase, runnable)
      ensures out == Done <==>
                && ((phase == Reserved && runnable) || phase == Finalizing)
                && OpenSession(View(), record.session, record.user) && record in ExpiredRecords(old(View()))
                && |LiveSessions(old(View()), record.user)| < limit
      ensures out == Done ==>
                rows == old(rows)[record.session :=
                  DriverRow(record.user, record.generation + 1, Some(uuid), Some(worker), phase, record.trigger,
                            Some(now + LEASE_SECONDS), None, false)]
      ensures out != Done ==> rows == old(rows)
    {
      if phase != Reserved && phase != Finalizing { return Invalid; }
      var s := record.session;
      if s !in sessions || sessions[s].user != record.user || sessions[s].deleted { return NotFound; }
      if phase != Finalizing && !runnable { return Held; }
      if s !in rows { return StaleRecovery; }
      var state := rows[s];
      if !(state.user == record.user && state.run == record.run && state.generation == record.generation &&
           state.phase == record.phase && state.trigger == record.trigger && state.phase != Idle &&
           state.lease.Some? && state.lease.value <= now) { return StaleRecovery; }
      var used := CountLive(record.user);
      if used >= limit { return QuotaExceeded(used); }
      state := state.(generation := record.generation + 1, run := Some(uuid), owner := Some(worker), phase := phase);
      state := state.(trigger := record.trigger, lease := Some(now + LEASE_SECONDS), abortRequested := None,
                      handoff := false);
      rows := rows[s := state];
      out := Done;
    }

    method ReserveAbortedRunSettlement(s: string, user: string, settledRun: string, settledGeneration: nat,
                                       uuid: RunId, worker: string) returns (out: Outcome)
      modifies this`rows
      ensures Reply(View(), out) ==
              SettlementHandoff(old(View()), s, user, settledRun, settledGeneration, uuid, worker)
      ensures out == Done ==>
                && s in old(rows) && old(rows)[s].generation == settledGeneration && old(rows)[s].phase == Idle
                && rows == old(rows)[s := DriverRow(user, settledGeneration + 1, Some(uuid), Some(worker), Finalizing,
                                                    None, Some(now + LEASE_SECONDS), None, true)]
      ensures out != Done ==> rows == old(rows)
    {
      if settledRun == "" { return Invalid; }
      if s !in sessions || sessions[s].user != user || sessions[s].deleted { return NotFound; }
      if s !in rows { return StaleRecovery; }
      var state := rows[s];
      if state.user != user || state.generation != settledGeneration || state.phase != Idle { return StaleRecovery; }
      if state.run.Some? || state.owner.Some? || state.trigger.Some? || state.lease.Some? { return StaleRecovery; }
      state := state.(generation := settledGeneration + 1, run := Some(uuid), owner := Some(worker));
      state := state.(phase := Finalizing, lease := Some(now + LEASE_SECONDS), abortRequested := None, handoff := true);
      rows := rows[s := state];
      out := Done;
    }

    method RenewLease(l: RunLease) returns (out: Outcome)
      modifies this`rows
      ensures Reply(View(), out) == Renew(old(View()), l)
      ensures out == Done <==> OwnedSession(View(), l.session, l.user) && Holds(old(View()), l)
      ensures out == Done ==>
                rows == old(rows)[l.session := old(rows)[l.session].(lease := Some(now + LEASE_SECONDS))]
      ensures out != Done ==> rows == old(rows)
    {
      if l.session !in sessions || sessions[l.session].user != l.user { return LeaseLost; }
      if !Holds(World(limit, now, sessions, rows), l) { return LeaseLost; }
      rows := rows[l.session := rows[l.session].(lease := Some(now + LEASE_SECONDS))];
      out := Done;
    }

    method AdvancePhase(l: RunLease, phase: Phase) returns (out: Outcome)
      modifies this`rows
      ensures Reply(View(), out) == SetPhase(old(View()), l, phase)
      ensures out == Done <==> phase != Idle && OwnedSession(View(), l.session, l.user) && Holds(old(View()), l)
      ensures out == Done ==>
                rows == old(rows)[l.session :=
                                  old(rows)[l.session].(phase := phase, lease := Some(now + LEASE_SECONDS))]
      ensures out != Done ==> rows == old(rows)
    {
      if phase == Idle { return Invalid; }
      if l.session !in sessions || sessions[l.session].user != l.user { return LeaseLost; }
      if !Holds(World(limit, now, sessions, rows), l) { return LeaseLost; }
      rows := rows[l.session := rows[l.session].(phase := phase, lease := Some(now + LEASE_SECONDS))];
      out := Done;
    }

    method BindTriggerMessage(l: RunLease, message: MessageId) returns (out: Outcome)
      modifies this`rows
      ensures Reply(View(), out) == BindTrigger(old(View()), l, message)
      ensures out == Done <==> Holds(old(View()), l)
      ensures out == Done ==>
                rows == old(rows)[l.session := old(rows)[l.session].(trigger := Some(message))]
      ensures out != Done ==> rows == old(rows)
    {
      if !Holds(World(limit, now, sessions, rows), l) { return LeaseLost; }
      rows := rows[l.session := rows[l.session].(trigger := Some(message))];
      out := Done;
    }

    method ReleaseLease(l: RunLease) returns (out: Outcome)
      modifies this`rows
      ensures Reply(View(), out) == Release(old(View()), l)
      ensures out == Done <==> Holds(old(View()), l)
      ensures out == Done ==>
                && l.session in rows && rows == old(rows)[l.session := rows[l.session]]
                && rows[l.session] == DriverRow(l.user, l.generation, None, None, Idle, None, None, None,
                                                old(rows)[l.session].handoff)
      ensures out != Done ==> rows == old(rows)
    {
      if !Holds(World(limit, now, sessions, rows), l) { return LeaseLost; }
      var state := rows[l.session].(run := None, owner := None, phase := Idle);
      rows := rows[l.session := state.(trigger := None, lease := None, abortRequested := None)];
      out := Done;
    }

    method PreserveLease(l: RunLease) returns (out: Outcome)
      modifies this`rows
      ensures Reply(View(), out) == PreserveForRecovery(old(View()), l)
      ensures out == Done <==>
                && l.session in old(rows) && old(rows)[l.session].phase != Idle
                && (old(rows)[l.session].user, old(rows)[l.session].run) == (l.user, Some(l.run))
                && (old(rows)[l.session].generation, old(rows)[l.session].owner) == (l.generation, Some(l.owner))
      ensures out == Done ==> rows == old(rows)[l.session := old(rows)[l.session].(lease := Some(now))]
      ensures out != Done ==> rows == old(rows)
    {
      if l.session !in rows { return LeaseLost; }
      var state := rows[l.session];
      if state.user != l.user || state.run != Some(l.run) || state.generation != l.generation { return LeaseLost; }
      if state.owner != Some(l.owner) || state.phase == Idle { return LeaseLost; }
      rows := rows[l.session := state.(lease := Some(now))];
      out := Done;
    }

    // One conditional update is the whole fence: it reports whether the caller may write.
    method AssertRunFence(s: string, user: string, run: RunId, generation: nat) returns (ok: bool)
      ensures ok == Fence(View(), s, user, run, generation)
    {
      if s !in sessions || sessions[s].user != user || s !in rows { return false; }
      var state := rows[s];
      ok := state.user == user && state.run == Some(run) && state.generation == generation &&
      state.phase != Idle && state.lease.Some? && state.lease.value > now;
    }
  }
}
