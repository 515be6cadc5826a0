// What a driver transaction does for its caller: a session is never stuck, a kept lease survives everybody
// else, and giving a lease up, either way, hands the session on at once.
module DriverLaws {
  import opened Common
  import opened Driver
  import opened DriverRuns

  // ---- a session is never stuck

  // What a prompt of the owner gets, whichever state the row is in.
  datatype Standing = Running(run: Option<RunId>, generation: nat) | Unrecovered(record: RecoveredDriver) | Free

  function StandingOf(w: World, s: string): Standing {
    if s in w.rows && Live(w.rows[s], w.now) then Standing.Running(w.rows[s].run, w.rows[s].generation)
    else if s in w.rows && w.rows[s].phase != Idle then Unrecovered(RecordOf(s, w.rows[s]))
    else Free
  }

  // The lease holds the session alone: now, and not before.
  predicate Granted(before: World, after: World, l: RunLease) {
    && Holds(after, l) && Fence(after, l.session, l.user, l.run, l.generation)
    && after.rows[l.session].lease == Some(before.now + LEASE_SECONDS)
    && (l.session in before.rows ==> !Live(before.rows[l.session], before.now))
  }

  // A non-idle row always names its run.
  ghost predicate Manned(w: World) {
    forall s :: s in w.rows && w.rows[s].phase != Idle ==> w.rows[s].run.Some?
  }

  lemma {:induction false} RunKeepsRows(w: World, ops: seq<Op>)
    requires Shaped(w) && RowsOwned(w) && Manned(w)
    ensures Shaped(Run(w, ops)) && RowsOwned(Run(w, ops)) && Manned(Run(w, ops))
    decreases |ops|
  {
    if ops == [] {
    } else {
      StepKeepsShape(w, ops[0]);
      StepKeepsOwned(w, ops[0]);
      StepKeepsManned(w, ops[0]);
      RunKeepsRows(Step(w, ops[0]), ops[1..]);
    }
  }

  lemma StepKeepsManned(w: World, op: Op)
    requires Manned(w)
    ensures Manned(Step(w, op))
  {
  }

  // In every reachable state an open runnable session of a user below the quota is either running, and a prompt
  // is told by whom; or holds a marker, and the prompt is given the very record whose takeover would be granted
  // now; or is free, and the prompt gets it. A grant passes the fence on the next generation, and nothing passed
  // it just before.
  lemma NoSessionIsStuck(limit: int, now: Time, ops: seq<Op>, s: string, user: string, uuid: RunId, worker: string,
                         trigger: Option<MessageId>)
    requires var w := Run(Init(limit, now), ops); OpenSession(w, s, user) && |LiveSessions(w, user)| < w.limit
    ensures var w := Run(Init(limit, now), ops);
            var prompt := Reserve(w, s, user, None, uuid, worker, trigger, Reserved, true, false);
            var next := RunLease(s, user, uuid, GenerationOf(w, s) + 1, worker);
            match StandingOf(w, s)
            case Running(run, generation) => prompt == Reply(w, Busy(run, generation))
            case Unrecovered(record) =>
              && prompt == Reply(w, RecoveryRequired(record))
              && var taken := Takeover(w, record, uuid, worker, Reserved, true);
              && taken.out == Done && Granted(w, taken.w, next) && taken.w.rows[s].trigger == record.trigger
            case Free => prompt.out == Done && Granted(w, prompt.w, next) && prompt.w.rows[s].trigger == trigger
  {
    RunKeepsRows(Init(limit, now), ops);
    var w := Run(Init(limit, now), ops);
    assert s in w.rows ==> OwnedSession(w, s, w.rows[s].user);
  }

  // ---- a kept lease survives

  // How long a run lasts.
  function Elapsing(ops: seq<Op>): nat {
    if ops == [] then 0 else (if ops[0].OpTick? then ops[0].seconds else 0) + Elapsing(ops[1..])
  }

  // Only the holder can end its own lease early.
  predicate GivesUp(op: Op, l: RunLease) { op == OpRelease(l) || op == OpPreserve(l) }

  predicate NeverGivesUp(ops: seq<Op>, l: RunLease) {
    forall k :: 0 <= k < |ops| ==> !GivesUp(ops[k], l)
  }

  predicate HeldUntil(w: World, l: RunLease, deadline: Time) {
    Holds(w, l) && w.rows[l.session].lease.value >= deadline
  }

  lemma StepLeavesHolder(w: World, op: Op, l: RunLease, deadline: Time)
    requires HeldUntil(w, l, deadline) && !GivesUp(op, l)
    requires deadline > Step(w, op).now && deadline <= w.now + LEASE_SECONDS
    ensures HeldUntil(Step(w, op), l, deadline)
  {
  }

  // Whatever other workers do, and whatever the holder does but give its lease up, a lease that has longer to
  // go than the run lasts still passes its exact checks at the end.
  lemma {:induction false} HeldLeaseSurvives(w: World, ops: seq<Op>, l: RunLease, deadline: Time)
    requires HeldUntil(w, l, deadline) && NeverGivesUp(ops, l)
    requires deadline > w.now + Elapsing(ops) && deadline <= w.now + LEASE_SECONDS
    ensures HeldUntil(Run(w, ops), l, deadline)
    decreases |ops|
  {
    if ops == [] {
    } else {
      assert !GivesUp(ops[0], l);
      StepLeavesHolder(w, ops[0], l, deadline);
      assert forall k :: 0 <= k < |ops[1..]| ==> ops[1..][k] == ops[k + 1];
      HeldLeaseSurvives(Step(w, ops[0]), ops[1..], l, deadline);
    }
  }

  // So a heartbeat buys a full lease: after a granted renewal or phase change nobody takes the session away
  // for LEASE_SECONDS, and the next renewal in that time is granted again.
  lemma HeartbeatKeepsTheLease(w: World, l: RunLease, beat: Reply, ops: seq<Op>)
    requires beat == Renew(w, l) || exists phase :: beat == SetPhase(w, l, phase)
    requires beat.out == Done && NeverGivesUp(ops, l) && Elapsing(ops) < LEASE_SECONDS
    ensures var later := Run(beat.w, ops);
            && Holds(later, l) && Fence(later, l.session, l.user, l.run, l.generation)
            && Renew(later, l).out == Done
  {
    HeldLeaseSurvives(beat.w, ops, l, w.now + LEASE_SECONDS);
    SessionStaysOwned(beat.w, ops, l.session, l.user);
  }

  lemma {:induction false} SessionStaysOwned(w: World, ops: seq<Op>, s: string, user: string)
    requires OwnedSession(w, s, user)
    ensures OwnedSession(Run(w, ops), s, user)
    decreases |ops|
  {
    if ops == [] {
    } else {
      SessionsLast(w, ops[0], s);
      SessionStaysOwned(Step(w, ops[0]), ops[1..], s, user);
    }
  }

  // ---- giving a lease up

  // A preserved lease is a marker at once: its generation never writes again, its row is untouched but for the
  // deadline, and at the same clock the takeover of its record is granted with the trigger it carried.
  lemma PreservedIsRecoverable(w: World, l: RunLease, ops: seq<Op>, uuid: RunId, worker: string)
    requires PreserveForRecovery(w, l).out == Done && OpenSession(w, l.session, l.user)
    requires |LiveSessions(PreserveForRecovery(w, l).w, l.user)| < w.limit
    ensures var after := PreserveForRecovery(w, l).w;
            var record := RecordOf(l.session, w.rows[l.session]);
            && Expired(after.rows[l.session], after.now) && record in ExpiredRecords(after)
            && Dead(after, l.session, l.generation)
            && l.generation !in FencedGenerations(after, ops, l.session)
            && var taken := Takeover(after, record, uuid, worker, Reserved, true);
            && taken.out == Done
            && Granted(after, taken.w, RunLease(l.session, l.user, uuid, l.generation + 1, worker))
            && taken.w.rows[l.session].trigger == w.rows[l.session].trigger
  {
    var after := PreserveForRecovery(w, l).w;
    DeadForever(after, ops, l.session, l.generation);
  }

  // A trigger bound by the holder, or inside a fenced transcript write, is the one its successor starts with.
  lemma BoundTriggerReachesTheSuccessor(w: World, l: RunLease, message: MessageId, uuid: RunId, worker: string)
    requires Holds(w, l) && OpenSession(w, l.session, l.user) && |LiveSessions(w, l.user)| <= w.limit
    ensures var bound := BindTrigger(w, l, message);
            var locked := BindTriggerLocked(w, l.session, l.user, l.run, l.generation, message);
            var after := PreserveForRecovery(bound.w, l).w;
            && bound.out == Done && locked == bound && Holds(bound.w, l)
            && l.session in after.rows
            && var taken := Takeover(after, RecordOf(l.session, after.rows[l.session]), uuid, worker, Reserved, true);
            && taken.out == Done && taken.w.rows[l.session].trigger == Some(message)
  {
    var bound := BindTrigger(w, l, message).w;
    OneFewerLive(bound, PreserveForRecovery(bound, l).w, l);
    assert LiveSessions(bound, l.user) == LiveSessions(w, l.user);
  }

  // A released lease leaves an idle row: its generation never writes again, and at the same clock both the next
  // prompt and the settlement of that very generation are granted.
  lemma ReleasedIsFree(w: World, l: RunLease, ops: seq<Op>, uuid: RunId, worker: string)
    requires Release(w, l).out == Done
    requires OpenSession(w, l.session, l.user) && |LiveSessions(w, l.user)| <= w.limit
    ensures var after := Release(w, l).w;
            && Dead(after, l.session, l.generation)
            && l.generation !in FencedGenerations(after, ops, l.session)
            && var next := RunLease(l.session, l.user, uuid, l.generation + 1, worker);
               var prompt := Reserve(after, l.session, l.user, None, uuid, worker, None, Reserved, true, false);
               var settling := SettlementHandoff(after, l.session, l.user, l.run, l.generation, uuid, worker);
            && prompt.out == Done && Granted(after, prompt.w, next)
            && (l.run != "" ==> settling.out == Done && Granted(after, settling.w, next))
  {
    var after := Release(w, l).w;
    OneFewerLive(w, after, l);
    DeadForever(after, ops, l.session, l.generation);
  }

  lemma OneFewerLive(w: World, after: World, l: RunLease)
    requires Holds(w, l) && after.now == w.now && l.session in after.rows
    requires after.rows == w.rows[l.session := after.rows[l.session]]
    requires !Live(after.rows[l.session], after.now)
    ensures |LiveSessions(after, l.user)| < |LiveSessions(w, l.user)|
  {
    assert LiveSessions(after, l.user) == LiveSessions(w, l.user) - {l.session};
  }

  // ---- stopping a run

  predicate Stopping(w: World, s: string, generation: nat) {
    s in w.rows && w.rows[s].generation == generation && Live(w.rows[s], w.now) ==> w.rows[s].abortRequested.Some?
  }

  lemma StopStays(w: World, op: Op, s: string, generation: nat)
    requires Stopping(w, s, generation) && s in w.rows && generation <= w.rows[s].generation
    ensures Stopping(Step(w, op), s, generation)
    ensures s in Step(w, op).rows && generation <= Step(w, op).rows[s].generation
  {
  }

  // A stop is granted exactly to the owner of a live row and, when it names one, for exactly that generation.
  lemma StopIsGrantedExactly(w: World, s: string, user: string, exact: Option<(RunId, nat)>)
    requires Manned(w)
    ensures RequestAbort(w, s, user, exact).out == Done <==>
              && s in w.rows && Live(w.rows[s], w.now) && w.rows[s].user == user
              && (exact.Some? ==> (w.rows[s].run, w.rows[s].generation) == (Some(exact.value.0), exact.value.1))
  {
  }

  // A granted stop stays visible to the generation it found for as long as that lives, through renewals, phase
  // changes and everything other workers do.
  lemma StopReachesTheGeneration(w: World, s: string, user: string, exact: Option<(RunId, nat)>, ops: seq<Op>)
    requires RequestAbort(w, s, user, exact).out == Done
    ensures Stopping(Run(RequestAbort(w, s, user, exact).w, ops), s, w.rows[s].generation)
  {
    StopStaysForever(RequestAbort(w, s, user, exact).w, ops, s, w.rows[s].generation);
  }

  lemma {:induction false} StopStaysForever(w: World, ops: seq<Op>, s: string, generation: nat)
    requires Stopping(w, s, generation) && s in w.rows && generation <= w.rows[s].generation
    ensures Stopping(Run(w, ops), s, generation)
    decreases |ops|
  {
    if ops == [] {
    } else {
      StopStays(w, ops[0], s, generation);
      StopStaysForever(Step(w, ops[0]), ops[1..], s, generation);
    }
  }

  // A generation starts without a stop request.
  lemma NewGenerationsAreNotStopped(w: World, op: Op, s: string)
    requires s in Step(w, op).rows && (s in w.rows ==> w.rows[s].generation < Step(w, op).rows[s].generation)
    ensures Step(w, op).rows[s].abortRequested.None? && Live(Step(w, op).rows[s], Step(w, op).now)
  {
  }
}
