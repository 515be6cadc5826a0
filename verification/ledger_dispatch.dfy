// What the ledger does for the worker that dispatches an effect, and when recovery may step in: the ordinary
// path is granted from end to end, a kept claim survives everybody else, and an unfinished row falls due.
module LedgerDispatch {
  import opened Common
  import Driver
  import DriverRuns
  import opened EffectLedger
  import opened LedgerRuns
  import opened LedgerTheorems

  // ---- the ordinary path

  // The effect's own live run finds it never sent and unclaimed, and its resource, if any, open.
  predicate ReadyFor(w: Driver.World, e: Effect, run: RunId, generation: nat) {
    && e.state == Prepared && e.attempts == 0 && (e.claim.Some? ==> e.claim.value.expires <= w.now)
    && (e.run, e.runGeneration) == (run, generation)
    && Driver.Fence(w, e.key.session, e.key.tenant, run, generation)
  }

  // The claim this worker is granted.
  function GrantedTo(e: Effect, token: string, owner: string): EffectClaim {
    EffectClaim(e.key, e.run, e.runGeneration, Dispatch, token, e.claimGeneration + 1, owner)
  }

  function Claimed(w: Driver.World, cell: Cell, token: string, owner: string): Cell {
    CellStep(w, cell, ClaimDispatch(cell.e.run, cell.e.runGeneration, token, owner))
  }

  function Submitted(w: Driver.World, cell: Cell, token: string, owner: string): Cell {
    CellStep(w, Claimed(w, cell, token, owner), Submit(GrantedTo(cell.e, token, owner), true))
  }

  function SentOnce(w: Driver.World, cell: Cell, token: string, owner: string): Cell {
    CellStep(w, Submitted(w, cell, token, owner), Send(GrantedTo(cell.e, token, owner), true))
  }

  predicate HeldBy(e: Effect, c: EffectClaim, now: Time) {
    MatchesLive(e, c, now) && e.claim.value.expires == now + EFFECT_LEASE_SECONDS
  }

  // Claiming, crossing the send boundary and sending are granted in turn: one attempt, one send.
  lemma OrdinarySend(w: Driver.World, cell: Cell, token: string, owner: string)
    requires ReadyFor(w, cell.e, cell.e.run, cell.e.runGeneration)
    ensures var c, sent := GrantedTo(cell.e, token, owner), SentOnce(w, cell, token, owner);
            && HeldBy(sent.e, c, w.now) && sent.e.state == Submitting && sent.e.attempts == 1
            && sent.e.findings == cell.e.findings && sent.e.reconciles == cell.e.reconciles
            && sent.h.submittedBy == Some(c.generation) && sent.h.sends == cell.h.sends + [c.generation]
            && sent.h.lateSend == (cell.h.lateSend || cell.h.reconciled)
  {
    var c := GrantedTo(cell.e, token, owner);
    assert HeldBy(Claimed(w, cell, token, owner).e, c, w.now);
    assert Submitted(w, cell, token, owner).e.state == Submitting;
  }

  // The provider's receipt is recorded, and the verdict with it: what was learned stays learned.
  lemma OrdinaryFinish(w: Driver.World, cell: Cell, c: EffectClaim, handle: Option<string>, receipt: string, v: Verdict)
    requires c.kind == Dispatch && MatchesLive(cell.e, c, w.now) && cell.e.state == Submitting && RunLive(w, c)
    ensures var accepted := RowAfter(w, cell, AcceptBy(c, handle, receipt));
            var ended := RowAfter(w, CellStep(w, cell, AcceptBy(c, handle, receipt)), SettleBy(c, v, false));
            && accepted.state == Accepted && MatchesLive(accepted, c, w.now)
            && accepted.findings.handle == handle && accepted.findings.receipt == Some(receipt)
            && ended.state == v.state && ended.claim == None && ended.reconcileAfter == None
            && ended.attempts == cell.e.attempts
            && (v.handle == None ==> ended.findings.handle == handle)
            && (v.handle != None ==> ended.findings.handle == v.handle)
            && (v.receipt == None ==> ended.findings.receipt == Some(receipt))
            && (v.receipt != None ==> ended.findings.receipt == v.receipt)
            && (v.state == Succeeded ==> ended.findings.projection == v.projection)
            && (v.state != Succeeded ==> ended.findings.projection == cell.e.findings.projection)
            && ended.findings.error == v.error
  {
  }

  // A worker that never learned the outcome says so, and what it did learn is kept.
  lemma UnknownFinish(w: Driver.World, cell: Cell, c: EffectClaim, error: string, found: Option<string>,
                      answer: Option<string>)
    requires MatchesLive(cell.e, c, w.now) && (cell.e.state == Submitting || cell.e.state == Accepted)
    ensures var ended := RowAfter(w, cell, UnknownBy(c, error, found, answer));
            && ended.state == OutcomeUnknown && ended.claim == None && ended.reconcileAfter == Some(w.now)
            && ended.findings.error == Some(error) && ended.findings.projection == cell.e.findings.projection
            && (found == None ==> ended.findings.handle == cell.e.findings.handle)
            && (found != None ==> ended.findings.handle == found)
            && (answer == None ==> ended.findings.receipt == cell.e.findings.receipt)
            && (answer != None ==> ended.findings.receipt == answer)
  {
  }

  // The same receipt under the same claim token and generation is a success without change, whatever has
  // happened to the lease since; another receipt or handle is refused once the row is accepted.
  lemma AcceptanceIsIdempotent(e: Effect, c: EffectClaim, handle: Option<string>, receipt: string, now: Time,
                               later: Time, handle': Option<string>, receipt': string)
    requires MatchesLive(e, c, now) && e.state == Submitting
    ensures var accepted := RecordAccepted(e, c, handle, receipt, now).e;
            RecordAccepted(accepted, c, handle', receipt', later) ==
            Reply(accepted, if (handle', receipt') == (handle, receipt) then Done else LeaseLost)
  {
  }

  // ---- a kept claim survives

  // The holder gives its claim up, or ends the row with it.
  predicate LetsGo(a: Action, c: EffectClaim) {
    && (a.AbandonBy? || a.SettleBy? || a.UnknownBy? || a.DeferBy?)
    && (a.c.key, a.c.kind, a.c.token, a.c.generation, a.c.owner) == (c.key, c.kind, c.token, c.generation, c.owner)
  }

  predicate NeverLetsGo(ops: seq<Op>, c: EffectClaim) {
    forall i :: 0 <= i < |ops| ==> !(ops[i].OnRow? && LetsGo(ops[i].action, c))
  }

  function Elapsing(ops: seq<Op>): nat {
    if ops == [] then 0
    else (if ops[0].Drive? && ops[0].op.OpTick? then ops[0].op.seconds else 0) + Elapsing(ops[1..])
  }

  predicate HeldUntil(e: Effect, c: EffectClaim, deadline: Time) {
    Matches(e, c) && e.claim.value.expires >= deadline
  }

  lemma ActionLeavesHolder(w: Driver.World, cell: Cell, a: Action, c: EffectClaim, deadline: Time)
    requires RowOk(cell.e) && HeldUntil(cell.e, c, deadline) && c.kind == Dispatch && !LetsGo(a, c)
    requires PassesOk(cell.e, cell.h)
    requires w.now < deadline <= w.now + EFFECT_LEASE_SECONDS
    ensures HeldUntil(RowAfter(w, cell, a), c, deadline)
  {
    if a.RecoveryWrite? {
      assert a.attempt in cell.h.frames ==> FrameOk(cell.e, cell.h, a.attempt);
    } else if BeforeAnswer(a) {
      EarlyLeavesHolder(w, cell, a, c, deadline);
    } else {
      ClosingLeavesHolder(w, cell, a, c, deadline);
    }
  }

  lemma EarlyLeavesHolder(w: Driver.World, cell: Cell, a: Action, c: EffectClaim, deadline: Time)
    requires RowOk(cell.e) && HeldUntil(cell.e, c, deadline) && !LetsGo(a, c) && BeforeAnswer(a)
    requires w.now < deadline <= w.now + EFFECT_LEASE_SECONDS
    ensures HeldUntil(RowAfter(w, cell, a), c, deadline)
  {
  }

  lemma ClosingLeavesHolder(w: Driver.World, cell: Cell, a: Action, c: EffectClaim, deadline: Time)
    requires RowOk(cell.e) && HeldUntil(cell.e, c, deadline) && !LetsGo(a, c) && !BeforeAnswer(a) && !a.RecoveryWrite?
    requires w.now < deadline <= w.now + EFFECT_LEASE_SECONDS
    ensures HeldUntil(RowAfter(w, cell, a), c, deadline)
  {
  }

  predicate RowHeld(s: System, c: EffectClaim, deadline: Time) {
    c.key in s.cells && HeldUntil(s.cells[c.key].e, c, deadline)
  }

  predicate SpareTime(s: System, c: EffectClaim, deadline: Time) {
    RowHeld(s, c, deadline) && s.drivers.now < deadline <= s.drivers.now + EFFECT_LEASE_SECONDS
  }

  lemma PrepareLeavesHolder(s: System, op: Op, c: EffectClaim, deadline: Time)
    requires RowHeld(s, c, deadline) && op.Prepare?
    ensures RowHeld(Step(s, op), c, deadline)
  {
    PrepareTouchesOne(s, op, c.key);
  }

  lemma RowActionLeavesHolder(s: System, key: EffectKey, a: Action, c: EffectClaim, deadline: Time)
    requires Inv(s) && SpareTime(s, c, deadline) && c.kind == Dispatch && !LetsGo(a, c)
    ensures RowHeld(Step(s, OnRow(key, a)), c, deadline)
  {
    assert CellOk(s.drivers, c.key, s.cells[c.key]);
    if key == c.key {
      ActionLeavesHolder(s.drivers, s.cells[c.key], a, c, deadline);
    }
  }

  lemma StepLeavesHolder(s: System, op: Op, c: EffectClaim, deadline: Time)
    requires Inv(s) && SpareTime(s, c, deadline) && c.kind == Dispatch
    requires !(op.OnRow? && LetsGo(op.action, c))
    ensures RowHeld(Step(s, op), c, deadline)
  {
    match op
    case Drive(_) =>
    case Prepare(_, _, _, _, _, _) => PrepareLeavesHolder(s, op, c, deadline);
    case OnRow(key, a) => RowActionLeavesHolder(s, key, a, c, deadline);
  }

  lemma ClockMoves(s: System, op: Op)
    ensures Step(s, op).drivers.now == s.drivers.now + Elapsing([op])
  {
    assert [op][1..] == [];
  }

  lemma {:induction false} RunLeavesHolder(s: System, ops: seq<Op>, c: EffectClaim, deadline: Time)
    requires Inv(s) && SpareTime(s, c, deadline) && c.kind == Dispatch && NeverLetsGo(ops, c)
    requires s.drivers.now + Elapsing(ops) < deadline
    ensures Inv(Run(s, ops)) && SpareTime(Run(s, ops), c, deadline)
    decreases |ops|
  {
    if ops == [] {
    } else {
      StepKeepsInv(s, ops[0]);
      StepLeavesHolder(s, ops[0], c, deadline);
      ClockMoves(s, ops[0]);
      assert [ops[0]][1..] == [];
      assert forall i :: 0 <= i < |ops[1..]| ==> ops[1..][i] == ops[i + 1];
      RunLeavesHolder(Step(s, ops[0]), ops[1..], c, deadline);
    }
  }

  // A heartbeat buys the dispatching worker a full lease: for less than EFFECT_LEASE_SECONDS nobody else, not
  // even recovery with its origin run dead, can take, end or move the claim, and its next renewal is granted.
  lemma RenewedClaimSurvives(limit: int, now: Time, before: seq<Op>, c: EffectClaim, after: seq<Op>)
    requires CanRenew(Run(Init(limit, now), before), c) && c.kind == Dispatch
    requires NeverLetsGo(after, c) && Elapsing(after) < EFFECT_LEASE_SECONDS
    ensures CanRenew(Run(Renewed(Run(Init(limit, now), before), c), after), c)
  {
    Reachable(limit, now, before);
    HeartbeatHolds(Run(Init(limit, now), before), c, after);
  }

  // The claim is live on a row that has not ended, and a renewal is granted.
  predicate CanRenew(s: System, c: EffectClaim) {
    && c.key in s.cells && MatchesLive(s.cells[c.key].e, c, s.drivers.now)
    && RenewClaim(s.cells[c.key].e, c, s.drivers.now).out == Done
  }

  function Renewed(s: System, c: EffectClaim): System { Step(s, OnRow(c.key, RenewBy(c))) }

  lemma HeartbeatHolds(s: System, c: EffectClaim, after: seq<Op>)
    requires Inv(s) && CanRenew(s, c) && c.kind == Dispatch
    requires NeverLetsGo(after, c) && Elapsing(after) < EFFECT_LEASE_SECONDS
    ensures CanRenew(Run(Renewed(s, c), after), c)
  {
    StepKeepsInv(s, OnRow(c.key, RenewBy(c)));
    RunLeavesHolder(Renewed(s, c), after, c, s.drivers.now + EFFECT_LEASE_SECONDS);
    HeldCanRenew(Run(Renewed(s, c), after), c);
  }

  lemma HeldCanRenew(s: System, c: EffectClaim)
    requires Inv(s) && RowHeld(s, c, s.drivers.now + 1)
    ensures CanRenew(s, c)
  {
    assert CellOk(s.drivers, c.key, s.cells[c.key]);
  }

  // ---- when recovery may step in

  // Recovery of the row is granted at exactly this moment and not before.
  ghost predicate DueFrom(e: Effect, due: Time, token: string, owner: string) {
    forall later :: ClaimForReconcile(e, false, token, owner, later).out == Done <==> later >= due
  }

  // With its origin run dead: an outcome reported unknown is due at once; a deferred row when its delay is over;
  // a row whose worker vanished when its claim runs out; and a row that was never claimed when its grace is.
  lemma UnknownIsDueAtOnce(e: Effect, c: EffectClaim, error: string, found: Option<string>, answer: Option<string>,
                           now: Time, token: string, owner: string)
    requires RecordUnknown(e, c, error, found, answer, now).out == Done
    ensures DueFrom(RecordUnknown(e, c, error, found, answer, now).e, now, token, owner)
  {
  }

  lemma DeferredIsDueAfterItsDelay(e: Effect, c: EffectClaim, d: Deferral, now: Time, token: string, owner: string)
    requires Defer(e, c, d, now).out == Done
    ensures var delay := if d.retryAfter < 1 then 1 else if d.retryAfter > 3600 then 3600 else d.retryAfter;
            DueFrom(Defer(e, c, d, now).e, now + delay, token, owner)
  {
  }

  lemma VanishedWorkerIsDue(e: Effect, c: EffectClaim, now: Time, token: string, owner: string)
    requires RenewClaim(e, c, now).out == Done && e.state != Prepared
    requires e.reconcileAfter.Some? ==> e.reconcileAfter.value <= now
    ensures DueFrom(RenewClaim(e, c, now).e, now + EFFECT_LEASE_SECONDS, token, owner)
  {
  }

  lemma NeverClaimedIsDueAfterItsGrace(key: EffectKey, request: Request, run: RunId, generation: nat, now: Time,
                                       token: string, owner: string)
    ensures DueFrom(NewEffect(key, request, run, generation, now), now + PREPARED_RECOVERY_GRACE_SECONDS, token, owner)
  {
  }

  // While the origin run lives, or once the row has ended, recovery is never granted.
  lemma NeverDue(e: Effect, originLive: bool, token: string, owner: string, now: Time)
    requires originLive || Terminal(e.state)
    ensures ClaimForReconcile(e, originLive, token, owner, now) == Reply(e, Skipped)
  {
  }
}
