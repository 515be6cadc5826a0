// The two ways in which the log of a row that ordinary work reaches says something else than the row.
module LedgerMisreports {
  import opened Common
  import Driver
  import DriverRuns
  import opened EffectLedger
  import opened LedgerRuns
  import opened LedgerTheorems
  import opened LedgerEvidence

  const CLAIM := EffectClaim(EXAMPLE, "run", 1, Dispatch, "token", 1, "worker")
  const AGAIN := EffectClaim(EXAMPLE, "run", 1, Reconcile, "token", 2, "recovery")

  // One attempt has crossed the send boundary and nothing else has happened.
  predicate Sent(cell: Cell) {
    && cell.e.key == EXAMPLE && cell.e.run == "run" && cell.e.runGeneration == 1
    && cell.e.state == Submitting && cell.e.attempts == 1 && cell.e.reconciles == 0 && cell.e.claimGeneration == 1
    && cell.e.claim == Some(HeldClaim(Dispatch, "token", "worker", EFFECT_LEASE_SECONDS))
    && cell.e.findings == Findings(None, None, None, None) && cell.e.reconcileAfter == None
    && Explained(cell.e) && cell.h.frames == map[]
  }

  predicate SentNow(s: System) {
    && s.drivers.now == 0 && EXAMPLE in s.cells && Sent(s.cells[EXAMPLE])
    && "session" in s.drivers.rows && !Driver.Live(s.drivers.rows["session"], PREPARED_RECOVERY_GRACE_SECONDS)
  }

  // Claimed for dispatch and not yet sent.
  predicate Ready(cell: Cell) {
    && cell.e.key == EXAMPLE && cell.e.run == "run" && cell.e.runGeneration == 1 && cell.e.request == EXAMPLE_REQUEST
    && cell.e.state == Prepared && cell.e.attempts == 0 && cell.e.reconciles == 0 && cell.e.claimGeneration == 1
    && cell.e.claim == Some(HeldClaim(Dispatch, "token", "worker", EFFECT_LEASE_SECONDS))
    && cell.e.findings == Findings(None, None, None, None) && cell.e.reconcileAfter == None
    && Explained(cell.e) && cell.h.frames == map[]
  }

  lemma EarlyStaysExplained(w: Driver.World, cell: Cell, a: Action)
    requires BeforeAnswer(a) && Honest(a) && Explained(cell.e)
    ensures Explained(RowAfter(w, cell, a))
  {
    EarlyActionsAccounted(w, cell, a);
    AccountedStaysExplained(cell.e, RowAfter(w, cell, a));
  }

  lemma NewRowIsReady(w: Driver.World, cell: Cell)
    requires cell == Cell(NewEffect(EXAMPLE, EXAMPLE_REQUEST, "run", 1, 0), NO_HISTORY) && w.now == 0
    requires Driver.Fence(w, "session", "user", "run", 1)
    ensures Ready(CellStep(w, cell, ClaimDispatch("run", 1, "token", "worker")))
  {
    NewRowIsExplained(EXAMPLE, EXAMPLE_REQUEST, "run", 1, 0);
    EarlyStaysExplained(w, cell, ClaimDispatch("run", 1, "token", "worker"));
  }

  lemma ReadyIsSent(w: Driver.World, cell: Cell)
    requires Ready(cell) && w.now == 0
    ensures Sent(CellStep(w, cell, Submit(CLAIM, true)))
  {
    EarlyStaysExplained(w, cell, Submit(CLAIM, true));
  }

  lemma SentRun() returns (ops: seq<Op>)
    ensures SentNow(Run(Init(1, 0), ops))
  {
    var prepare := Prepare(EXAMPLE, EXAMPLE_REQUEST, "run", 1, true, true);
    var claim := OnRow(EXAMPLE, ClaimDispatch("run", 1, "token", "worker"));
    var submit := OnRow(EXAMPLE, Submit(CLAIM, true));
    var first := FirstRun();
    var s := Run(Init(1, 0), first);
    RunOfThree(s, prepare, claim, submit);
    RunConcat(Init(1, 0), first, [prepare, claim, submit]);
    var cell := Cell(NewEffect(EXAMPLE, EXAMPLE_REQUEST, "run", 1, 0), NO_HISTORY);
    NewRowIsReady(s.drivers, cell);
    ReadyIsSent(s.drivers, CellStep(s.drivers, cell, claim.action));
    ops := first + [prepare, claim, submit];
  }

  // ---- a progress entry named after an acceptance

  const ACCEPTANCE := OnRow(EXAMPLE, AcceptBy(CLAIM, None, ""))
  const PROGRESS := OnRow(EXAMPLE, ProgressBy(CLAIM, EvAccepted))

  // From one reachable state an acceptance and a progress entry lead to rows with the same log, one accepted
  // and one still submitting: no auditor can tell them apart from the log alone.
  lemma ProgressExample() returns (ops: seq<Op>)
    ensures var s := Run(Init(1, 0), ops);
            && EXAMPLE in Step(s, ACCEPTANCE).cells && EXAMPLE in Step(s, PROGRESS).cells
            && var accepted, submitting := Step(s, ACCEPTANCE).cells[EXAMPLE].e, Step(s, PROGRESS).cells[EXAMPLE].e;
            && accepted.state == Accepted && submitting.state == Submitting
            && accepted.evidence == submitting.evidence
            && Explained(accepted) && !Explained(submitting)
  {
    ops := SentRun();
    ProgressMisreports(Run(Init(1, 0), ops).drivers, Run(Init(1, 0), ops).cells[EXAMPLE]);
  }

  lemma ProgressMisreports(w: Driver.World, cell: Cell)
    requires Sent(cell) && w.now == 0
    ensures var accepted, submitting := RowAfter(w, cell, ACCEPTANCE.action), RowAfter(w, cell, PROGRESS.action);
            && accepted.state == Accepted && submitting.state == Submitting
            && accepted.evidence == submitting.evidence
            && Explained(accepted) && !Explained(submitting)
  {
    ActionStaysExplained(w, cell, ACCEPTANCE.action);
    ProgressIsExplainedExactly(cell.e, CLAIM, EvAccepted, 0);
  }

  // ---- a deferral whose evidence carries a state of its own

  const REPLY := Decided(OutcomeUnknown, None, None, None, None, RECONCILE_RETRY_SECONDS, Overridden(Some(Accepted)))
  const DEFERRAL := Deferral(OutcomeUnknown, None, None, None, RECONCILE_RETRY_SECONDS, Overridden(Some(Accepted)))
  const PASS := [OnRow(EXAMPLE, RecoveryClaim("token", "recovery")), OnRow(EXAMPLE, RecoveryRead(1, true, true)),
                 OnRow(EXAMPLE, RecoveryQuery(1, REPLY)), OnRow(EXAMPLE, RecoveryWrite(1))]

  // The worker is gone and recovery has claimed the row.
  predicate Recovering(cell: Cell, frame: Frame) {
    && cell.e.key == EXAMPLE && cell.e.state == Submitting && cell.e.reconciles == 1 && cell.e.claimGeneration == 2
    && cell.e.claim.Some? && cell.e.claim.value.kind == Reconcile && cell.e.claim.value.token == "token"
    && cell.e.claim.value.owner == "recovery" && cell.e.claim.value.expires > PREPARED_RECOVERY_GRACE_SECONDS
    && cell.e.findings.handle == None && Explained(cell.e) && cell.h.frames == map[1 := frame]
  }

  lemma RecoveryTakesIt(w: Driver.World, cell: Cell)
    requires Sent(cell) && w.now == PREPARED_RECOVERY_GRACE_SECONDS && !OriginLive(w, cell.e)
    ensures Recovering(CellStep(w, cell, RecoveryClaim("token", "recovery")), Claimed(AGAIN))
  {
    RecoveryActionsAccounted(w, cell, RecoveryClaim("token", "recovery"));
    AccountedStaysExplained(cell.e, RowAfter(w, cell, RecoveryClaim("token", "recovery")));
  }

  lemma RecoveryAsks(w: Driver.World, cell: Cell)
    requires Recovering(cell, Claimed(AGAIN))
    ensures Recovering(CellStep(w, cell, RecoveryRead(1, true, true)), Asking(AGAIN, 1))
  {
  }

  lemma RecoveryHears(w: Driver.World, cell: Cell)
    requires Recovering(cell, Asking(AGAIN, 1))
    ensures Recovering(CellStep(w, cell, RecoveryQuery(1, REPLY)), Writing(AGAIN, DeferWith(DEFERRAL)))
  {
  }

  predicate Misreported(e: Effect) {
    e.state == OutcomeUnknown && Replay(e.evidence).state == Accepted && !Explained(e)
  }

  lemma RecoveryMisreports(w: Driver.World, cell: Cell)
    requires Recovering(cell, Writing(AGAIN, DeferWith(DEFERRAL))) && w.now == PREPARED_RECOVERY_GRACE_SECONDS
    ensures Misreported(RowAfter(w, cell, RecoveryWrite(1)))
  {
    var after := RowAfter(w, cell, RecoveryWrite(1));
    assert after.evidence == Logged(cell.e.evidence, cell.e.claimGeneration, EvDeferred(Some(Accepted)));
    assert after.evidence[..|after.evidence| - 1] == cell.e.evidence;
  }

  // The worker dies, recovery asks the provider, and the decision leaves a row of unknown outcome whose log
  // says accepted.
  lemma DeferralExample() returns (ops: seq<Op>)
    ensures EXAMPLE in Run(Init(1, 0), ops).cells && Misreported(Run(Init(1, 0), ops).cells[EXAMPLE].e)
  {
    var sent := SentRun();
    var crash := Drive(DriverRuns.OpTick(PREPARED_RECOVERY_GRACE_SECONDS));
    RunSnoc(Init(1, 0), sent, crash);
    PassMisreports(Run(Init(1, 0), sent + [crash]));
    RunConcat(Init(1, 0), sent + [crash], PASS);
    ops := sent + [crash] + PASS;
  }

  lemma PassMisreports(s: System)
    requires EXAMPLE in s.cells && Sent(s.cells[EXAMPLE]) && s.drivers.now == PREPARED_RECOVERY_GRACE_SECONDS
    requires !OriginLive(s.drivers, s.cells[EXAMPLE].e)
    ensures EXAMPLE in Run(s, PASS).cells && Misreported(Run(s, PASS).cells[EXAMPLE].e)
  {
    var w, cell := s.drivers, s.cells[EXAMPLE];
    RecoveryTakesIt(w, cell);
    var taken := CellStep(w, cell, PASS[0].action);
    RecoveryAsks(w, taken);
    var asking := CellStep(w, taken, PASS[1].action);
    RecoveryHears(w, asking);
    RecoveryMisreports(w, CellStep(w, asking, PASS[2].action));
    RunOfFour(s, PASS[0], PASS[1], PASS[2], PASS[3]);
  }

  lemma RunOfFour(s: System, a: Op, b: Op, c: Op, d: Op)
    ensures Run(s, [a, b, c, d]) == Step(Step(Step(Step(s, a), b), c), d)
  {
    RunOfThree(s, a, b, c);
    RunSnoc(s, [a, b, c], d);
    assert [a, b, c, d] == [a, b, c] + [d];
  }
}
