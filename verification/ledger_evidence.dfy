// How far the evidence log of an effect explains its row. Entries are written by the ledger itself, except
// that a dispatching worker names the phase of its own progress entries and a reconciler's free-form evidence
// can replace the state a deferral shows.
module LedgerEvidence {
  import opened Common
  import Driver
  import DriverRuns
  import opened EffectLedger
  import opened LedgerRuns
  import opened LedgerTheorems

  // What an auditor rebuilds from the log alone.
  datatype Audit = Audit(state: State, attempts: nat, reconciles: nat)

  function Note(a: Audit, phase: EvidencePhase): Audit {
    match phase
    case EvSubmitting(n) => a.(state := Submitting, attempts := n)
    case EvAccepted => a.(state := Accepted)
    case EvSettled(state) => a.(state := state)
    case EvUnknown => a.(state := OutcomeUnknown)
    case EvAcknowledged => a.(state := Failed)
    case EvReconcileClaimed(n) => a.(reconciles := n)
    case EvDeferred(shown) => if shown.Some? then a.(state := shown.value) else a
    case _ => a
  }

  function Replay(log: seq<Evidence>): Audit {
    if log == [] then Audit(Prepared, 0, 0) else Note(Replay(log[..|log| - 1]), log[|log| - 1].phase)
  }

  function AuditOf(e: Effect): Audit { Audit(e.state, e.attempts, e.reconciles) }

  predicate Explained(e: Effect) { Replay(e.evidence) == AuditOf(e) }

  // ---- one entry

  lemma OneMoreEntry(e: Effect, e': Effect, phase: EvidencePhase)
    requires Explained(e) && e'.evidence == Logged(e.evidence, e'.claimGeneration, phase)
    ensures Explained(e') <==> Note(AuditOf(e), phase) == AuditOf(e')
  {
    assert e'.evidence[..|e'.evidence| - 1] == e.evidence;
  }

  // Either nothing audited moved, or one entry was logged that accounts for the move.
  predicate Accounted(e: Effect, e': Effect) {
    if e'.evidence == e.evidence then AuditOf(e') == AuditOf(e)
    else
      && e'.evidence != []
      && var phase := e'.evidence[|e'.evidence| - 1].phase;
      && e'.evidence == Logged(e.evidence, e'.claimGeneration, phase)
      && Note(AuditOf(e), phase) == AuditOf(e')
  }

  lemma AccountedStaysExplained(e: Effect, e': Effect)
    requires Explained(e) && Accounted(e, e')
    ensures Explained(e')
  {
    if e'.evidence != e.evidence {
      OneMoreEntry(e, e', e'.evidence[|e'.evidence| - 1].phase);
    }
  }

  // ---- the two calls that may log something else than what they do

  // An entry that says nothing new of a row that is being submitted for the first time.
  predicate Neutral(phase: EvidencePhase, reconciles: nat) {
    match phase
    case EvSubmitting(n) => n == 1
    case EvReconcileClaimed(n) => n == reconciles
    case EvDeferred(shown) => shown.None? || shown == Some(Submitting)
    case EvAccepted => false
    case EvSettled(_) => false
    case EvUnknown => false
    case EvAcknowledged => false
    case _ => true
  }

  // A granted progress entry leaves the log explaining the row exactly when its phase is neutral there.
  lemma ProgressIsExplainedExactly(e: Effect, c: EffectClaim, phase: EvidencePhase, now: Time)
    requires RowOk(e) && Explained(e) && RecordProgress(e, c, phase, now).out == Done
    ensures Explained(RecordProgress(e, c, phase, now).e) <==> Neutral(phase, e.reconciles)
  {
    OneMoreEntry(e, RecordProgress(e, c, phase, now).e, phase);
  }

  // A granted deferral leaves the log explaining the row exactly when it shows the state it moves to, or shows
  // none and moves nowhere.
  lemma DeferralIsExplainedExactly(e: Effect, c: EffectClaim, d: Deferral, now: Time)
    requires Explained(e) && Defer(e, c, d, now).out == Done
    ensures Explained(Defer(e, c, d, now).e) <==> Shown(d) == Some(d.next) || (Shown(d).None? && e.state == d.next)
  {
    OneMoreEntry(e, Defer(e, c, d, now).e, EvDeferred(Shown(d)));
  }

  // ---- runs of callers that log what they do

  // Phases that move nothing in an audit, whatever the row.
  predicate Plain(phase: EvidencePhase) {
    phase == EvOther || phase == EvPrepared || phase == EvReprepared || phase == EvClaimAcquired || phase == EvAbandoned
  }

  predicate Faithful(d: Deferral) { Shown(d) == Some(d.next) }

  // The decision's evidence shows no other state than the one the deferral will take.
  predicate FaithfulReply(reply: Answer) {
    reply.Decided? ==>
      reply.report.AsIs? || reply.report.shown == Some(if reply.state == Accepted then Accepted else OutcomeUnknown)
  }

  predicate Honest(a: Action) {
    && (a.ProgressBy? ==> Plain(a.phase))
    && (a.DeferBy? ==> Faithful(a.d))
    && (a.RecoveryQuery? ==> FaithfulReply(a.reply))
  }

  predicate AllHonest(ops: seq<Op>) {
    forall k :: 0 <= k < |ops| && ops[k].OnRow? ==> Honest(ops[k].action)
  }

  predicate FaithfulFrame(f: Frame) {
    f.Writing? && f.conclusion.DeferWith? ==> Faithful(f.conclusion.deferral)
  }

  predicate FaithfulFrames(h: History) {
    forall k :: k in h.frames ==> FaithfulFrame(h.frames[k])
  }

  lemma EarlyActionsAccounted(w: Driver.World, cell: Cell, a: Action)
    requires BeforeAnswer(a) && Honest(a)
    ensures Accounted(cell.e, RowAfter(w, cell, a))
  {
  }

  lemma ClosingActionsAccounted(w: Driver.World, cell: Cell, a: Action)
    requires !BeforeAnswer(a) && !InRecovery(a) && Honest(a)
    ensures Accounted(cell.e, RowAfter(w, cell, a))
  {
  }

  lemma RecoveryActionsAccounted(w: Driver.World, cell: Cell, a: Action)
    requires InRecovery(a) && FaithfulFrames(cell.h)
    ensures Accounted(cell.e, RowAfter(w, cell, a))
  {
    if a.RecoveryWrite? {
      if a.attempt in cell.h.frames {
        assert FaithfulFrame(cell.h.frames[a.attempt]);
      }
    }
  }

  lemma FramesStayFaithful(w: Driver.World, cell: Cell, a: Action)
    requires FaithfulFrames(cell.h) && Honest(a)
    ensures FaithfulFrames(HistoryAfter(w, cell, a))
  {
    forall k | k in HistoryAfter(w, cell, a).frames ensures FaithfulFrame(HistoryAfter(w, cell, a).frames[k]) {
      assert k in cell.h.frames ==> FaithfulFrame(cell.h.frames[k]);
    }
  }

  lemma ActionStaysExplained(w: Driver.World, cell: Cell, a: Action)
    requires Explained(cell.e) && FaithfulFrames(cell.h) && Honest(a)
    ensures Explained(RowAfter(w, cell, a))
  {
    if BeforeAnswer(a) {
      EarlyActionsAccounted(w, cell, a);
    } else if InRecovery(a) {
      RecoveryActionsAccounted(w, cell, a);
    } else {
      ClosingActionsAccounted(w, cell, a);
    }
    AccountedStaysExplained(cell.e, RowAfter(w, cell, a));
  }

  predicate CellExplained(cell: Cell) { Explained(cell.e) && FaithfulFrames(cell.h) }

  ghost predicate AllExplained(s: System) {
    forall key :: key in s.cells ==> CellExplained(s.cells[key])
  }

  lemma PrepareStaysExplained(s: System, op: Op, key: EffectKey)
    requires op.Prepare? && key in PrepareStep(s, op).cells
    requires key in s.cells ==> CellExplained(s.cells[key])
    ensures CellExplained(PrepareStep(s, op).cells[key])
  {
    if key in s.cells {
      PrepareTouchesOne(s, op, key);
      if PrepareStep(s, op).cells[key] != s.cells[key] {
        ReprepareIsAccounted(s.cells[key].e, op.request, op.run, op.generation, op.resourceOpen);
        AccountedStaysExplained(s.cells[key].e, PrepareStep(s, op).cells[key].e);
      }
    } else {
      NewRowIsExplained(key, op.request, op.run, op.generation, s.drivers.now);
    }
  }

  lemma ReprepareIsAccounted(e: Effect, request: Request, run: RunId, generation: nat, open: bool)
    ensures Accounted(e, Reprepare(e, request, run, generation, open).e)
  {
  }

  lemma NewRowIsExplained(key: EffectKey, request: Request, run: RunId, generation: nat, now: Time)
    ensures Explained(NewEffect(key, request, run, generation, now))
  {
    var log := NewEffect(key, request, run, generation, now).evidence;
    assert log[..0] == [] && Replay(log[..0]) == Audit(Prepared, 0, 0);
  }

  lemma StepStaysExplained(s: System, op: Op)
    requires AllExplained(s) && (op.OnRow? ==> Honest(op.action))
    ensures AllExplained(Step(s, op))
  {
    forall key | key in Step(s, op).cells ensures CellExplained(Step(s, op).cells[key]) {
      if op.Prepare? {
        PrepareStaysExplained(s, op, key);
      } else if op.OnRow? && key == op.key {
        ActionStaysExplained(s.drivers, s.cells[key], op.action);
        FramesStayFaithful(s.drivers, s.cells[key], op.action);
      }
    }
  }

  lemma {:induction false} RunStaysExplained(s: System, ops: seq<Op>)
    requires AllExplained(s) && AllHonest(ops)
    ensures AllExplained(Run(s, ops))
    decreases |ops|
  {
    if ops == [] {
    } else {
      StepStaysExplained(s, ops[0]);
      RunStaysExplained(Step(s, ops[0]), ops[1..]);
    }
  }

  // Over every run in which progress entries use plain phases and no decision evidence shows another state, the
  // log alone determines the row's state and both attempt counters.
  lemma EvidenceExplainsTheRow(limit: int, now: Time, ops: seq<Op>, key: EffectKey)
    requires AllHonest(ops) && key in Run(Init(limit, now), ops).cells
    ensures Explained(Run(Init(limit, now), ops).cells[key].e)
  {
    RunStaysExplained(Init(limit, now), ops);
  }
}
