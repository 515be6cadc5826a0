// What a recovery pass leaves on the row: the provider's decision, or the reason why nobody was asked. Other
// workers may do anything between the steps of the pass.
module LedgerRecovery {
  import opened Common
  import Driver
  import DriverRuns
  import opened EffectLedger
  import opened LedgerRuns
  import opened LedgerTheorems

  // ---- what is to be left

  // How a row ends when nobody asks the provider, and why.
  datatype Verdictless = Verdictless(state: TerminalState, error: string)

  // What a pass knows before it may ask: a never-sent row has failed, and a sent one is parked when the passes
  // are used up, when its adapter is gone, or when there is nothing to ask about.
  function Unasked(e: Effect, registered: bool, withoutHandle: bool): Option<Verdictless> {
    if e.state == Prepared then Some(Verdictless(Failed, "abandoned_before_dispatch"))
    else if e.reconciles > MAX_RECONCILE_ATTEMPTS then Some(Verdictless(ManualReview, "reconcile_attempts_exhausted"))
    else if !registered then Some(Verdictless(ManualReview, "reconciler_unavailable"))
    else if !withoutHandle && e.findings.handle == None then
      Some(Verdictless(ManualReview, "provider_receipt_unavailable"))
    else None
  }

  // The closing write drops the claim and leaves who the effect belongs to and what was tried alone.
  predicate Closing(before: Effect, after: Effect) {
    && after.claim == None
    && (after.key, after.request, after.run, after.runGeneration, after.preparedAt) ==
       (before.key, before.request, before.run, before.runGeneration, before.preparedAt)
    && (after.attempts, after.reconciles, after.claimGeneration) ==
       (before.attempts, before.reconciles, before.claimGeneration)
  }

  predicate EndsUnasked(v: Verdictless, before: Effect, after: Effect) {
    && Closing(before, after)
    && after.state == v.state && after.reconcileAfter == None
    && after.findings == before.findings.(error := Some(v.error))
  }

  predicate Learned(known: Option<string>, reported: Option<string>, after: Option<string>) {
    after == if reported.Some? then reported else known
  }

  // Not before `delay` seconds, held between one second and one hour.
  predicate DueIn(after: Effect, now: Time, delay: int) {
    && after.reconcileAfter.Some?
    && 1 <= after.reconcileAfter.value - now <= 3600
    && (1 <= delay <= 3600 ==> after.reconcileAfter.value == now + delay)
    && (delay < 1 ==> after.reconcileAfter.value == now + 1)
    && (delay > 3600 ==> after.reconcileAfter.value == now + 3600)
  }

  // A query that raised is tried again, or parks the row once the passes are used up; nothing is learned.
  predicate EndsRaised(errorType: string, count: nat, before: Effect, after: Effect, now: Time) {
    && Closing(before, after)
    && (after.findings.handle, after.findings.receipt, after.findings.projection) ==
       (before.findings.handle, before.findings.receipt, before.findings.projection)
    && if count < MAX_RECONCILE_ATTEMPTS
       then after.state == OutcomeUnknown && after.findings.error == Some(errorType) &&
            DueIn(after, now, RECONCILE_RETRY_SECONDS)
       else after.state == ManualReview && after.findings.error == Some("reconcile_failed") &&
            after.reconcileAfter == None
  }

  // A decision is what the row becomes, with the handle and receipt it reports, or else those already known.
  predicate EndsDecided(a: Answer, before: Effect, after: Effect, now: Time)
    requires a.Decided?
  {
    && Closing(before, after)
    && Learned(before.findings.handle, a.handle, after.findings.handle)
    && Learned(before.findings.receipt, a.receipt, after.findings.receipt)
    && (after.state == a.state || (after.state == OutcomeUnknown && (a.state == Prepared || a.state == Submitting)))
    && (Terminal(a.state) || a.state == Accepted ==> after.state == a.state)
    && (a.state == Succeeded ==> after.findings.projection == a.projection && after.findings.error == None)
    && (a.state != Succeeded ==> after.findings.projection == before.findings.projection)
    && (a.state == Failed ==>
          after.findings.error == if a.evidence.Some? then a.evidence else Some("provider_failed"))
    && (a.state == ManualReview ==>
          after.findings.error == if a.evidence.Some? then a.evidence else Some("manual_review_required"))
    && (if Terminal(a.state) then after.reconcileAfter == None
        else DueIn(after, now, a.retryAfter) && after.findings.error == None)
  }

  predicate Ends(a: Answer, count: nat, before: Effect, after: Effect, now: Time) {
    if a.Raised? then EndsRaised(a.errorType, count, before, after, now) else EndsDecided(a, before, after, now)
  }

  // ---- one closing write

  lemma QuerySettles(e: Effect, c: EffectClaim, count: nat, a: Answer, now: Time)
    requires Finish(e, c, Conclude(count, a), now).out == Done
    ensures Ends(a, count, e, Finish(e, c, Conclude(count, a), now).e, now)
  {
  }

  lemma PlanSettles(e: Effect, registered: bool, withoutHandle: bool, later: Effect, c: EffectClaim, now: Time)
    ensures PlanRecovery(e, registered, withoutHandle).Query? <==> Unasked(e, registered, withoutHandle).None?
    ensures Unasked(e, registered, withoutHandle).Some? ==>
              var done := Finish(later, c, PlanRecovery(e, registered, withoutHandle).conclusion, now);
              done.out == Done ==> EndsUnasked(Unasked(e, registered, withoutHandle).value, later, done.e)
  {
  }

  // ---- what a worker has decided to write stays decided

  // Pass k, if it is still in flight, is about to write this.
  predicate WillWrite(cell: Cell, k: nat, f: Frame) {
    k <= cell.e.reconciles && (k in cell.h.frames ==> cell.h.frames[k] == f)
  }

  lemma ActionKeepsPlan(w: Driver.World, cell: Cell, a: Action, k: nat, f: Frame)
    requires WillWrite(cell, k, f) && f.Writing?
    ensures WillWrite(CellStep(w, cell, a), k, f)
  {
    ReconcilesGrow(w, cell, a);
  }

  lemma ReconcilesGrow(w: Driver.World, cell: Cell, a: Action)
    ensures cell.e.reconciles <= RowAfter(w, cell, a).reconciles
  {
  }

  lemma StepKeepsPlan(s: System, op: Op, key: EffectKey, k: nat, f: Frame)
    requires key in s.cells && WillWrite(s.cells[key], k, f) && f.Writing?
    ensures key in Step(s, op).cells && WillWrite(Step(s, op).cells[key], k, f)
  {
    if op.Prepare? {
      PrepareTouchesOne(s, op, key);
    } else if op.OnRow? && op.key == key {
      ActionKeepsPlan(s.drivers, s.cells[key], op.action, k, f);
    }
  }

  lemma {:induction false} RunKeepsPlan(s: System, ops: seq<Op>, key: EffectKey, k: nat, f: Frame)
    requires key in s.cells && WillWrite(s.cells[key], k, f) && f.Writing?
    ensures key in Run(s, ops).cells && WillWrite(Run(s, ops).cells[key], k, f)
    decreases |ops|
  {
    if ops == [] {
    } else {
      StepKeepsPlan(s, ops[0], key, k, f);
      RunKeepsPlan(Step(s, ops[0]), ops[1..], key, k, f);
    }
  }

  // The write of pass k takes effect.
  predicate Lands(s: System, key: EffectKey, k: nat) {
    && key in s.cells && k !in s.cells[key].h.completed
    && k in CellStep(s.drivers, s.cells[key], RecoveryWrite(k)).h.completed
  }

  function Written(s: System, key: EffectKey, k: nat): Effect
    requires key in s.cells
  {
    Step(s, OnRow(key, RecoveryWrite(k))).cells[key].e
  }

  lemma LandedWrite(s: System, key: EffectKey, k: nat, f: Frame)
    requires Lands(s, key, k) && WillWrite(s.cells[key], k, f) && f.Writing?
    ensures Finish(s.cells[key].e, f.c, f.conclusion, s.drivers.now).out == Done
    ensures Written(s, key, k) == Finish(s.cells[key].e, f.c, f.conclusion, s.drivers.now).e
  {
  }

  // ---- whole passes

  // Pass k is about to ask, with the count its snapshot showed.
  predicate AsksWith(s: System, key: EffectKey, k: nat, count: nat) {
    && key in s.cells && k in s.cells[key].h.frames && s.cells[key].h.frames[k].Asking?
    && s.cells[key].h.frames[k].count == count
  }

  // Over every run: however a query ends, and whatever other workers do before the closing write, a write that
  // takes effect leaves exactly what the provider decided, or what a raised query calls for.
  lemma DecisionReachesTheRow(limit: int, now: Time, before: seq<Op>, key: EffectKey, k: nat, count: nat, a: Answer,
                              between: seq<Op>)
    requires AsksWith(Run(Init(limit, now), before), key, k, count)
    requires Lands(Run(AskedBy(Run(Init(limit, now), before), key, k, a), between), key, k)
    ensures var s := Run(AskedBy(Run(Init(limit, now), before), key, k, a), between);
            Ends(a, count, s.cells[key].e, Written(s, key, k), s.drivers.now)
  {
    var asking := Run(Init(limit, now), before);
    Reachable(limit, now, before);
    assert CellOk(asking.drivers, key, asking.cells[key]);
    var f := AskedFrame(asking, key, k, count, a);
    RunKeepsPlan(AskedBy(asking, key, k, a), between, key, k, f);
    var s := Run(AskedBy(asking, key, k, a), between);
    LandedWrite(s, key, k, f);
    QuerySettles(s.cells[key].e, f.c, count, a, s.drivers.now);
  }

  function AskedBy(s: System, key: EffectKey, k: nat, a: Answer): System {
    Step(s, OnRow(key, RecoveryQuery(k, a)))
  }

  lemma AskedFrame(s: System, key: EffectKey, k: nat, count: nat, a: Answer) returns (f: Frame)
    requires AsksWith(s, key, k, count) && PassesOk(s.cells[key].e, s.cells[key].h)
    ensures f.Writing? && f.conclusion == Conclude(count, a)
    ensures key in AskedBy(s, key, k, a).cells && WillWrite(AskedBy(s, key, k, a).cells[key], k, f)
  {
    assert FrameOk(s.cells[key].e, s.cells[key].h, k);
    f := Writing(s.cells[key].h.frames[k].c, Conclude(count, a));
  }

  // ... and when the snapshot rules the query out, exactly the reason it gives.
  lemma SnapshotReachesTheRow(limit: int, now: Time, before: seq<Op>, key: EffectKey, k: nat, registered: bool,
                              withoutHandle: bool, between: seq<Op>)
    requires ClaimedPass(Run(Init(limit, now), before), key, k)
    requires Unasked(Run(Init(limit, now), before).cells[key].e, registered, withoutHandle).Some?
    requires Lands(Run(ReadBy(Run(Init(limit, now), before), key, k, registered, withoutHandle), between), key, k)
    ensures var claimed := Run(Init(limit, now), before);
            var s := Run(ReadBy(claimed, key, k, registered, withoutHandle), between);
            EndsUnasked(Unasked(claimed.cells[key].e, registered, withoutHandle).value, s.cells[key].e,
                        Written(s, key, k))
  {
    var claimed := Run(Init(limit, now), before);
    Reachable(limit, now, before);
    assert CellOk(claimed.drivers, key, claimed.cells[key]);
    var f := PlannedFrame(claimed, key, k, registered, withoutHandle);
    RunKeepsPlan(ReadBy(claimed, key, k, registered, withoutHandle), between, key, k, f);
    var s := Run(ReadBy(claimed, key, k, registered, withoutHandle), between);
    LandedWrite(s, key, k, f);
    PlanSettles(claimed.cells[key].e, registered, withoutHandle, s.cells[key].e, f.c, s.drivers.now);
  }

  predicate ClaimedPass(s: System, key: EffectKey, k: nat) {
    key in s.cells && k in s.cells[key].h.frames && s.cells[key].h.frames[k].Claimed?
  }

  function ReadBy(s: System, key: EffectKey, k: nat, registered: bool, withoutHandle: bool): System {
    Step(s, OnRow(key, RecoveryRead(k, registered, withoutHandle)))
  }

  lemma PlannedFrame(s: System, key: EffectKey, k: nat, registered: bool, withoutHandle: bool) returns (f: Frame)
    requires ClaimedPass(s, key, k) && PassesOk(s.cells[key].e, s.cells[key].h)
    requires Unasked(s.cells[key].e, registered, withoutHandle).Some?
    ensures f.Writing? && f.conclusion == PlanRecovery(s.cells[key].e, registered, withoutHandle).conclusion
    ensures key in ReadBy(s, key, k, registered, withoutHandle).cells
    ensures WillWrite(ReadBy(s, key, k, registered, withoutHandle).cells[key], k, f)
  {
    var e := s.cells[key].e;
    assert FrameOk(e, s.cells[key].h, k);
    f := Writing(s.cells[key].h.frames[k].c, PlanRecovery(e, registered, withoutHandle).conclusion);
  }

  // Otherwise the pass will ask, with the count the snapshot showed.
  lemma SnapshotLetsItAsk(s: System, key: EffectKey, k: nat, registered: bool, withoutHandle: bool)
    requires ClaimedPass(s, key, k) && Unasked(s.cells[key].e, registered, withoutHandle).None?
    ensures AsksWith(ReadBy(s, key, k, registered, withoutHandle), key, k, s.cells[key].e.reconciles)
  {
  }

  // A granted recovery claim starts such a pass: under the next count, with the very claim the row now holds.
  lemma GrantedClaimStartsAPass(s: System, key: EffectKey, token: string, owner: string)
    requires key in s.cells
    requires var e := s.cells[key].e;
             ClaimForReconcile(e, OriginLive(s.drivers, e), token, owner, s.drivers.now).out == Done
    ensures var claimed := Step(s, OnRow(key, RecoveryClaim(token, owner)));
            var k := s.cells[key].e.reconciles + 1;
            && ClaimedPass(claimed, key, k) && claimed.cells[key].e.reconciles == k
            && claimed.cells[key].h.frames[k].c ==
               EffectClaim(s.cells[key].e.key, s.cells[key].e.run, s.cells[key].e.runGeneration, Reconcile, token,
                           s.cells[key].e.claimGeneration + 1, owner)
            && MatchesLive(claimed.cells[key].e, claimed.cells[key].h.frames[k].c, claimed.drivers.now)
            && claimed.cells[key].h.reconciled
  {
  }

  // A pass nobody disturbs takes effect: its claim is still live and its row still open when it writes.
  lemma UndisturbedPass(limit: int, now: Time, before: seq<Op>, key: EffectKey, k: nat, registered: bool,
                        withoutHandle: bool, a: Answer)
    requires var s := Run(Init(limit, now), before);
             && ClaimedPass(s, key, k)
             && MatchesLive(s.cells[key].e, s.cells[key].h.frames[k].c, s.drivers.now)
    ensures var s := Run(Init(limit, now), before);
            var pass := [OnRow(key, RecoveryRead(k, registered, withoutHandle)), OnRow(key, RecoveryQuery(k, a)),
                         OnRow(key, RecoveryWrite(k))];
            var e, done := s.cells[key].e, Run(s, pass);
            && key in done.cells
            && match Unasked(e, registered, withoutHandle)
               case None => Ends(a, e.reconciles, e, done.cells[key].e, s.drivers.now)
               case Some(v) => EndsUnasked(v, e, done.cells[key].e)
  {
    var s := Run(Init(limit, now), before);
    Reachable(limit, now, before);
    var cell := s.cells[key];
    assert CellOk(s.drivers, key, cell) && FrameOk(cell.e, cell.h, k);
    var read, ask, write := RecoveryRead(k, registered, withoutHandle), RecoveryQuery(k, a), RecoveryWrite(k);
    RunOfThree(s, OnRow(key, read), OnRow(key, ask), OnRow(key, write));
    PassOnCell(s.drivers, cell, k, registered, withoutHandle, a);
  }

  lemma PassOnCell(w: Driver.World, cell: Cell, k: nat, registered: bool, withoutHandle: bool, a: Answer)
    requires RowOk(cell.e) && k in cell.h.frames && cell.h.frames[k].Claimed? && cell.h.frames[k].c.kind == Reconcile
    requires MatchesLive(cell.e, cell.h.frames[k].c, w.now)
    ensures var read := CellStep(w, cell, RecoveryRead(k, registered, withoutHandle));
            var asked := CellStep(w, read, RecoveryQuery(k, a));
            match Unasked(cell.e, registered, withoutHandle)
            case None => Ends(a, cell.e.reconciles, cell.e, RowAfter(w, asked, RecoveryWrite(k)), w.now)
            case Some(v) => EndsUnasked(v, cell.e, RowAfter(w, asked, RecoveryWrite(k)))
  {
    var c := cell.h.frames[k].c;
    var read := CellStep(w, cell, RecoveryRead(k, registered, withoutHandle));
    var asked := CellStep(w, read, RecoveryQuery(k, a));
    var plan := PlanRecovery(cell.e, registered, withoutHandle);
    var conclusion := if plan.Query? then Conclude(cell.e.reconciles, a) else plan.conclusion;
    WillConclude(w, cell, k, registered, withoutHandle, a);
    LiveWriteLands(cell.e, c, conclusion, w.now);
    PlanSettles(cell.e, registered, withoutHandle, cell.e, c, w.now);
    if plan.Query? {
      QuerySettles(cell.e, c, cell.e.reconciles, a, w.now);
    }
    WritesConclusion(w, asked, k, c, conclusion);
  }

  // Such a pass is counted: its query if it asks, and its completion.
  lemma PassIsCounted(w: Driver.World, cell: Cell, k: nat, registered: bool, withoutHandle: bool, a: Answer)
    requires RowOk(cell.e) && k in cell.h.frames && cell.h.frames[k].Claimed? && cell.h.frames[k].c.kind == Reconcile
    requires MatchesLive(cell.e, cell.h.frames[k].c, w.now)
    ensures var read := CellStep(w, cell, RecoveryRead(k, registered, withoutHandle));
            var asked := CellStep(w, read, RecoveryQuery(k, a));
            && QueriesOf(asked.h) ==
               QueriesOf(cell.h) + (if Unasked(cell.e, registered, withoutHandle).None? then 1 else 0)
            && CompletedBy(CellStep(w, asked, RecoveryWrite(k)).h, k)
  {
    var asked := CellStep(w, CellStep(w, cell, RecoveryRead(k, registered, withoutHandle)), RecoveryQuery(k, a));
    var plan := PlanRecovery(cell.e, registered, withoutHandle);
    var conclusion := if plan.Query? then Conclude(cell.e.reconciles, a) else plan.conclusion;
    WillConclude(w, cell, k, registered, withoutHandle, a);
    LiveWriteLands(cell.e, cell.h.frames[k].c, conclusion, w.now);
    LandingIsCounted(w, asked, k, cell.h.frames[k].c, conclusion);
    QueryIsCounted(w, cell, k, registered, withoutHandle, a);
  }

  function QueriesOf(h: History): nat { h.queries }

  predicate CompletedBy(h: History, k: nat) { k in h.completed && k !in h.frames }

  lemma LandingIsCounted(w: Driver.World, cell: Cell, k: nat, c: EffectClaim, conclusion: Conclusion)
    requires k in cell.h.frames && cell.h.frames[k] == Writing(c, conclusion)
    requires Finish(cell.e, c, conclusion, w.now).out == Done
    ensures CompletedBy(CellStep(w, cell, RecoveryWrite(k)).h, k)
  {
  }

  lemma QueryIsCounted(w: Driver.World, cell: Cell, k: nat, registered: bool, withoutHandle: bool, a: Answer)
    requires k in cell.h.frames && cell.h.frames[k].Claimed?
    ensures var read := CellStep(w, cell, RecoveryRead(k, registered, withoutHandle));
            QueriesOf(CellStep(w, read, RecoveryQuery(k, a)).h) ==
            QueriesOf(cell.h) + if Unasked(cell.e, registered, withoutHandle).None? then 1 else 0
  {
  }

  lemma WillConclude(w: Driver.World, cell: Cell, k: nat, registered: bool, withoutHandle: bool, a: Answer)
    requires k in cell.h.frames && cell.h.frames[k].Claimed?
    ensures var read := CellStep(w, cell, RecoveryRead(k, registered, withoutHandle));
            var asked := CellStep(w, read, RecoveryQuery(k, a));
            var plan := PlanRecovery(cell.e, registered, withoutHandle);
            && asked.e == cell.e && k in asked.h.frames
            && asked.h.frames[k] == Writing(cell.h.frames[k].c, if plan.Query? then Conclude(cell.e.reconciles, a)
                                                                else plan.conclusion)
  {
  }

  lemma WritesConclusion(w: Driver.World, cell: Cell, k: nat, c: EffectClaim, conclusion: Conclusion)
    requires k in cell.h.frames && cell.h.frames[k] == Writing(c, conclusion)
    ensures RowAfter(w, cell, RecoveryWrite(k)) == Finish(cell.e, c, conclusion, w.now).e
  {
  }

  lemma LiveWriteLands(e: Effect, c: EffectClaim, conclusion: Conclusion, now: Time)
    requires RowOk(e) && MatchesLive(e, c, now) && c.kind == Reconcile
    ensures Finish(e, c, conclusion, now).out == Done
  {
  }
}
