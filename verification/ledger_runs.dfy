// What every interleaving of dispatch workers, recovery workers, heartbeats, crashes and driver
// transactions keeps of the effect ledger. Workers may present any claim value at any time.
module LedgerRuns {
  import opened Common
  import Driver
  import DriverRuns
  import opened EffectLedger

  // A recovery pass in flight: it has claimed, or is about to query, or is about to write.
  datatype Frame =
    | Claimed(c: EffectClaim)
    | Asking(c: EffectClaim, count: nat)
    | Writing(c: EffectClaim, conclusion: Conclusion)

  // History of one effect: nothing here is read by a guard of the ledger itself.
  datatype History = History(
    submittedBy: Option<nat>,   // the claim generation that crossed the send boundary
    sends: seq<nat>,            // claim generations whose last pre-send assertion succeeded
    reconciled: bool,           // some recovery worker was granted a claim
    reopened: bool,             // a recovery claim was given back while the session was open
    lateSend: bool,             // a send was allowed after a recovery claim
    frames: map<nat, Frame>,    // recovery passes in flight, by the reconcile count of their claim
    queried: set<int>,          // passes that queried the provider ...
    queries: nat,               // ... and how many queries were made
    completed: set<int>)        // passes whose closing write committed

  datatype Cell = Cell(e: Effect, h: History)

  datatype System = System(drivers: Driver.World, cells: map<EffectKey, Cell>)

  datatype Action =
    | ClaimDispatch(run: RunId, generation: nat, token: string, owner: string)
    | Submit(c: EffectClaim, resourceOpen: bool)
    | Send(c: EffectClaim, resourceOpen: bool)
    | AbandonBy(c: EffectClaim)
    | RenewBy(c: EffectClaim)
    | ProgressBy(c: EffectClaim, phase: EvidencePhase)
    | AcceptBy(c: EffectClaim, handle: Option<string>, receipt: string)
    | SettleBy(c: EffectClaim, v: Verdict, projector: bool)
    | UnknownBy(c: EffectClaim, error: string, found: Option<string>, answer: Option<string>)
    | DeferBy(c: EffectClaim, d: Deferral)
    | AcknowledgeByOwner
    | RecoveryClaim(token: string, owner: string)
    | RecoveryRead(attempt: nat, registered: bool, withoutHandle: bool)
    | RecoveryQuery(attempt: nat, reply: Answer)
    | RecoveryWrite(attempt: nat)
    | RecoveryCrash(attempt: nat)

  datatype Op =
    | Drive(op: DriverRuns.Op)
    | Prepare(key: EffectKey, request: Request, run: RunId, generation: nat, resourceKnown: bool, resourceOpen: bool)
    | OnRow(key: EffectKey, action: Action)

  predicate RunLive(w: Driver.World, c: EffectClaim) {
    Driver.Fence(w, c.key.session, c.key.tenant, c.run, c.runGeneration)
  }

  predicate OriginLive(w: Driver.World, e: Effect) {
    Driver.Current(w, e.key.session, e.key.tenant, e.run, e.runGeneration)
  }

  predicate ScopeOpen(w: Driver.World, key: EffectKey) {
    Driver.OpenSession(w, key.session, key.tenant)
  }

  function RowAfter(w: Driver.World, cell: Cell, a: Action): Effect {
    var e := cell.e;
    match a
    case ClaimDispatch(run, generation, token, owner) =>
      ClaimForDispatch(e, run, generation, Driver.Fence(w, e.key.session, e.key.tenant, run, generation),
                       token, owner, w.now).e
    case Submit(c, resourceOpen) => MarkSubmitting(e, c, RunLive(w, c), resourceOpen, w.now).e
    case Send(c, resourceOpen) => e
    case AbandonBy(c) => Abandon(e, c, w.now).e
    case RenewBy(c) => RenewClaim(e, c, w.now).e
    case ProgressBy(c, phase) => RecordProgress(e, c, phase, w.now).e
    case AcceptBy(c, handle, receipt) => RecordAccepted(e, c, handle, receipt, w.now).e
    case SettleBy(c, v, projector) => Settle(e, c, v, projector, RunLive(w, c), w.now).e
    case UnknownBy(c, error, found, answer) => RecordUnknown(e, c, error, found, answer, w.now).e
    case DeferBy(c, d) => Defer(e, c, d, w.now).e
    case AcknowledgeByOwner => Acknowledge(e).e
    case RecoveryClaim(token, owner) => ClaimForReconcile(e, OriginLive(w, e), token, owner, w.now).e
    case RecoveryWrite(attempt) =>
      if attempt in cell.h.frames && cell.h.frames[attempt].Writing?
      then Finish(e, cell.h.frames[attempt].c, cell.h.frames[attempt].conclusion, w.now).e
      else e
    case _ => e
  }

  function HistoryAfter(w: Driver.World, cell: Cell, a: Action): History {
    var e, h := cell.e, cell.h;
    match a
    case Submit(c, resourceOpen) =>
      if MarkSubmitting(e, c, RunLive(w, c), resourceOpen, w.now).out == Done
      then h.(submittedBy := Some(c.generation)) else h
    case Send(c, resourceOpen) =>
      if Dispatchable(e, c, RunLive(w, c), resourceOpen, w.now)
      then h.(sends := h.sends + [c.generation], lateSend := h.lateSend || h.reconciled) else h
    case AbandonBy(c) =>
      if Abandon(e, c, w.now).out == Done && c.kind == Reconcile && ScopeOpen(w, e.key)
      then h.(reopened := true) else h
    case RecoveryClaim(token, owner) =>
      if ClaimForReconcile(e, OriginLive(w, e), token, owner, w.now).out == Done then
        var c := EffectClaim(e.key, e.run, e.runGeneration, Reconcile, token, e.claimGeneration + 1, owner);
        h.(reconciled := true, frames := h.frames[e.reconciles + 1 := Claimed(c)])
      else h
    case RecoveryRead(attempt, registered, withoutHandle) =>
      if attempt in h.frames && h.frames[attempt].Claimed? then
        var c := h.frames[attempt].c;
        match PlanRecovery(e, registered, withoutHandle)
        case Write(conclusion) => h.(frames := h.frames[attempt := Writing(c, conclusion)])
        case Query => h.(frames := h.frames[attempt := Asking(c, e.reconciles)])
      else h
    case RecoveryQuery(attempt, reply) =>
      if attempt in h.frames && h.frames[attempt].Asking? then
        var f := h.frames[attempt];
        h.(frames := h.frames[attempt := Writing(f.c, Conclude(f.count, reply))],
           queried := h.queried + {attempt}, queries := h.queries + 1)
      else h
    case RecoveryWrite(attempt) =>
      if attempt in h.frames && h.frames[attempt].Writing? then
        var f := h.frames[attempt];
        var landed := Finish(e, f.c, f.conclusion, w.now).out == Done;
        h.(frames := h.frames - {attempt}, completed := if landed then h.completed + {attempt} else h.completed)
      else h
    case RecoveryCrash(attempt) => h.(frames := h.frames - {attempt})
    case _ => h
  }

  function CellStep(w: Driver.World, cell: Cell, a: Action): Cell {
    Cell(RowAfter(w, cell, a), HistoryAfter(w, cell, a))
  }

  const NO_HISTORY := History(None, [], false, false, false, map[], {}, 0, {})

  function PrepareStep(s: System, op: Op): System
    requires op.Prepare?
  {
    var live := Driver.Fence(s.drivers, op.key.session, op.key.tenant, op.run, op.generation);
    var inScope := Driver.OpenSession(s.drivers, op.key.session, op.key.tenant);
    if PrepareGuard(op.key, op.generation, op.request, live, op.resourceKnown, inScope) != Done then s
    else if op.key in s.cells then
      var cell := s.cells[op.key];
      var e := Reprepare(cell.e, op.request, op.run, op.generation, op.resourceOpen).e;
      s.(cells := s.cells[op.key := cell.(e := e)])
    else if op.request.resource.Some? && !op.resourceOpen then s
    else
      var e := NewEffect(op.key, op.request, op.run, op.generation, s.drivers.now);
      s.(cells := s.cells[op.key := Cell(e, NO_HISTORY)])
  }

  function Step(s: System, op: Op): System {
    match op
    case Drive(d) => s.(drivers := DriverRuns.Step(s.drivers, d))
    case Prepare(_, _, _, _, _, _) => PrepareStep(s, op)
    case OnRow(key, action) =>
      if key in s.cells then s.(cells := s.cells[key := CellStep(s.drivers, s.cells[key], action)]) else s
  }

  function Run(s: System, ops: seq<Op>): System
    decreases |ops|
  {
    if ops == [] then s else Run(Step(s, ops[0]), ops[1..])
  }

  function Init(limit: int, now: Time): System {
    System(DriverRuns.Init(limit, now), map[])
  }

  // ---- the invariant, in independent parts

  predicate RowOk(e: Effect) {
    && e.attempts <= MAX_DISPATCH_ATTEMPTS
    && (e.state == Prepared ==> e.attempts == 0)
    && (e.state == Submitting ==> e.attempts == 1)
    && (Terminal(e.state) ==> e.claim.None?)
  }

  // Nothing is known of the provider before the send boundary, and only a success carries a projection.
  predicate FindingsOk(e: Effect) {
    && (e.state == Prepared || e.state == Submitting ==> e.findings.handle == None && e.findings.receipt == None)
    && (e.state != Succeeded ==> e.findings.projection == None)
  }

  predicate SendOk(e: Effect, h: History) {
    && (h.submittedBy.Some? <==> e.attempts == 1)
    && (h.submittedBy.Some? ==> h.submittedBy.value <= e.claimGeneration)
    && (e.claim.Some? && e.claim.value.kind == Dispatch && e.state != Prepared ==>
        h.submittedBy == Some(e.claimGeneration))
    && (forall i :: 0 <= i < |h.sends| ==> Some(h.sends[i]) == h.submittedBy)
    && (h.lateSend ==> h.sends != [])
  }

  // The run an effect was prepared under was once the current generation of its tenant's session.
  predicate OriginOk(w: Driver.World, e: Effect) {
    var s := e.key.session;
    && s in w.rows && Driver.OwnedSession(w, s, e.key.tenant)
    && e.runGeneration <= w.rows[s].generation
    && (w.rows[s].generation == e.runGeneration && Driver.Live(w.rows[s], w.now) ==>
          w.rows[s].run == Some(e.run) && w.rows[s].user == e.key.tenant)
  }

  predicate HasClaim(e: Effect, kind: ClaimKind) {
    e.claim.Some? && e.claim.value.kind == kind
  }

  // The run an effect belongs to can never act again.
  predicate OriginDead(w: Driver.World, e: Effect) {
    DriverRuns.Dead(w, e.key.session, e.runGeneration)
  }

  // Recovery holds a never-sent row only once its run is dead, and until such a claim is given back in an
  // open session nobody can dispatch the row again.
  predicate RecoveryOk(w: Driver.World, e: Effect, h: History) {
    && (h.lateSend ==> h.reopened)
    && (HasClaim(e, Reconcile) ==> h.reconciled && (e.state == Prepared ==> OriginDead(w, e)))
    && (h.reconciled && !h.reopened ==>
          && !HasClaim(e, Dispatch)
          && (e.state == Prepared ==> OriginDead(w, e) && (HasClaim(e, Reconcile) || !ScopeOpen(w, e.key))))
  }

  predicate FrameOk(e: Effect, h: History, attempt: nat)
    requires attempt in h.frames
  {
    && 1 <= attempt <= e.reconciles
    && attempt !in h.completed
    && h.frames[attempt].c.kind == Reconcile
    && (h.frames[attempt].Writing? || attempt !in h.queried)
    && (h.frames[attempt].Asking? ==> attempt <= h.frames[attempt].count <= MAX_RECONCILE_ATTEMPTS)
    && (h.frames[attempt].Writing? && attempt > MAX_RECONCILE_ATTEMPTS ==> h.frames[attempt].conclusion.SettleWith?)
  }

  predicate PassesOk(e: Effect, h: History) {
    && (forall k :: k in h.frames ==> FrameOk(e, h, k))
    && (forall k :: k in h.queried ==> 1 <= k <= MAX_RECONCILE_ATTEMPTS && k <= e.reconciles)
    && h.queries == |h.queried|
    && (forall k :: k in h.completed ==> 1 <= k <= e.reconciles)
    && ((exists k :: k in h.completed && k > MAX_RECONCILE_ATTEMPTS) ==> Terminal(e.state))
  }

  // The log is numbered without gaps and its claim generations never go back.
  predicate LogOk(e: Effect) {
    && (forall i :: 0 <= i < |e.evidence| ==> e.evidence[i].sequence == i + 1)
    && (forall i, j :: 0 <= i < j < |e.evidence| ==> e.evidence[i].claimGeneration <= e.evidence[j].claimGeneration)
    && (forall i :: 0 <= i < |e.evidence| ==> e.evidence[i].claimGeneration <= e.claimGeneration)
  }

  predicate CellOk(w: Driver.World, key: EffectKey, cell: Cell) {
    && cell.e.key == key && key.tenant != "" && key.session != ""
    && RowOk(cell.e)
    && FindingsOk(cell.e)
    && SendOk(cell.e, cell.h)
    && OriginOk(w, cell.e)
    && RecoveryOk(w, cell.e, cell.h)
    && PassesOk(cell.e, cell.h)
    && LogOk(cell.e)
  }

  ghost predicate Inv(s: System) {
    forall key :: key in s.cells ==> CellOk(s.drivers, key, s.cells[key])
  }

  // ---- one step keeps each part

  lemma {:induction false} MaxSequenceIsLength(log: seq<Evidence>)
    requires forall i :: 0 <= i < |log| ==> log[i].sequence == i + 1
    ensures MaxSequence(log) == |log|
  {
    if log == [] {
    } else {
      MaxSequenceIsLength(log[..|log| - 1]);
    }
  }

  // A transaction logs nothing, or one entry under the row's claim generation.
  predicate Appended(e: Effect, e': Effect) {
    && e.claimGeneration <= e'.claimGeneration
    && (e'.evidence != e.evidence ==>
          e'.evidence != [] &&
          e'.evidence == Logged(e.evidence, e'.claimGeneration, e'.evidence[|e'.evidence| - 1].phase))
  }

  // Appending one entry: the numbering stays contiguous.
  lemma LogOneMore(e: Effect, e': Effect)
    requires LogOk(e) && Appended(e, e')
    ensures LogOk(e')
  {
    MaxSequenceIsLength(e.evidence);
  }

  // Actions of the dispatching worker up to the provider's answer.
  predicate BeforeAnswer(a: Action) {
    a.ClaimDispatch? || a.Submit? || a.Send? || a.AbandonBy? || a.RenewBy? || a.ProgressBy?
  }

  lemma EarlyActionsAppend(w: Driver.World, cell: Cell, a: Action)
    requires BeforeAnswer(a)
    ensures Appended(cell.e, RowAfter(w, cell, a))
  {
  }

  lemma ClosingActionsAppend(w: Driver.World, cell: Cell, a: Action)
    requires !BeforeAnswer(a) && !InRecovery(a)
    ensures Appended(cell.e, RowAfter(w, cell, a))
  {
  }

  lemma RecoveryActionsAppend(w: Driver.World, cell: Cell, a: Action)
    requires InRecovery(a)
    ensures Appended(cell.e, RowAfter(w, cell, a))
  {
  }

  lemma ActionKeepsLog(w: Driver.World, cell: Cell, a: Action)
    requires LogOk(cell.e)
    ensures LogOk(RowAfter(w, cell, a))
  {
    if BeforeAnswer(a) {
      EarlyActionsAppend(w, cell, a);
    } else if InRecovery(a) {
      RecoveryActionsAppend(w, cell, a);
    } else {
      ClosingActionsAppend(w, cell, a);
    }
    LogOneMore(cell.e, RowAfter(w, cell, a));
  }

  // Actions that move claims forward or give them back; every other action is calm.
  predicate Stirring(a: Action) {
    a.ClaimDispatch? || a.Submit? || a.Send? || a.AbandonBy? || a.RecoveryClaim?
  }

  // No attempt, no new claim, no way back to an earlier state, and a terminal row drops its claim.
  predicate Calm(e: Effect, e': Effect) {
    && (e'.key, e'.run, e'.runGeneration, e'.attempts, e'.claimGeneration) ==
       (e.key, e.run, e.runGeneration, e.attempts, e.claimGeneration)
    && (e'.claim.Some? ==> e.claim.Some? && e'.claim.value.kind == e.claim.value.kind)
    && (e'.state == Prepared ==> e'.claim.Some? == e.claim.Some?)
    && (e'.state != e.state ==>
          e'.state != Prepared && e'.state != Submitting &&
          (e'.claim.None? || (e.state == Submitting && e'.state == Accepted)))
  }

  lemma DispatcherIsCalm(w: Driver.World, cell: Cell, a: Action)
    requires a.RenewBy? || a.ProgressBy? || a.AcceptBy? || a.UnknownBy?
    ensures Calm(cell.e, RowAfter(w, cell, a))
  {
  }

  lemma CloserIsCalm(w: Driver.World, cell: Cell, a: Action)
    requires a.SettleBy? || a.DeferBy? || a.AcknowledgeByOwner?
    requires RowOk(cell.e)
    ensures Calm(cell.e, RowAfter(w, cell, a))
  {
  }

  lemma RecoveryIsCalm(w: Driver.World, cell: Cell, a: Action)
    requires InRecovery(a) && !a.RecoveryClaim?
    ensures Calm(cell.e, RowAfter(w, cell, a))
  {
  }

  lemma OthersAreCalm(w: Driver.World, cell: Cell, a: Action)
    requires RowOk(cell.e) && !Stirring(a)
    ensures Calm(cell.e, RowAfter(w, cell, a)) && SameSends(cell.h, HistoryAfter(w, cell, a))
  {
    HistoryIsCalm(w, cell, a);
    if InRecovery(a) {
      RecoveryIsCalm(w, cell, a);
    } else if a.SettleBy? || a.DeferBy? || a.AcknowledgeByOwner? {
      CloserIsCalm(w, cell, a);
    } else {
      DispatcherIsCalm(w, cell, a);
    }
  }

  predicate SameSends(h: History, h': History) {
    (h'.submittedBy, h'.sends, h'.reconciled, h'.reopened, h'.lateSend) ==
    (h.submittedBy, h.sends, h.reconciled, h.reopened, h.lateSend)
  }

  lemma HistoryIsCalm(w: Driver.World, cell: Cell, a: Action)
    requires !Stirring(a)
    ensures SameSends(cell.h, HistoryAfter(w, cell, a))
  {
  }

  lemma CalmKeepsSends(e: Effect, h: History, e': Effect, h': History)
    requires RowOk(e) && SendOk(e, h) && Calm(e, e') && SameSends(h, h')
    ensures SendOk(e', h')
  {
  }

  lemma CalmKeepsRecovery(w: Driver.World, e: Effect, h: History, e': Effect, h': History)
    requires OriginOk(w, e) && RecoveryOk(w, e, h) && Calm(e, e') && SameSends(h, h')
    ensures OriginOk(w, e') && RecoveryOk(w, e', h')
  {
  }

  lemma RowStaysOk(w: Driver.World, cell: Cell, a: Action)
    requires RowOk(cell.e)
    ensures RowOk(RowAfter(w, cell, a))
  {
    if BeforeAnswer(a) {
      EarlyRowStaysOk(w, cell, a);
    } else if InRecovery(a) {
      RecoveryRowStaysOk(w, cell, a);
    }
  }

  lemma EarlyRowStaysOk(w: Driver.World, cell: Cell, a: Action)
    requires RowOk(cell.e) && BeforeAnswer(a)
    ensures RowOk(RowAfter(w, cell, a))
  {
  }

  lemma RecoveryRowStaysOk(w: Driver.World, cell: Cell, a: Action)
    requires RowOk(cell.e) && InRecovery(a)
    ensures RowOk(RowAfter(w, cell, a))
  {
  }

  lemma ActionKeepsSends(w: Driver.World, cell: Cell, a: Action)
    requires RowOk(cell.e) && SendOk(cell.e, cell.h)
    ensures RowOk(RowAfter(w, cell, a)) && SendOk(RowAfter(w, cell, a), HistoryAfter(w, cell, a))
  {
    RowStaysOk(w, cell, a);
    if Stirring(a) {
      StirringKeepsSends(w, cell, a);
    } else {
      OthersAreCalm(w, cell, a);
      CalmKeepsSends(cell.e, cell.h, RowAfter(w, cell, a), HistoryAfter(w, cell, a));
    }
  }

  lemma StirringKeepsSends(w: Driver.World, cell: Cell, a: Action)
    requires RowOk(cell.e) && SendOk(cell.e, cell.h) && Stirring(a)
    ensures SendOk(RowAfter(w, cell, a), HistoryAfter(w, cell, a))
  {
  }

  lemma ActionKeepsFindings(w: Driver.World, cell: Cell, a: Action)
    requires RowOk(cell.e) && FindingsOk(cell.e)
    ensures FindingsOk(RowAfter(w, cell, a)) && Remembered(cell.e, RowAfter(w, cell, a))
  {
    if BeforeAnswer(a) {
      EarlyKeepsFindings(w, cell, a);
    } else if InRecovery(a) {
      RecoveryKeepsFindings(w, cell, a);
    } else {
      ClosingKeepsFindings(w, cell, a);
    }
  }

  // A provider handle or receipt is never forgotten.
  predicate Remembered(e: Effect, e': Effect) {
    && (e.findings.handle.Some? ==> e'.findings.handle.Some?)
    && (e.findings.receipt.Some? ==> e'.findings.receipt.Some?)
  }

  lemma EarlyKeepsFindings(w: Driver.World, cell: Cell, a: Action)
    requires FindingsOk(cell.e) && BeforeAnswer(a)
    ensures FindingsOk(RowAfter(w, cell, a)) && Remembered(cell.e, RowAfter(w, cell, a))
  {
  }

  lemma ClosingKeepsFindings(w: Driver.World, cell: Cell, a: Action)
    requires RowOk(cell.e) && FindingsOk(cell.e) && !BeforeAnswer(a) && !InRecovery(a)
    ensures FindingsOk(RowAfter(w, cell, a)) && Remembered(cell.e, RowAfter(w, cell, a))
  {
  }

  lemma RecoveryKeepsFindings(w: Driver.World, cell: Cell, a: Action)
    requires RowOk(cell.e) && FindingsOk(cell.e) && InRecovery(a)
    ensures FindingsOk(RowAfter(w, cell, a)) && Remembered(cell.e, RowAfter(w, cell, a))
  {
    if a.RecoveryWrite? {
      if a.attempt in cell.h.frames && cell.h.frames[a.attempt].Writing? {
        FinishKeepsFindings(cell.e, cell.h.frames[a.attempt].c, cell.h.frames[a.attempt].conclusion, w.now);
      }
    }
  }

  lemma FinishKeepsFindings(e: Effect, c: EffectClaim, conclusion: Conclusion, now: Time)
    requires RowOk(e) && FindingsOk(e)
    ensures FindingsOk(Finish(e, c, conclusion, now).e) && Remembered(e, Finish(e, c, conclusion, now).e)
  {
  }

  lemma ActionKeepsRecovery(w: Driver.World, cell: Cell, a: Action)
    requires RowOk(cell.e) && OriginOk(w, cell.e) && RecoveryOk(w, cell.e, cell.h)
    ensures OriginOk(w, RowAfter(w, cell, a))
    ensures RecoveryOk(w, RowAfter(w, cell, a), HistoryAfter(w, cell, a))
  {
    if a.RecoveryClaim? {
      ClaimKeepsRecovery(w, cell, a);
    } else if Stirring(a) {
      StirringKeepsRecovery(w, cell, a);
    } else {
      OthersAreCalm(w, cell, a);
      CalmKeepsRecovery(w, cell.e, cell.h, RowAfter(w, cell, a), HistoryAfter(w, cell, a));
    }
  }

  // A dead run can claim nothing for dispatch.
  lemma StirringKeepsRecovery(w: Driver.World, cell: Cell, a: Action)
    requires OriginOk(w, cell.e) && RecoveryOk(w, cell.e, cell.h) && Stirring(a) && !a.RecoveryClaim?
    ensures OriginOk(w, RowAfter(w, cell, a))
    ensures RecoveryOk(w, RowAfter(w, cell, a), HistoryAfter(w, cell, a))
  {
  }

  // Recovery is refused while the origin run is live, so a granted claim finds it dead.
  lemma ClaimKeepsRecovery(w: Driver.World, cell: Cell, a: Action)
    requires OriginOk(w, cell.e) && RecoveryOk(w, cell.e, cell.h) && a.RecoveryClaim?
    ensures OriginOk(w, RowAfter(w, cell, a))
    ensures RecoveryOk(w, RowAfter(w, cell, a), HistoryAfter(w, cell, a))
  {
  }

  // What the recovery bookkeeping needs of the row: the count never drops and a terminal row stays terminal.
  lemma ActionRowFacts(w: Driver.World, cell: Cell, a: Action)
    requires RowOk(cell.e)
    ensures cell.e.reconciles <= RowAfter(w, cell, a).reconciles
    ensures Terminal(cell.e.state) ==> Terminal(RowAfter(w, cell, a).state)
    ensures a.RecoveryWrite? && a.attempt in cell.h.frames && cell.h.frames[a.attempt].Writing? &&
            cell.h.frames[a.attempt].conclusion.SettleWith? &&
            a.attempt in HistoryAfter(w, cell, a).completed && a.attempt !in cell.h.completed ==>
              Terminal(RowAfter(w, cell, a).state)
  {
  }

  predicate SameExcept(m: map<nat, Frame>, m': map<nat, Frame>, k: nat) {
    (forall j :: j in m && j != k ==> j in m' && m'[j] == m[j]) && (forall j :: j in m' && j != k ==> j in m)
  }

  // Setting, replacing or dropping one frame.
  lemma FramesKept(e: Effect, h: History, e': Effect, h': History, k: nat)
    requires PassesOk(e, h) && e.reconciles <= e'.reconciles && (Terminal(e.state) ==> Terminal(e'.state))
    requires (h'.queried, h'.queries, h'.completed) == (h.queried, h.queries, h.completed)
    requires SameExcept(h.frames, h'.frames, k)
    requires k in h'.frames && (k !in h.frames || h'.frames[k] != h.frames[k]) ==> FrameOk(e', h', k)
    ensures PassesOk(e', h')
  {
    forall j | j in h'.frames ensures FrameOk(e', h', j) {
      if j in h.frames && h'.frames[j] == h.frames[j] {
        assert FrameOk(e, h, j);
      }
    }
  }

  lemma QueryKept(e: Effect, h: History, h': History, k: nat, conclusion: Conclusion)
    requires PassesOk(e, h) && k in h.frames && h.frames[k].Asking?
    requires h' == h.(frames := h.frames[k := Writing(h.frames[k].c, conclusion)], queried := h.queried + {k},
                      queries := h.queries + 1)
    ensures PassesOk(e, h')
  {
    assert FrameOk(e, h, k);
    forall j | j in h'.frames ensures FrameOk(e, h', j) {
      if j != k {
        assert FrameOk(e, h, j);
      }
    }
  }

  lemma CompletionKept(e: Effect, h: History, e': Effect, h': History, k: nat)
    requires PassesOk(e, h) && k in h.frames && h.frames[k].Writing?
    requires e.reconciles <= e'.reconciles && (Terminal(e.state) ==> Terminal(e'.state))
    requires h' == h.(frames := h.frames - {k}, completed := h.completed + {k})
    requires h.frames[k].conclusion.SettleWith? ==> Terminal(e'.state)
    ensures PassesOk(e', h')
  {
    assert FrameOk(e, h, k);
    forall j | j in h'.frames ensures FrameOk(e', h', j) {
      assert FrameOk(e, h, j);
    }
  }

  predicate InRecovery(a: Action) {
    a.RecoveryClaim? || a.RecoveryRead? || a.RecoveryQuery? || a.RecoveryWrite? || a.RecoveryCrash?
  }

  lemma OtherActionsKeepPasses(w: Driver.World, cell: Cell, a: Action)
    requires RowOk(cell.e) && PassesOk(cell.e, cell.h) && !InRecovery(a)
    ensures PassesOk(RowAfter(w, cell, a), HistoryAfter(w, cell, a))
  {
    var e, h, e', h' := cell.e, cell.h, RowAfter(w, cell, a), HistoryAfter(w, cell, a);
    ActionRowFacts(w, cell, a);
    assert (h'.frames, h'.queried, h'.queries, h'.completed) == (h.frames, h.queried, h.queries, h.completed);
    forall k | k in h'.frames ensures FrameOk(e', h', k) {
      assert FrameOk(e, h, k);
    }
  }

  lemma RecoveryKeepsPasses(w: Driver.World, cell: Cell, a: Action, e': Effect)
    requires PassesOk(cell.e, cell.h) && InRecovery(a) && !a.RecoveryWrite?
    requires cell.e.reconciles <= e'.reconciles && (Terminal(cell.e.state) ==> Terminal(e'.state))
    requires a.RecoveryClaim? && HistoryAfter(w, cell, a) != cell.h ==> e'.reconciles == cell.e.reconciles + 1
    ensures PassesOk(e', HistoryAfter(w, cell, a))
  {
    var e, h, h' := cell.e, cell.h, HistoryAfter(w, cell, a);
    match a
    case RecoveryClaim(_, _) => FramesKept(e, h, e', h', e.reconciles + 1);
    case RecoveryRead(k, registered, withoutHandle) => ReadKeepsPasses(w, cell, k, registered, withoutHandle, e');
    case RecoveryQuery(k, reply) => QueryKeepsPasses(w, cell, k, reply, e');
    case RecoveryCrash(k) => FramesKept(e, h, e', h', k);
  }

  lemma ReadKeepsPasses(w: Driver.World, cell: Cell, k: nat, registered: bool, withoutHandle: bool, e': Effect)
    requires PassesOk(cell.e, cell.h)
    requires cell.e.reconciles <= e'.reconciles && (Terminal(cell.e.state) ==> Terminal(e'.state))
    ensures PassesOk(e', HistoryAfter(w, cell, RecoveryRead(k, registered, withoutHandle)))
  {
    var h, h' := cell.h, HistoryAfter(w, cell, RecoveryRead(k, registered, withoutHandle));
    if k in h.frames && h.frames[k].Claimed? {
      assert FrameOk(cell.e, h, k);
      PlanBounds(cell.e, registered, withoutHandle);
      FramesKept(cell.e, h, e', h', k);
    } else {
      FramesKept(cell.e, h, e', h, 0);
    }
  }

  // A pass past the budget never queries: its plan is to settle.
  lemma PlanBounds(e: Effect, registered: bool, withoutHandle: bool)
    ensures PlanRecovery(e, registered, withoutHandle).Query? ==> e.reconciles <= MAX_RECONCILE_ATTEMPTS
    ensures PlanRecovery(e, registered, withoutHandle).Write? && e.reconciles > MAX_RECONCILE_ATTEMPTS ==>
              PlanRecovery(e, registered, withoutHandle).conclusion.SettleWith?
  {
  }

  lemma QueryKeepsPasses(w: Driver.World, cell: Cell, k: nat, reply: Answer, e': Effect)
    requires PassesOk(cell.e, cell.h)
    requires cell.e.reconciles <= e'.reconciles && (Terminal(cell.e.state) ==> Terminal(e'.state))
    ensures PassesOk(e', HistoryAfter(w, cell, RecoveryQuery(k, reply)))
  {
    var h, h' := cell.h, HistoryAfter(w, cell, RecoveryQuery(k, reply));
    FramesKept(cell.e, h, e', h, 0);
    if h' != h {
      QueryKept(e', h, h', k, Conclude(h.frames[k].count, reply));
    }
  }

  lemma RecoveryWriteKeepsPasses(w: Driver.World, cell: Cell, k: nat)
    requires RowOk(cell.e) && PassesOk(cell.e, cell.h) && k in cell.h.frames && cell.h.frames[k].Writing?
    ensures PassesOk(RowAfter(w, cell, RecoveryWrite(k)), HistoryAfter(w, cell, RecoveryWrite(k)))
  {
    var e, h, a := cell.e, cell.h, RecoveryWrite(k);
    ActionRowFacts(w, cell, a);
    if HistoryAfter(w, cell, a).completed != h.completed {
      CompletionKept(e, h, RowAfter(w, cell, a), HistoryAfter(w, cell, a), k);
    } else {
      FramesKept(e, h, RowAfter(w, cell, a), HistoryAfter(w, cell, a), k);
    }
  }

  lemma ActionKeepsPasses(w: Driver.World, cell: Cell, a: Action)
    requires RowOk(cell.e) && PassesOk(cell.e, cell.h)
    ensures PassesOk(RowAfter(w, cell, a), HistoryAfter(w, cell, a))
  {
    if a.RecoveryWrite? {
      if a.attempt in cell.h.frames && cell.h.frames[a.attempt].Writing? {
        RecoveryWriteKeepsPasses(w, cell, a.attempt);
      }
    } else if InRecovery(a) {
      ActionRowFacts(w, cell, a);
      RecoveryKeepsPasses(w, cell, a, RowAfter(w, cell, a));
    } else {
      OtherActionsKeepPasses(w, cell, a);
    }
  }

  lemma ActionKeepsCell(w: Driver.World, key: EffectKey, cell: Cell, a: Action)
    requires CellOk(w, key, cell)
    ensures CellOk(w, key, CellStep(w, cell, a))
  {
    ActionKeepsLog(w, cell, a);
    ActionKeepsSends(w, cell, a);
    ActionKeepsRecovery(w, cell, a);
    ActionKeepsPasses(w, cell, a);
    ActionKeepsFindings(w, cell, a);
    ActionKeepsKey(w, cell, a);
  }

  lemma ActionKeepsKey(w: Driver.World, cell: Cell, a: Action)
    ensures RowAfter(w, cell, a).key == cell.e.key
  {
  }

  lemma DriveKeepsCell(w: Driver.World, op: DriverRuns.Op, key: EffectKey, cell: Cell)
    requires CellOk(w, key, cell)
    ensures CellOk(DriverRuns.Step(w, op), key, cell)
  {
    DriverRuns.StepFencing(w, op, key.session);
    DriverRuns.SessionsLast(w, op, key.session);
  }

  lemma ReprepareKeepsCell(w: Driver.World, cell: Cell, request: Request, run: RunId, generation: nat, open: bool)
    requires CellOk(w, cell.e.key, cell)
    requires Driver.Fence(w, cell.e.key.session, cell.e.key.tenant, run, generation) && ScopeOpen(w, cell.e.key)
    ensures CellOk(w, cell.e.key, cell.(e := Reprepare(cell.e, request, run, generation, open).e))
  {
    LogOneMore(cell.e, Reprepare(cell.e, request, run, generation, open).e);
  }

  lemma NewCellOk(w: Driver.World, key: EffectKey, request: Request, run: RunId, generation: nat)
    requires key.tenant != "" && key.session != ""
    requires Driver.Fence(w, key.session, key.tenant, run, generation)
    ensures CellOk(w, key, Cell(NewEffect(key, request, run, generation, w.now), NO_HISTORY))
  {
  }

  lemma PrepareKeepsInv(s: System, op: Op)
    requires Inv(s) && op.Prepare?
    ensures Inv(PrepareStep(s, op))
  {
    forall key | key in PrepareStep(s, op).cells ensures CellOk(s.drivers, key, PrepareStep(s, op).cells[key]) {
      if key in s.cells {
        PrepareTouchesOne(s, op, key);
        if key == op.key && PrepareStep(s, op).cells[key] != s.cells[key] {
          ReprepareKeepsCell(s.drivers, s.cells[key], op.request, op.run, op.generation, op.resourceOpen);
        }
      } else {
        NewCellOk(s.drivers, op.key, op.request, op.run, op.generation);
      }
    }
  }

  // A prepare that changes an existing row found its run live and its session open.
  lemma PrepareTouchesOne(s: System, op: Op, key: EffectKey)
    requires op.Prepare? && key in s.cells
    ensures key in PrepareStep(s, op).cells
    ensures PrepareStep(s, op).cells[key] != s.cells[key] ==>
              && key == op.key && ScopeOpen(s.drivers, key)
              && Driver.Fence(s.drivers, key.session, key.tenant, op.run, op.generation)
              && PrepareStep(s, op).cells[key] ==
                 s.cells[key].(e := Reprepare(s.cells[key].e, op.request, op.run, op.generation, op.resourceOpen).e)
  {
  }

  lemma StepKeepsInv(s: System, op: Op)
    requires Inv(s)
    ensures Inv(Step(s, op))
  {
    match op
    case Drive(d) =>
      forall key | key in s.cells ensures CellOk(DriverRuns.Step(s.drivers, d), key, s.cells[key]) {
        DriveKeepsCell(s.drivers, d, key, s.cells[key]);
      }
    case Prepare(_, _, _, _, _, _) => PrepareKeepsInv(s, op);
    case OnRow(key, action) =>
      if key in s.cells {
        ActionKeepsCell(s.drivers, key, s.cells[key], action);
      }
  }

  lemma {:induction false} RunKeepsInv(s: System, ops: seq<Op>)
    requires Inv(s)
    ensures Inv(Run(s, ops))
    decreases |ops|
  {
    if ops == [] {
    } else {
      StepKeepsInv(s, ops[0]);
      RunKeepsInv(Step(s, ops[0]), ops[1..]);
    }
  }
}
