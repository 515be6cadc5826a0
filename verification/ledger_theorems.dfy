// The promises of the effect ledger over whole runs.
module LedgerTheorems {
  import opened Common
  import Driver
  import DriverRuns
  import opened EffectLedger
  import opened LedgerRuns

  lemma Reachable(limit: int, now: Time, ops: seq<Op>)
    ensures Inv(Run(Init(limit, now), ops))
  {
    RunKeepsInv(Init(limit, now), ops);
  }

  // In every interleaving an effect is submitted at most once, and every send that passed the last
  // durable guard belongs to the claim generation that crossed the send boundary.
  lemma PaidCallSentByOneClaim(limit: int, now: Time, ops: seq<Op>, key: EffectKey)
    requires key in Run(Init(limit, now), ops).cells
    ensures var cell := Run(Init(limit, now), ops).cells[key];
            && cell.e.attempts <= 1
            && (cell.h.sends != [] ==> cell.h.submittedBy.Some? && cell.e.attempts == 1)
            && (forall i :: 0 <= i < |cell.h.sends| ==> Some(cell.h.sends[i]) == cell.h.submittedBy)
  {
    Reachable(limit, now, ops);
    var cell := Run(Init(limit, now), ops).cells[key];
    assert cell.h.sends != [] ==> Some(cell.h.sends[0]) == cell.h.submittedBy;
  }

  // ---- no send after recovery

  // What a caller can see before the call: an abandon with a recovery claim, while the session is open.
  predicate HandsBackOpen(s: System, op: Op) {
    op.OnRow? && op.action.AbandonBy? && op.action.c.kind == Reconcile && ScopeOpen(s.drivers, op.key)
  }

  predicate NeverHandsBackOpen(s: System, ops: seq<Op>)
    decreases |ops|
  {
    ops == [] || (!HandsBackOpen(s, ops[0]) && NeverHandsBackOpen(Step(s, ops[0]), ops[1..]))
  }

  ghost predicate NoneReopened(s: System) {
    forall key :: key in s.cells ==> !s.cells[key].h.reopened
  }

  lemma StepReopensNothing(s: System, op: Op)
    requires Inv(s) && NoneReopened(s) && !HandsBackOpen(s, op)
    ensures NoneReopened(Step(s, op))
  {
    forall key | key in Step(s, op).cells ensures !Step(s, op).cells[key].h.reopened {
      if op.OnRow? && key == op.key && key in s.cells {
        assert CellOk(s.drivers, key, s.cells[key]);
        OnlyHandingBackReopens(s.drivers, s.cells[key], op.action);
      }
    }
  }

  lemma OnlyHandingBackReopens(w: Driver.World, cell: Cell, a: Action)
    requires !(a.AbandonBy? && a.c.kind == Reconcile && ScopeOpen(w, cell.e.key))
    ensures HistoryAfter(w, cell, a).reopened == cell.h.reopened
  {
  }

  lemma {:induction false} RunReopensNothing(s: System, ops: seq<Op>)
    requires Inv(s) && NoneReopened(s) && NeverHandsBackOpen(s, ops)
    ensures NoneReopened(Run(s, ops))
    decreases |ops|
  {
    if ops == [] {
    } else {
      StepKeepsInv(s, ops[0]);
      StepReopensNothing(s, ops[0]);
      RunReopensNothing(Step(s, ops[0]), ops[1..]);
    }
  }

  // Nothing is ever sent for an effect once recovery has claimed it, over every run in which no recovery
  // claim is handed back while its session is open.
  lemma NothingSentAfterRecovery(limit: int, now: Time, ops: seq<Op>, key: EffectKey)
    requires NeverHandsBackOpen(Init(limit, now), ops) && key in Run(Init(limit, now), ops).cells
    ensures !Run(Init(limit, now), ops).cells[key].h.lateSend
  {
    Reachable(limit, now, ops);
    RunReopensNothing(Init(limit, now), ops);
  }

  // ---- handing a recovery claim back in an open session always makes a late send reachable

  // Driver rows are well shaped and belong to their sessions' owners.
  ghost predicate DriversOk(w: Driver.World) {
    DriverRuns.Shaped(w) && DriverRuns.RowsOwned(w)
  }

  lemma {:induction false} RunKeepsDrivers(s: System, ops: seq<Op>)
    requires DriversOk(s.drivers)
    ensures DriversOk(Run(s, ops).drivers)
    decreases |ops|
  {
    if ops == [] {
    } else {
      if ops[0].Drive? {
        DriverRuns.StepKeepsShape(s.drivers, ops[0].op);
        DriverRuns.StepKeepsOwned(s.drivers, ops[0].op);
      }
      RunKeepsDrivers(Step(s, ops[0]), ops[1..]);
    }
  }

  lemma {:induction false} RunConcat(s: System, a: seq<Op>, b: seq<Op>)
    ensures Run(s, a + b) == Run(Run(s, a), b)
    decreases |a|
  {
    if a == [] {
      assert a + b == b;
    } else {
      assert (a + b)[1..] == a[1..] + b;
      RunConcat(Step(s, a[0]), a[1..], b);
    }
  }

  lemma RunSnoc(s: System, ops: seq<Op>, op: Op)
    ensures Run(s, ops + [op]) == Step(Run(s, ops), op)
  {
    RunConcat(s, ops, [op]);
    assert [op][1..] == [];
  }

  // Ordinary continuations: sessions are left alone and no recovery claim is abandoned.
  predicate Ordinary(op: Op) {
    && (op.Drive? ==> !op.op.OpCreate? && !op.op.OpDelete?)
    && (op.OnRow? && op.action.AbandonBy? ==> op.action.c.kind == Dispatch)
  }

  predicate AllOrdinary(ops: seq<Op>) {
    forall i :: 0 <= i < |ops| ==> Ordinary(ops[i])
  }

  const LAPSE := Drive(DriverRuns.OpTick(Driver.LEASE_SECONDS))

  lemma Lapse(s: System, user: string)
    requires DriverRuns.Shaped(s.drivers)
    ensures Step(s, LAPSE).cells == s.cells
    ensures var w, w' := s.drivers, Step(s, LAPSE).drivers;
            w' == w.(now := w.now + Driver.LEASE_SECONDS) && Driver.LiveSessions(w', user) == {}
  {
  }

  // An open session's row can be brought to rest: let its lease lapse, take its marker over, release it.
  lemma Quiesce(s: System, session: string) returns (ops: seq<Op>)
    requires DriversOk(s.drivers) && session in s.drivers.rows
    requires Driver.OpenSession(s.drivers, session, s.drivers.rows[session].user)
    ensures AllOrdinary(ops) && Run(s, ops).cells == s.cells && DriversOk(Run(s, ops).drivers)
    ensures var w' := Run(s, ops).drivers;
            && session in w'.rows && w'.rows[session].phase == Driver.Idle && w'.sessions == s.drivers.sessions
            && w'.rows[session].generation >= s.drivers.rows[session].generation
  {
    var row := s.drivers.rows[session];
    if row.phase == Driver.Idle {
      return [];
    }
    Lapse(s, row.user);
    assert s.drivers.rows.Keys != {};
    ops := [LAPSE, TakeMarker(session, row), FreeMarker(session, row)];
    TakeAndFree(Step(s, LAPSE), session, row);
    RunOfThree(s, LAPSE, TakeMarker(session, row), FreeMarker(session, row));
    RunKeepsDrivers(s, ops);
  }

  function TakeMarker(session: string, row: Driver.DriverRow): Op {
    Drive(DriverRuns.OpTakeover(Driver.RecordOf(session, row), "run", "worker", Driver.Reserved, true))
  }

  function FreeMarker(session: string, row: Driver.DriverRow): Op {
    Drive(DriverRuns.OpRelease(Driver.RunLease(session, row.user, "run", row.generation + 1, "worker")))
  }

  lemma TakeAndFree(s: System, session: string, row: Driver.DriverRow)
    requires session in s.drivers.rows && s.drivers.rows[session] == row && Driver.Expired(row, s.drivers.now)
    requires Driver.OpenSession(s.drivers, session, row.user)
    requires |Driver.LiveSessions(s.drivers, row.user)| < s.drivers.limit
    ensures var free := Step(Step(s, TakeMarker(session, row)), FreeMarker(session, row));
            && free.cells == s.cells
            && session in free.drivers.rows && free.drivers.rows[session].phase == Driver.Idle
            && free.drivers.sessions == s.drivers.sessions
            && free.drivers.rows[session].generation == row.generation + 1
  {
    var taken := Step(s, TakeMarker(session, row)).drivers;
    assert Driver.Holds(taken, Driver.RunLease(session, row.user, "run", row.generation + 1, "worker"));
  }

  lemma RunOfThree(s: System, a: Op, b: Op, c: Op)
    ensures Run(s, [a, b, c]) == Step(Step(Step(s, a), b), c)
  {
    RunSnoc(s, [a, b], c);
    RunSnoc(s, [a], b);
    RunSnoc(s, [], a);
    assert [a, b, c] == [a, b] + [c] && [a, b] == [a] + [b] && [a] == [] + [a];
  }

  // ... and then be brought under a fresh live generation of its owner.
  lemma FreshGeneration(s: System, session: string, user: string) returns (ops: seq<Op>, generation: nat)
    requires DriversOk(s.drivers) && session in s.drivers.rows && Driver.OpenSession(s.drivers, session, user)
    ensures AllOrdinary(ops) && Run(s, ops).cells == s.cells
    ensures generation > s.drivers.rows[session].generation
    ensures Driver.Fence(Run(s, ops).drivers, session, user, "run", generation)
    ensures Driver.OpenSession(Run(s, ops).drivers, session, user)
  {
    var rest := Quiesce(s, session);
    var s1 := Run(s, rest);
    Lapse(s1, user);
    assert s1.drivers.rows.Keys != {};
    generation := s1.drivers.rows[session].generation + 1;
    var reserve :=
      Drive(DriverRuns.OpReserve(session, user, None, "run", "worker", None, Driver.Reserved, true, false));
    RunSnoc(s, rest, LAPSE);
    RunSnoc(s, rest + [LAPSE], reserve);
    ops := rest + [LAPSE] + [reserve];
  }

  // A prepared, unclaimed, never-sent row can be sent by any newer live generation of its open session.
  lemma SendSequence(s: System, key: EffectKey, generation: nat) returns (ops: seq<Op>)
    requires key in s.cells && CellOk(s.drivers, key, s.cells[key])
    requires s.cells[key].e.state == Prepared && s.cells[key].e.claim.None? && s.cells[key].h.reconciled
    requires s.cells[key].e.runGeneration < generation
    requires Driver.Fence(s.drivers, key.session, key.tenant, "run", generation) && ScopeOpen(s.drivers, key)
    ensures AllOrdinary(ops)
    ensures key in Run(s, ops).cells && Run(s, ops).cells[key].h.lateSend
  {
    var e := s.cells[key].e;
    var c := EffectClaim(key, "run", generation, Dispatch, "token", e.claimGeneration + 1, "worker");
    var prepare := Prepare(key, e.request, "run", generation, true, true);
    var claim := OnRow(key, ClaimDispatch("run", generation, "token", "worker"));
    var submit, send := OnRow(key, Submit(c, true)), OnRow(key, Send(c, true));
    RunOfThree(s, prepare, claim, submit);
    ops := [prepare, claim, submit] + [send];
    RunSnoc(s, [prepare, claim, submit], send);
    var s2 := Step(Step(s, prepare), claim);
    assert s2.cells[key].e.claim == Some(HeldClaim(Dispatch, "token", "worker", s.drivers.now + EFFECT_LEASE_SECONDS));
  }

  lemma AbandonedRow(w: Driver.World, key: EffectKey, cell: Cell, c: EffectClaim)
    requires CellOk(w, key, cell) && Abandon(cell.e, c, w.now).out == Done && c.kind == Reconcile
    ensures var cell' := CellStep(w, cell, AbandonBy(c));
            && cell'.e.state == Prepared && cell'.e.claim.None? && cell'.e.key == key
            && OriginDead(w, cell'.e) && cell'.h.reconciled && !cell'.h.lateSend && cell'.h.sends == []
  {
    SomeElement(cell.h.sends);
  }

  lemma SendableAgain(s: System, key: EffectKey) returns (more: seq<Op>)
    requires Inv(s) && DriversOk(s.drivers) && key in s.cells && ScopeOpen(s.drivers, key)
    requires s.cells[key].e.state == Prepared && s.cells[key].e.claim.None? && s.cells[key].h.reconciled
    ensures AllOrdinary(more)
    ensures key in Run(s, more).cells && Run(s, more).cells[key].h.lateSend
  {
    assert OriginOk(s.drivers, s.cells[key].e) && s.cells[key].e.key == key;
    var first, generation := FreshGeneration(s, key.session, key.tenant);
    RunKeepsInv(s, first);
    var second := SendSequence(Run(s, first), key, generation);
    more := first + second;
    RunConcat(s, first, second);
  }

  lemma AllReachable(limit: int, now: Time, ops: seq<Op>)
    ensures Inv(Run(Init(limit, now), ops)) && DriversOk(Run(Init(limit, now), ops).drivers)
  {
    Reachable(limit, now, ops);
    RunKeepsDrivers(Init(limit, now), ops);
  }

  // An abandon of a recovery claim in an open session always leaves a row that a later run can send, with
  // no further such abandon and no change of any session.
  lemma ReconcileAbandonReopens(limit: int, now: Time, ops: seq<Op>, key: EffectKey, c: EffectClaim)
    returns (more: seq<Op>)
    requires key in Run(Init(limit, now), ops).cells
    requires var s := Run(Init(limit, now), ops);
             c.kind == Reconcile && Abandon(s.cells[key].e, c, s.drivers.now).out == Done && ScopeOpen(s.drivers, key)
    ensures AllOrdinary(more)
    ensures var end := Run(Step(Run(Init(limit, now), ops), OnRow(key, AbandonBy(c))), more);
            key in end.cells && end.cells[key].h.lateSend
  {
    var s := Run(Init(limit, now), ops);
    AllReachable(limit, now, ops);
    AbandonedRow(s.drivers, key, s.cells[key], c);
    StepKeepsInv(s, OnRow(key, AbandonBy(c)));
    more := SendableAgain(Step(s, OnRow(key, AbandonBy(c))), key);
  }

  // ---- ... and in a deleted session it never does

  // A row of a deleted session whose run is dead and which nobody holds for dispatch stays silent.
  predicate Silent(w: Driver.World, cell: Cell) {
    && Driver.OwnedSession(w, cell.e.key.session, cell.e.key.tenant) && !ScopeOpen(w, cell.e.key)
    && OriginDead(w, cell.e) && !HasClaim(cell.e, Dispatch) && !cell.h.lateSend
  }

  lemma ActionStaysSilent(w: Driver.World, cell: Cell, a: Action)
    requires RowOk(cell.e) && Silent(w, cell)
    ensures Silent(w, CellStep(w, cell, a))
  {
    if Stirring(a) {
      StirringStaysSilent(w, cell, a);
    } else {
      OthersAreCalm(w, cell, a);
    }
  }

  lemma StirringStaysSilent(w: Driver.World, cell: Cell, a: Action)
    requires Silent(w, cell) && Stirring(a)
    ensures Silent(w, CellStep(w, cell, a))
  {
  }

  lemma StepStaysSilent(s: System, op: Op, key: EffectKey)
    requires Inv(s) && key in s.cells && Silent(s.drivers, s.cells[key])
    ensures key in Step(s, op).cells && Silent(Step(s, op).drivers, Step(s, op).cells[key])
  {
    assert CellOk(s.drivers, key, s.cells[key]);
    match op
    case Drive(d) =>
      DriverRuns.StepFencing(s.drivers, d, key.session);
      DriverRuns.SessionsLast(s.drivers, d, key.session);
    case Prepare(_, _, _, _, _, _) => PrepareTouchesOne(s, op, key);
    case OnRow(k, action) =>
      if k == key {
        ActionStaysSilent(s.drivers, s.cells[key], action);
      }
  }

  lemma {:induction false} SilentForever(s: System, ops: seq<Op>, key: EffectKey)
    requires Inv(s) && key in s.cells && Silent(s.drivers, s.cells[key])
    ensures key in Run(s, ops).cells && Silent(Run(s, ops).drivers, Run(s, ops).cells[key])
    decreases |ops|
  {
    if ops == [] {
    } else {
      StepKeepsInv(s, ops[0]);
      StepStaysSilent(s, ops[0], key);
      SilentForever(Step(s, ops[0]), ops[1..], key);
    }
  }

  lemma ClosedSessionStaysSilent(limit: int, now: Time, ops: seq<Op>, key: EffectKey, c: EffectClaim, more: seq<Op>)
    requires key in Run(Init(limit, now), ops).cells
    requires var s := Run(Init(limit, now), ops);
             c.kind == Reconcile && Abandon(s.cells[key].e, c, s.drivers.now).out == Done && !ScopeOpen(s.drivers, key)
    ensures var end := Run(Step(Run(Init(limit, now), ops), OnRow(key, AbandonBy(c))), more);
            key in end.cells && !end.cells[key].h.lateSend
  {
    var s := Run(Init(limit, now), ops);
    Reachable(limit, now, ops);
    assert CellOk(s.drivers, key, s.cells[key]);
    AbandonedRow(s.drivers, key, s.cells[key], c);
    StepKeepsInv(s, OnRow(key, AbandonBy(c)));
    SilentForever(Step(s, OnRow(key, AbandonBy(c))), more, key);
  }

  predicate SendsLate(s: System, more: seq<Op>, key: EffectKey) {
    key in Run(s, more).cells && Run(s, more).cells[key].h.lateSend
  }

  // The exact condition: after handing a recovery claim back a late send is reachable if and only if the
  // session was still open at that moment.
  lemma HandingBackIsUnsafeExactlyWhenOpen(limit: int, now: Time, ops: seq<Op>, key: EffectKey, c: EffectClaim)
    requires key in Run(Init(limit, now), ops).cells
    requires var s := Run(Init(limit, now), ops);
             c.kind == Reconcile && Abandon(s.cells[key].e, c, s.drivers.now).out == Done
    ensures var s := Run(Init(limit, now), ops);
            ScopeOpen(s.drivers, key) <==> exists more :: SendsLate(Step(s, OnRow(key, AbandonBy(c))), more, key)
  {
    var s := Run(Init(limit, now), ops);
    var handed := Step(s, OnRow(key, AbandonBy(c)));
    if ScopeOpen(s.drivers, key) {
      var more := ReconcileAbandonReopens(limit, now, ops, key, c);
      assert SendsLate(handed, more, key);
    } else {
      forall more ensures !SendsLate(handed, more, key) {
        ClosedSessionStaysSilent(limit, now, ops, key, c, more);
      }
    }
  }

  const EXAMPLE := EffectKey("user", "session", "image_gen", "generate", "1")
  const EXAMPLE_REQUEST := Request("provider", "key", "digest", None)

  lemma FirstRun() returns (ops: seq<Op>)
    ensures Run(Init(1, 0), ops).cells == map[] && Run(Init(1, 0), ops).drivers.now == 0
    ensures Driver.Fence(Run(Init(1, 0), ops).drivers, "session", "user", "run", 1)
    ensures Driver.OpenSession(Run(Init(1, 0), ops).drivers, "session", "user")
    ensures !Driver.Live(Run(Init(1, 0), ops).drivers.rows["session"], PREPARED_RECOVERY_GRACE_SECONDS)
  {
    var create := Drive(DriverRuns.OpCreate("session", "user"));
    var reserve :=
      Drive(DriverRuns.OpReserve("session", "user", None, "run", "worker", None, Driver.Reserved, true, false));
    RunSnoc(Init(1, 0), [], create);
    ops := [] + [create];
    assert Driver.LiveSessions(Run(Init(1, 0), ops).drivers, "user") == {};
    RunSnoc(Init(1, 0), ops, reserve);
    ops := ops + [reserve];
  }

  // ... which prepares an effect and then falls silent.
  lemma SilentRun() returns (ops: seq<Op>)
    ensures var s := Run(Init(1, 0), ops);
            && EXAMPLE in s.cells && ScopeOpen(s.drivers, EXAMPLE)
            && s.drivers.now == PREPARED_RECOVERY_GRACE_SECONDS
            && s.cells[EXAMPLE] == Cell(NewEffect(EXAMPLE, EXAMPLE_REQUEST, "run", 1, 0), NO_HISTORY)
            && !OriginLive(s.drivers, s.cells[EXAMPLE].e)
  {
    var prepare := Prepare(EXAMPLE, EXAMPLE_REQUEST, "run", 1, true, true);
    var crash := Drive(DriverRuns.OpTick(PREPARED_RECOVERY_GRACE_SECONDS));
    ops := FirstRun();
    RunSnoc(Init(1, 0), ops, prepare);
    ops := ops + [prepare];
    RunSnoc(Init(1, 0), ops, crash);
    ops := ops + [crash];
  }

  // A run prepares an effect, crashes, and recovery claims the never-sent row.
  lemma CrashedRun() returns (ops: seq<Op>, c: EffectClaim)
    ensures var s := Run(Init(1, 0), ops);
            && EXAMPLE in s.cells && ScopeOpen(s.drivers, EXAMPLE) && s.cells[EXAMPLE].h.reconciled
            && c.kind == Reconcile && Abandon(s.cells[EXAMPLE].e, c, s.drivers.now).out == Done
  {
    var recover := OnRow(EXAMPLE, RecoveryClaim("token", "recovery"));
    var silent := SilentRun();
    var s := Run(Init(1, 0), silent);
    c := EffectClaim(EXAMPLE, "run", 1, Reconcile, "token", 1, "recovery");
    SilentRowIsClaimed(s.drivers, s.cells[EXAMPLE], c);
    RunSnoc(Init(1, 0), silent, recover);
    ops := silent + [recover];
  }

  lemma SilentRowIsClaimed(w: Driver.World, cell: Cell, c: EffectClaim)
    requires cell == Cell(NewEffect(EXAMPLE, EXAMPLE_REQUEST, "run", 1, 0), NO_HISTORY) && !OriginLive(w, cell.e)
    requires w.now == PREPARED_RECOVERY_GRACE_SECONDS
    requires c == EffectClaim(EXAMPLE, "run", 1, Reconcile, "token", 1, "recovery")
    ensures var claimed := CellStep(w, cell, RecoveryClaim("token", "recovery"));
            claimed.h.reconciled && Abandon(claimed.e, c, w.now).out == Done
  {
  }

  // Recovery then hands its claim back through abandon, and a later run sends: a late send from an
  // empty database.
  lemma LateSendExample() returns (ops: seq<Op>)
    ensures SendsLate(Init(1, 0), ops, EXAMPLE)
  {
    var first, c := CrashedRun();
    var more := ReconcileAbandonReopens(1, 0, first, EXAMPLE, c);
    JoinRuns(Init(1, 0), first, OnRow(EXAMPLE, AbandonBy(c)), more);
    ops := first + [OnRow(EXAMPLE, AbandonBy(c))] + more;
  }

  lemma JoinRuns(s: System, first: seq<Op>, op: Op, more: seq<Op>)
    ensures Run(s, first + [op] + more) == Run(Step(Run(s, first), op), more)
  {
    RunSnoc(s, first, op);
    RunConcat(s, first + [op], more);
  }

  // ---- terminal rows

  predicate Final(before: Effect, after: Effect) {
    after == before || (before.state == ManualReview && after.state == Failed)
  }

  lemma ActionIsFinal(w: Driver.World, cell: Cell, a: Action)
    requires RowOk(cell.e)
    ensures Terminal(cell.e.state) ==> Final(cell.e, RowAfter(w, cell, a))
    ensures Terminal(cell.e.state) && RowAfter(w, cell, a) != cell.e ==> a == AcknowledgeByOwner
    ensures RowAfter(w, cell, a).state == Prepared ==> cell.e.state == Prepared
    ensures cell.e.evidence <= RowAfter(w, cell, a).evidence
  {
  }

  lemma PrepareTouches(s: System, op: Op, key: EffectKey)
    requires op.Prepare? && key in s.cells
    ensures key in PrepareStep(s, op).cells
    ensures var e, e' := s.cells[key].e, PrepareStep(s, op).cells[key].e;
            e' == e || (e.state == Prepared == e'.state && e'.findings == e.findings && e.evidence <= e'.evidence)
  {
  }

  // No operation, however stale or mis-kinded its claim, moves a terminal row, except the owner's
  // acknowledgement of a parked one; in particular a deferral never reopens it.
  lemma TerminalStep(s: System, op: Op, key: EffectKey)
    requires Inv(s) && key in s.cells
    ensures key in Step(s, op).cells
    ensures Terminal(s.cells[key].e.state) ==> Final(s.cells[key].e, Step(s, op).cells[key].e)
    ensures Terminal(s.cells[key].e.state) && Step(s, op).cells[key].e != s.cells[key].e ==>
              op == OnRow(key, AcknowledgeByOwner)
    ensures Step(s, op).cells[key].e.state == Prepared ==> s.cells[key].e.state == Prepared
  {
    assert CellOk(s.drivers, key, s.cells[key]);
    match op
    case Drive(_) =>
    case Prepare(_, _, _, _, _, _) => PrepareTouches(s, op, key);
    case OnRow(k, action) =>
      if k == key {
        ActionIsFinal(s.drivers, s.cells[key], action);
      }
  }

  predicate StillKnown(before: Effect, after: Effect) {
    && (before.findings.handle.Some? ==> after.findings.handle.Some?)
    && (before.findings.receipt.Some? ==> after.findings.receipt.Some?)
    && before.evidence <= after.evidence
  }

  lemma KnownStep(s: System, op: Op, key: EffectKey)
    requires Inv(s) && key in s.cells
    ensures key in Step(s, op).cells && StillKnown(s.cells[key].e, Step(s, op).cells[key].e)
  {
    assert CellOk(s.drivers, key, s.cells[key]);
    match op
    case Drive(_) =>
    case Prepare(_, _, _, _, _, _) => PrepareTouches(s, op, key);
    case OnRow(k, action) =>
      if k == key {
        ActionKeepsFindings(s.drivers, s.cells[key], action);
        ActionIsFinal(s.drivers, s.cells[key], action);
      }
  }

  // Over any continuation: succeeded and failed rows never change at all, a parked row can only become
  // failed, nothing returns to prepared, a provider handle or receipt is never forgotten, and the
  // evidence log only grows.
  lemma {:induction false} TerminalForever(s: System, ops: seq<Op>, key: EffectKey)
    requires Inv(s) && key in s.cells
    ensures key in Run(s, ops).cells
    ensures Terminal(s.cells[key].e.state) ==> Final(s.cells[key].e, Run(s, ops).cells[key].e)
    ensures Run(s, ops).cells[key].e.state == Prepared ==> s.cells[key].e.state == Prepared
    ensures StillKnown(s.cells[key].e, Run(s, ops).cells[key].e)
    decreases |ops|
  {
    if ops == [] {
    } else {
      TerminalStep(s, ops[0], key);
      KnownStep(s, ops[0], key);
      StepKeepsInv(s, ops[0]);
      TerminalForever(Step(s, ops[0]), ops[1..], key);
    }
  }

  // A terminal effect holds no claim.
  lemma TerminalHoldsNoClaim(limit: int, now: Time, ops: seq<Op>, key: EffectKey, c: EffectClaim)
    requires key in Run(Init(limit, now), ops).cells
    requires Terminal(Run(Init(limit, now), ops).cells[key].e.state)
    ensures !Matches(Run(Init(limit, now), ops).cells[key].e, c)
  {
    Reachable(limit, now, ops);
  }

  // ---- recovery is bounded

  // Whatever crashes, expires or interleaves, the provider of one effect is queried at most
  // MAX_RECONCILE_ATTEMPTS times, and once one more pass than that has completed its write the
  // effect is terminal.
  lemma RecoveryIsBounded(limit: int, now: Time, ops: seq<Op>, key: EffectKey)
    requires key in Run(Init(limit, now), ops).cells
    ensures Run(Init(limit, now), ops).cells[key].h.queries <= MAX_RECONCILE_ATTEMPTS
    ensures |Run(Init(limit, now), ops).cells[key].h.completed| > MAX_RECONCILE_ATTEMPTS ==>
              Terminal(Run(Init(limit, now), ops).cells[key].e.state)
  {
    Reachable(limit, now, ops);
    var cell := Run(Init(limit, now), ops).cells[key];
    var allowed := Range(1, MAX_RECONCILE_ATTEMPTS + 1);
    SubsetCardinality(cell.h.queried, allowed);
    if cell.h.completed <= allowed {
      SubsetCardinality(cell.h.completed, allowed);
    }
  }

  // ---- the audit trail

  // Over every run the log of an effect is numbered 1, 2, 3, ... and its claim generations never go back.
  lemma LogIsSequenced(limit: int, now: Time, ops: seq<Op>, key: EffectKey)
    requires key in Run(Init(limit, now), ops).cells
    ensures var log := Run(Init(limit, now), ops).cells[key].e.evidence;
            && (forall i :: 0 <= i < |log| ==> log[i].sequence == i + 1)
            && (forall i, j :: 0 <= i < j < |log| ==> log[i].claimGeneration <= log[j].claimGeneration)
  {
    Reachable(limit, now, ops);
  }
}
