// Handing claims over while other workers keep working: the maintenance pass over a vanished generation,
// the one turn of a generation, and what an ill-matched rebinding does.
module InboxHandover {
  import opened Common
  import opened Inbox
  import opened InboxRuns
  import opened InboxGenerations
  import Driver
  import DriverRuns

  // ---- the fence of a lease over a run of inbox and driver transactions

  lemma StoreFencing(s: Store, op: Op, session: string)
    ensures var w, w' := s.drivers, Step(s, op).drivers;
            && DriverRuns.GenerationOf(w, session) <= DriverRuns.GenerationOf(w', session)
            && (session in w.rows ==> session in w'.rows)
            && (session in w.rows && w'.rows[session].generation == w.rows[session].generation &&
                Driver.Live(w'.rows[session], w'.now) ==>
                  && Driver.Live(w.rows[session], w.now)
                  && w'.rows[session].run == w.rows[session].run && w'.rows[session].user == w.rows[session].user)
  {
    if op.Drive? {
      DriverRuns.StepFencing(s.drivers, op.op, session);
    }
  }

  lemma {:induction false} DeadStaysDead(s: Store, ops: seq<Op>, session: string, generation: nat)
    requires DriverRuns.Dead(s.drivers, session, generation)
    ensures DriverRuns.Dead(Run(s, ops).drivers, session, generation)
    decreases |ops|
  {
    if ops == [] {
    } else {
      StoreFencing(s, ops[0], session);
      DeadStaysDead(Step(s, ops[0]), ops[1..], session, generation);
    }
  }

  // A lease that passes the fence now and at the end of a run passed it all along.
  lemma FencedBetween(s: Store, op: Op, rest: seq<Op>, l: Driver.RunLease)
    requires Fenced(s, l) && Fenced(Run(Step(s, op), rest), l)
    ensures Fenced(Step(s, op), l)
  {
    StoreFencing(s, op, l.session);
    SessionKeepsOwner(s, [op], l.session, l.user);
    assert Run(s, [op]) == Step(s, op) by {
      assert [op][1..] == [];
    }
    if DriverRuns.Dead(Step(s, op).drivers, l.session, l.generation) {
      DeadStaysDead(Step(s, op), rest, l.session, l.generation);
    }
  }

  // ---- other workers leave the session's claims alone

  // The operation presents this very lease.
  predicate By(op: Op, l: Driver.RunLease) {
    (op.Claim? || op.SettleRun? || op.SettleUndelivered? || op.SettleNotRun? || op.DeliveryFailed? ||
     op.RebindClaims?) &&
    (op.l.session, op.l.run, op.l.generation) == (l.session, l.run, l.generation)
  }

  // What the workers who do not hold the lease may do.
  predicate Foreign(op: Op, l: Driver.RunLease) { Paired(op) && !By(op, l) }

  predicate AllForeign(ops: seq<Op>, l: Driver.RunLease) {
    forall k :: 0 <= k < |ops| ==> Foreign(ops[k], l)
  }

  predicate ClaimedIn(l: Driver.RunLease, i: Item) {
    i.state == Claimed && i.input.session == l.session && i.input.user == l.user
  }

  // Row i is the same claim in both, or a claim of the session in neither.
  predicate SameClaims(a: Store, b: Store, l: Driver.RunLease, i: nat) {
    && (i < |a.items| && ClaimedIn(l, a.items[i]) ==> i < |b.items| && b.items[i] == a.items[i])
    && (i < |b.items| && ClaimedIn(l, b.items[i]) ==> i < |a.items| && a.items[i] == b.items[i])
  }

  lemma Undisturbed(s: Store, op: Op, l: Driver.RunLease, i: nat)
    requires Inv(s) && Fenced(s, l) && Foreign(op, l)
    ensures SameClaims(s, Step(s, op), l, i)
  {
    StepKeepsInv(s, op);
    if i < |s.items| {
      assert Next(s.items[i], Step(s, op).items[i]);
      if Touched(s, op, i) && ClaimedIn(l, s.items[i]) {
        ClaimUntouched(s, op, l, i);
      } else if Touched(s, op, i) && s.items[i].state != Claimed {
        NothingClaimed(s, op, l, i);
      }
    }
  }

  lemma ClaimUntouched(s: Store, op: Op, l: Driver.RunLease, i: nat)
    requires Inv(s) && Fenced(s, l) && Foreign(op, l)
    requires i < |s.items| && ClaimedIn(l, s.items[i])
    ensures !Touched(s, op, i)
  {
    if Touched(s, op, i) {
      if op.RebindClaims? {
        RebindSelects(s, op.record, op.l, i);
      } else if op.SettleRun? || op.SettleUndelivered? || op.SettleNotRun? {
        SettlingAuthority(s, op, i);
      } else if op.SettleOrphans? {
        OrphanAuthority(s, op, i);
      } else if !op.DeliveryFailed? {
        OthersLeaveClaimed(s, op, i);
      }
    }
  }

  // Only a holder of the fence can turn a waiting row of the session into a claim.
  lemma NothingClaimed(s: Store, op: Op, l: Driver.RunLease, i: nat)
    requires Inv(s) && Fenced(s, l) && Foreign(op, l) && RowsNext(s, Step(s, op)) && Touched(s, op, i)
    requires s.items[i].state != Claimed
    ensures !ClaimedIn(l, Step(s, op).items[i])
  {
    assert Next(s.items[i], Step(s, op).items[i]) && RowOk(s.items[i], s.nextMessage);
    if op.Claim? {
      ClaimReaches(s, op, i);
    } else if op.RebindClaims? {
      RebindSelects(s, op.record, op.l, i);
    } else if !op.Drive? {
      SameOwner(s, op, i);
    }
  }

  lemma {:induction false} RunUndisturbed(s: Store, ops: seq<Op>, l: Driver.RunLease, i: nat)
    requires Inv(s) && Fenced(s, l) && Fenced(Run(s, ops), l) && AllForeign(ops, l)
    ensures Inv(Run(s, ops)) && SameClaims(s, Run(s, ops), l, i)
    decreases |ops|
  {
    if ops == [] {
    } else {
      assert Foreign(ops[0], l);
      StepKeepsInv(s, ops[0]);
      Undisturbed(s, ops[0], l, i);
      FencedBetween(s, ops[0], ops[1..], l);
      RunUndisturbed(Step(s, ops[0]), ops[1..], l, i);
    }
  }

  // ---- the maintenance pass over a vanished generation

  function MaintenanceLease(s: Store, record: Driver.RecoveredDriver, uuid: RunId, worker: string): Driver.RunLease {
    Driver.RunLease(record.session, record.user, uuid, DriverRuns.GenerationOf(s.drivers, record.session) + 1, worker)
  }

  function Reservation(s: Store, record: Driver.RecoveredDriver, uuid: RunId, worker: string): Driver.Reply {
    Driver.Reserve(s.drivers, record.session, record.user, None, uuid, worker, None, Driver.Finalizing, true, false)
  }

  // The store when the pass comes to rebind, and when it comes to settle: other workers went on in between.
  function BeforeRebind(s: Store, record: Driver.RecoveredDriver, uuid: RunId, worker: string, first: seq<Op>): Store {
    Run(s.(drivers := Reservation(s, record, uuid, worker).w), first)
  }

  function BeforeSettle(s: Store, record: Driver.RecoveredDriver, uuid: RunId, worker: string, first: seq<Op>,
                        second: seq<Op>): Store {
    Run(Rebind(BeforeRebind(s, record, uuid, worker, first), record, MaintenanceLease(s, record, uuid, worker)).s,
        second)
  }

  predicate OfRecord(record: Driver.RecoveredDriver, i: Item) {
    record.run.Some? && i.state == Claimed && i.input.session == record.session && i.input.user == record.user &&
    i.run == record.run && i.generation == Some(record.generation)
  }

  // However other workers interleave, if the maintenance generation was granted and still passes the fence
  // when the pass rebinds and when it settles, the pass settles exactly the claims the vanished generation
  // had when it was granted: with the reply it found, and each with its Message and turn unchanged.
  lemma OrphanPassSettlesExactly(s: Store, record: Driver.RecoveredDriver, uuid: RunId, worker: string,
                                 result: MessageId, first: seq<Op>, second: seq<Op>, i: nat)
    requires Inv(s) && OwnersOk(s) && record.run.Some?
    requires Reservation(s, record, uuid, worker).out == Driver.Done
    requires var l := MaintenanceLease(s, record, uuid, worker);
             && AllForeign(first, l) && AllForeign(second, l)
             && Fenced(BeforeRebind(s, record, uuid, worker, first), l)
             && Fenced(BeforeSettle(s, record, uuid, worker, first, second), l)
    requires i < |BeforeSettle(s, record, uuid, worker, first, second).items|
    ensures var l := MaintenanceLease(s, record, uuid, worker);
            var last := BeforeSettle(s, record, uuid, worker, first, second);
            var done := SettleClaimed(last, l, Some(result), true, "recovered");
            && done.out.Rows? && i < |done.s.items|
            && if i < |s.items| && OfRecord(record, s.items[i])
               then && done.s.items[i].state == Settled && done.s.items[i].result == Some(result)
                    && (done.s.items[i].message, done.s.items[i].turn) == (s.items[i].message, s.items[i].turn)
               else done.s.items[i] == last.items[i]
  {
    var l := MaintenanceLease(s, record, uuid, worker);
    var granted := s.(drivers := Reservation(s, record, uuid, worker).w);
    var one := BeforeRebind(s, record, uuid, worker, first);
    var rebound := Rebind(one, record, l).s;
    var last := BeforeSettle(s, record, uuid, worker, first, second);
    MaintenanceFence(s, record, uuid, worker);
    NothingHeldYet(s, record, uuid, worker, i);
    RunUndisturbed(granted, first, l, i);
    RebindStep(one, record, l);
    RebindHandsOver(one, record, l, i);
    RunUndisturbed(rebound, second, l, i);
    SettleHeld(last, l, result, i);
  }

  lemma MaintenanceFence(s: Store, record: Driver.RecoveredDriver, uuid: RunId, worker: string)
    requires Reservation(s, record, uuid, worker).out == Driver.Done
    ensures Fenced(s.(drivers := Reservation(s, record, uuid, worker).w), MaintenanceLease(s, record, uuid, worker))
  {
  }

  // No row of the session carries the new generation yet.
  lemma NothingHeldYet(s: Store, record: Driver.RecoveredDriver, uuid: RunId, worker: string, i: nat)
    requires OwnersOk(s)
    ensures i < |s.items| ==> !Matches(HeldBy(MaintenanceLease(s, record, uuid, worker)), i, s.items[i])
  {
    assert i < |s.items| ==> OwnerOk(s.drivers, s.items[i]);
  }

  lemma RebindHandsOver(s: Store, record: Driver.RecoveredDriver, l: Driver.RunLease, i: nat)
    requires Fenced(s, l) && record.run.Some? && record.session == l.session && record.user == l.user
    requires i < |s.items| ==> !Matches(HeldBy(l), i, s.items[i])
    ensures var rebound := Rebind(s, record, l).s;
            && |rebound.items| == |s.items|
            && (i < |s.items| ==>
                  (Matches(HeldBy(l), i, rebound.items[i]) <==> OfRecord(record, s.items[i])) &&
                  (rebound.items[i].message, rebound.items[i].turn) == (s.items[i].message, s.items[i].turn))
  {
    if i < |s.items| {
      RewrittenRow(s.items, OwnedBy(record.session, record.user, record.run.value, record.generation),
                   ToOwner(l.run, l.generation, s.drivers.now + CLAIM_SECONDS), i);
    }
  }

  lemma SettleHeld(s: Store, l: Driver.RunLease, result: MessageId, i: nat)
    requires Inv(s) && Fenced(s, l) && i < |s.items|
    ensures var done := SettleClaimed(s, l, Some(result), true, "recovered");
            && done.out.Rows? && |done.s.items| == |s.items|
            && if Matches(HeldBy(l), i, s.items[i])
               then && done.s.items[i].state == Settled && done.s.items[i].result == Some(result)
                    && (done.s.items[i].message, done.s.items[i].turn) == (s.items[i].message, s.items[i].turn)
               else done.s.items[i] == s.items[i]
  {
    HeldRowsHaveMessages(s, l);
    RewrittenRow(s.items, HeldBy(l), ToSettled(Some(result), "recovered"), i);
  }

  lemma HeldRowsHaveMessages(s: Store, l: Driver.RunLease)
    requires RowsOk(s)
    ensures Materialized(s.items, All(s.items, HeldBy(l)))
  {
    var rows := All(s.items, HeldBy(l));
    forall k | 0 <= k < |rows| ensures rows[k] < |s.items| && s.items[rows[k]].message.Some? {
      assert RowOk(s.items[rows[k]], s.nextMessage);
    }
  }
}
