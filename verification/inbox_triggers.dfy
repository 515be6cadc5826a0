// The driver's trigger and the turn: whoever recovers a run reads the trigger, so it should name the turn of
// everything the run still holds.
module InboxTriggers {
  import opened Common
  import opened Inbox
  import opened InboxRuns
  import opened InboxGenerations
  import opened InboxExample
  import opened InboxMixed
  import Driver
  import DriverRuns

  // A row claimed under its session's current run and generation belongs to the turn the trigger names.
  predicate Named(w: Driver.World, i: Item) {
    var s := i.input.session;
    i.state == Claimed && i.run.Some? && s in w.rows && w.rows[s].run == i.run &&
    i.generation == Some(w.rows[s].generation) ==>
      w.rows[s].trigger == i.turn
  }

  predicate AllNamed(s: Store) {
    forall i :: 0 <= i < |s.items| ==> Named(s.drivers, s.items[i])
  }

  // What moves belongs to the turn that the target's trigger names.
  predicate MovesItsTurn(s: Store, record: Driver.RecoveredDriver, l: Driver.RunLease)
    requires l.session in s.drivers.rows
  {
    record.run.Some? ==> forall j :: 0 <= j < |s.items| && MovedBy(s, record, j) ==>
      s.items[j].turn == s.drivers.rows[l.session].trigger
  }

  predicate MovedBy(s: Store, record: Driver.RecoveredDriver, j: nat)
    requires record.run.Some? && j < |s.items|
  {
    Matches(OwnedBy(record.session, record.user, record.run.value, record.generation), j, s.items[j])
  }

  // What a caller can see before a step: a trigger that a transcript write binds is the turn of what its lease
  // holds, and a rebinding moves what belongs to the turn its lease's trigger names.
  predicate NamesTheTurn(s: Store, op: Op) {
    if op.Drive? && op.op.OpBindTrigger? then Driver.Holds(s.drivers, op.op.l) ==> InTurn(s, op.op.l, op.op.message)
    else if op.Drive? && op.op.OpBindLocked? then
      var l := Driver.RunLease(op.op.s, op.op.user, op.op.bound, op.op.generation, "");
      Driver.Current(s.drivers, l.session, l.user, l.run, l.generation) ==> InTurn(s, l, op.op.message)
    else if op.RebindClaims? then Fenced(s, op.l) ==> MovesItsTurn(s, op.record, op.l)
    else true
  }

  // ---- driver steps

  predicate Binds(op: DriverRuns.Op) { op.OpBindTrigger? || op.OpBindLocked? }

  lemma DriveKeepsNames(w: Driver.World, op: DriverRuns.Op, i: Item)
    requires OwnerOk(w, i) && Named(w, i) && !Binds(op)
    ensures Named(DriverRuns.Step(w, op), i)
  {
  }

  // Binding a trigger under a lease names the turn of a row exactly when the lease does not hold the row or the
  // row is of that turn.
  lemma BindNames(s: Store, l: Driver.RunLease, message: MessageId, i: nat)
    requires i < |s.items| && OwnerOk(s.drivers, s.items[i]) && Named(s.drivers, s.items[i])
    requires Driver.Current(s.drivers, l.session, l.user, l.run, l.generation)
    ensures Named(Driver.BindTriggerLocked(s.drivers, l.session, l.user, l.run, l.generation, message).w,
                  s.items[i]) <==>
            (Matches(HeldBy(l), i, s.items[i]) ==> s.items[i].turn == Some(message))
  {
  }

  lemma BindNamesAll(s: Store, l: Driver.RunLease, message: MessageId, after: Store)
    requires OwnersOk(s) && AllNamed(s)
    requires Driver.Current(s.drivers, l.session, l.user, l.run, l.generation)
    requires after.items == s.items
    requires after.drivers == Driver.BindTriggerLocked(s.drivers, l.session, l.user, l.run, l.generation, message).w
    ensures AllNamed(after) <==> InTurn(s, l, message)
  {
    forall i | 0 <= i < |s.items|
      ensures Named(after.drivers, after.items[i]) <==>
              (Matches(HeldBy(l), i, s.items[i]) ==> s.items[i].turn == Some(message))
    {
      assert OwnerOk(s.drivers, s.items[i]);
      BindNames(s, l, message, i);
    }
  }

  lemma DriveNamesExactly(s: Store, op: Op)
    requires OwnersOk(s) && AllNamed(s) && op.Drive?
    ensures AllNamed(Step(s, op)) <==> NamesTheTurn(s, op)
  {
    var d := op.op;
    if d.OpBindTrigger? && Driver.Holds(s.drivers, d.l) {
      BindNamesAll(s, d.l, d.message, Step(s, op));
    } else if d.OpBindLocked? && Driver.Current(s.drivers, d.s, d.user, d.bound, d.generation) {
      BindNamesAll(s, Driver.RunLease(d.s, d.user, d.bound, d.generation, ""), d.message, Step(s, op));
    } else if Binds(d) {
      assert Step(s, op).drivers == s.drivers;
    } else {
      forall i | 0 <= i < |s.items| ensures Named(Step(s, op).drivers, s.items[i]) {
        assert OwnerOk(s.drivers, s.items[i]);
        DriveKeepsNames(s.drivers, d, s.items[i]);
      }
    }
  }

  // ---- claims

  // Whatever the lease already holds belongs to the turn a further claim joins.
  lemma HeldJoins(s: Store, l: Driver.RunLease, count: nat, i: nat)
    requires Inv(s) && AllNamed(s) && Fenced(s, l) && count > 0
    requires i < |s.items| && Matches(HeldBy(l), i, s.items[i])
    ensures s.items[i].turn == Some(TurnOf(s, l, count)) == s.drivers.rows[l.session].trigger
  {
    assert RowOk(s.items[i], s.nextMessage);
    OldestFinds(s.items, HeldBy(l), i);
    assert Named(s.drivers, s.items[i]) && Named(s.drivers, s.items[Oldest(s.items, HeldBy(l)).value]);
  }

  lemma ClaimNamesRow(s: Store, l: Driver.RunLease, rows: seq<nat>, ready: set<string>, i: nat)
    requires Inv(s) && OwnersOk(s) && AllNamed(s) && Fenced(s, l) && InRange(rows, s.items) && Distinct(rows)
    requires forall k :: 0 <= k < |rows| ==> s.items[rows[k]].state == Accepted
    requires i in rows ==> s.items[i].input.session == l.session
    requires i < |s.items|
    ensures i < |ClaimSelected(s, l, rows, ready).s.items|
    ensures Named(ClaimSelected(s, l, rows, ready).s.drivers, ClaimSelected(s, l, rows, ready).s.items[i])
  {
    assert OwnerOk(s.drivers, s.items[i]) && Named(s.drivers, s.items[i]);
    if rows != [] {
      StampedRow(s, rows, l, TurnOf(s, l, |rows|), s.drivers.now + CLAIM_SECONDS, i);
      if i !in rows {
        if Matches(HeldBy(l), i, s.items[i]) {
          HeldJoins(s, l, |rows|, i);
        }
        BindNames(s, l, TurnOf(s, l, |rows|), i);
      }
    }
  }

  lemma ClaimNames(s: Store, op: Op)
    requires Inv(s) && OwnersOk(s) && AllNamed(s) && op.Claim?
    ensures AllNamed(Step(s, op))
  {
    if op.step >= 1 && Fenced(s, op.l) && !op.held {
      var rows := Selected(s.items, op.l.session, op.l.user, op.choice);
      SelectedDistinct(s.items, op.l.session, op.l.user, op.choice);
      forall i | 0 <= i < |Step(s, op).items| ensures Named(Step(s, op).drivers, Step(s, op).items[i]) {
        StepKeepsInv(s, op);
        if i in rows {
          SelectedHere(s.items, op.l.session, op.l.user, op.choice, i);
        }
        ClaimNamesRow(s, op.l, rows, op.ready, i);
      }
    }
  }

  // ---- rebindings

  lemma RebindNamesRow(s: Store, record: Driver.RecoveredDriver, l: Driver.RunLease, i: nat)
    requires Fenced(s, l) && record.session == l.session && i < |s.items| && Named(s.drivers, s.items[i])
    ensures |Rebind(s, record, l).s.items| == |s.items| && Rebind(s, record, l).s.drivers == s.drivers
    ensures Named(s.drivers, Rebind(s, record, l).s.items[i]) <==>
            (record.run.Some? && MovedBy(s, record, i) ==> s.items[i].turn == s.drivers.rows[l.session].trigger)
  {
    var change := ToOwner(l.run, l.generation, s.drivers.now + CLAIM_SECONDS);
    if record.run.Some? {
      RewrittenRow(s.items, OwnedBy(record.session, record.user, record.run.value, record.generation), change, i);
    } else {
      NothingRewritten(s.items, change, i);
    }
  }

  lemma RebindNamesExactly(s: Store, op: Op)
    requires AllNamed(s) && op.RebindClaims? && Paired(op)
    ensures AllNamed(Step(s, op)) <==> NamesTheTurn(s, op)
  {
    if Fenced(s, op.l) {
      forall i | 0 <= i < |s.items|
        ensures |Step(s, op).items| == |s.items| && Step(s, op).drivers == s.drivers
        ensures Named(Step(s, op).drivers, Step(s, op).items[i]) <==>
                (op.record.run.Some? && MovedBy(s, op.record, i) ==>
                   s.items[i].turn == s.drivers.rows[op.l.session].trigger)
      {
        RebindNamesRow(s, op.record, op.l, i);
      }
    }
  }

  // ---- the other transactions hand no row over

  lemma OrdinaryKeepsNames(s: Store, op: Op)
    requires Inv(s) && AllNamed(s) && !op.Drive? && !op.Claim? && !op.RebindClaims?
    ensures AllNamed(Step(s, op))
  {
    StepKeepsInv(s, op);
    forall i | 0 <= i < |Step(s, op).items| ensures Named(Step(s, op).drivers, Step(s, op).items[i]) {
      if i < |s.items| {
        assert Next(s.items[i], Step(s, op).items[i]) && Named(s.drivers, s.items[i]);
        SameOwner(s, op, i);
      }
    }
  }

  // One transaction keeps the trigger naming the turn of everything held exactly when a bound trigger is the
  // turn of what its lease holds and a rebinding moves what belongs to its lease's trigger.
  lemma TriggerStaysNamedExactly(s: Store, op: Op)
    requires Inv(s) && OwnersOk(s) && AllNamed(s) && Paired(op)
    ensures AllNamed(Step(s, op)) <==> NamesTheTurn(s, op)
  {
    if op.Drive? {
      DriveNamesExactly(s, op);
    } else if op.Claim? {
      ClaimNames(s, op);
    } else if op.RebindClaims? {
      RebindNamesExactly(s, op);
    } else {
      OrdinaryKeepsNames(s, op);
    }
  }

  // ---- whole runs

  predicate AlwaysNamesTheTurn(s: Store, ops: seq<Op>)
    decreases |ops|
  {
    ops == [] || (NamesTheTurn(s, ops[0]) && AlwaysNamesTheTurn(Step(s, ops[0]), ops[1..]))
  }

  lemma {:induction false} RunKeepsNames(s: Store, ops: seq<Op>)
    requires Inv(s) && OwnersOk(s) && AllNamed(s) && AllPaired(ops) && AlwaysNamesTheTurn(s, ops)
    ensures Inv(Run(s, ops)) && AllNamed(Run(s, ops))
    decreases |ops|
  {
    if ops == [] {
    } else {
      StepKeepsInv(s, ops[0]);
      StepKeepsOwners(s, ops[0]);
      TriggerStaysNamedExactly(s, ops[0]);
      RunKeepsNames(Step(s, ops[0]), ops[1..]);
    }
  }

  // A takeover followed at once by the rebinding of its record needs no care: the record's trigger is carried
  // over, and it named the turn of what the record still holds.
  lemma TakeoverThenRebindingNames(s: Store, record: Driver.RecoveredDriver, uuid: RunId, worker: string,
                                   phase: Driver.Phase)
    requires AllNamed(s) && Driver.Takeover(s.drivers, record, uuid, worker, phase, true).out == Driver.Done
    ensures var taken := Step(s, Drive(DriverRuns.OpTakeover(record, uuid, worker, phase, true)));
            var l := Driver.RunLease(record.session, record.user, uuid, record.generation + 1, worker);
            Fenced(taken, l) && NamesTheTurn(taken, RebindClaims(record, l))
  {
    var taken := Step(s, Drive(DriverRuns.OpTakeover(record, uuid, worker, phase, true)));
    forall j | record.run.Some? && 0 <= j < |s.items| && MovedBy(taken, record, j)
      ensures s.items[j].turn == taken.drivers.rows[record.session].trigger
    {
      assert Named(s.drivers, s.items[j]);
    }
  }

  // Over every such run the trigger of a live generation names the one turn of everything it holds, and a
  // further claim joins that turn and leaves the trigger on it.
  lemma ClaimJoinsTheNamedTurn(limit: int, now: Time, ops: seq<Op>, l: Driver.RunLease, rows: seq<nat>,
                               ready: set<string>, i: nat)
    requires AllPaired(ops) && AlwaysNamesTheTurn(Init(limit, now), ops)
    requires var s := Run(Init(limit, now), ops);
             && Fenced(s, l) && InRange(rows, s.items) && Distinct(rows) && rows != []
             && (forall k :: 0 <= k < |rows| ==> s.items[rows[k]].state == Accepted)
             && ClaimSelected(s, l, rows, ready).out.Rows?
             && i < |s.items| && Matches(HeldBy(l), i, s.items[i])
    ensures var s := Run(Init(limit, now), ops);
            var after := ClaimSelected(s, l, rows, ready).s;
            && s.items[i].turn.Some? && s.drivers.rows[l.session].trigger == s.items[i].turn
            && l.session in after.drivers.rows && after.drivers.rows[l.session].trigger == s.items[i].turn
            && InTurn(after, l, s.items[i].turn.value)
  {
    var s := Run(Init(limit, now), ops);
    RunKeepsNames(Init(limit, now), ops);
    HeldJoins(s, l, 1, i);
    forall j | 0 <= j < |s.items| && Matches(HeldBy(l), j, s.items[j]) ensures s.items[j].turn == s.items[i].turn {
      HeldJoins(s, l, 1, j);
    }
    ClaimJoinsTheTurn(s, l, rows, ready, s.items[i].turn.value);
  }

  // A generation that holds turn 0 binds its trigger to another Message, and the trigger no longer names it.
  lemma MisnamedTriggerExample() returns (ops: seq<Op>)
    ensures AllPaired(ops) && AllNamed(Run(Init(2, 0), ops))
    ensures var bind := Drive(DriverRuns.OpBindTrigger(FIRST, 7));
            && !NamesTheTurn(Run(Init(2, 0), ops), bind) && !AllNamed(Step(Run(Init(2, 0), ops), bind))
  {
    var start := FirstGeneration();
    var s := Run(Init(2, 0), start);
    FirstInput(s);
    FirstTurn(Step(s, ACCEPT));
    RunSnoc(Init(2, 0), start, ACCEPT);
    RunSnoc(Init(2, 0), start + [ACCEPT], ClaimNext(FIRST));
    ops := start + [ACCEPT] + [ClaimNext(FIRST)];
    RunKeepsOwners(Init(2, 0), ops);
    HeldIsNamed(s);
    HeldIsMisnamed(Run(Init(2, 0), ops));
  }

  lemma HeldIsNamed(s: Store)
    requires Started(s)
    ensures AllNamed(Step(Step(s, ACCEPT), ClaimNext(FIRST)))
  {
    FirstInput(s);
    var waiting := Step(s, ACCEPT);
    assert AllNamed(waiting);
  }

  lemma HeldIsMisnamed(s: Store)
    requires FirstTurnHeld(s) && OwnersOk(s) && AllNamed(s)
    ensures var bind := Drive(DriverRuns.OpBindTrigger(FIRST, 7));
            !NamesTheTurn(s, bind) && !AllNamed(Step(s, bind))
  {
    assert Matches(HeldBy(FIRST), 0, s.items[0]);
    DriveNamesExactly(s, Drive(DriverRuns.OpBindTrigger(FIRST, 7)));
  }
}
