// One turn per generation: every row a generation holds belongs to the same turn.
module InboxTurns {
  import opened Common
  import opened Inbox
  import opened InboxRuns
  import opened InboxGenerations
  import Driver
  import DriverRuns

  // Two rows claimed by the same generation of the same session.
  predicate SameClaim(a: Item, b: Item) {
    && a.state == Claimed && b.state == Claimed
    && (a.input.session, a.input.user) == (b.input.session, b.input.user)
    && (a.run, a.generation) == (b.run, b.generation)
  }

  predicate Agree(items: seq<Item>, i: int, j: int)
    requires 0 <= i < |items| && 0 <= j < |items|
  {
    SameClaim(items[i], items[j]) ==> items[i].turn == items[j].turn
  }

  predicate OneTurn(s: Store) {
    forall i, j :: 0 <= i < |s.items| && 0 <= j < |s.items| ==> Agree(s.items, i, j)
  }

  // ---- steps that hand no row over

  // Every claim after the step was that same claim before it.
  predicate NoNewClaims(s: Store, op: Op) {
    |s.items| <= |Step(s, op).items| &&
    forall i :: 0 <= i < |Step(s, op).items| && Step(s, op).items[i].state == Claimed ==> OldClaim(s, op, i)
  }

  predicate OldClaim(s: Store, op: Op, i: nat)
    requires i < |Step(s, op).items|
  {
    i < |s.items| && SameClaim(s.items[i], Step(s, op).items[i]) && Step(s, op).items[i].turn == s.items[i].turn
  }

  lemma OrdinaryStep(s: Store, op: Op)
    requires Inv(s) && !op.Claim? && !op.RebindClaims?
    ensures NoNewClaims(s, op)
  {
    StepKeepsInv(s, op);
    forall i | 0 <= i < |Step(s, op).items| && Step(s, op).items[i].state == Claimed ensures OldClaim(s, op, i) {
      if i < |s.items| {
        assert Next(s.items[i], Step(s, op).items[i]);
        if !op.Drive? {
          SameOwner(s, op, i);
        }
      }
    }
  }

  lemma NoNewClaimsKeepOneTurn(s: Store, op: Op)
    requires OneTurn(s) && NoNewClaims(s, op)
    ensures OneTurn(Step(s, op))
  {
    var after := Step(s, op).items;
    forall i, j | 0 <= i < |after| && 0 <= j < |after| ensures Agree(after, i, j) {
      if SameClaim(after[i], after[j]) {
        assert OldClaim(s, op, i) && OldClaim(s, op, j);
        assert Agree(s.items, i, j);
      }
    }
  }

  // ---- claims

  lemma ClaimedRow(s: Store, l: Driver.RunLease, rows: seq<nat>, ready: set<string>, i: nat)
    requires Inv(s) && OneTurn(s) && Fenced(s, l) && InRange(rows, s.items) && Distinct(rows) && rows != []
    requires forall k :: 0 <= k < |rows| ==> s.items[rows[k]].state == Accepted
    requires forall k :: 0 <= k < |rows| ==>
             s.items[rows[k]].input.session == l.session && s.items[rows[k]].input.user == l.user
    requires i < |s.items| && ClaimSelected(s, l, rows, ready).out.Rows?
    ensures i < |ClaimSelected(s, l, rows, ready).s.items|
    ensures var after := ClaimSelected(s, l, rows, ready).s.items[i];
            && (i !in rows ==> after == s.items[i])
            && (i in rows ==> Matches(HeldBy(l), i, after))
            && (Matches(HeldBy(l), i, after) ==> after.turn == Some(TurnOf(s, l, |rows|)))
  {
    StampedRow(s, rows, l, TurnOf(s, l, |rows|), s.drivers.now + CLAIM_SECONDS, i);
    if Matches(HeldBy(l), i, s.items[i]) {
      assert RowOk(s.items[i], s.nextMessage);
      OldestFinds(s.items, HeldBy(l), i);
      assert Agree(s.items, Oldest(s.items, HeldBy(l)).value, i);
    }
  }

  lemma SelectedClaimKeepsOneTurn(s: Store, l: Driver.RunLease, rows: seq<nat>, ready: set<string>)
    requires Inv(s) && OneTurn(s) && Fenced(s, l) && InRange(rows, s.items) && Distinct(rows)
    requires forall k :: 0 <= k < |rows| ==> s.items[rows[k]].state == Accepted
    requires forall k :: 0 <= k < |rows| ==>
             s.items[rows[k]].input.session == l.session && s.items[rows[k]].input.user == l.user
    ensures OneTurn(ClaimSelected(s, l, rows, ready).s)
  {
    var claimed := ClaimSelected(s, l, rows, ready);
    if rows != [] && claimed.out.Rows? && claimed.out.ids != [] {
      forall i, j | 0 <= i < |claimed.s.items| && 0 <= j < |claimed.s.items| ensures Agree(claimed.s.items, i, j) {
        ClaimedRow(s, l, rows, ready, i);
        ClaimedRow(s, l, rows, ready, j);
        assert Agree(s.items, i, j);
      }
    }
  }

  lemma ClaimKeepsOneTurn(s: Store, op: Op)
    requires Inv(s) && OneTurn(s) && op.Claim?
    ensures OneTurn(Step(s, op))
  {
    if op.step >= 1 && Fenced(s, op.l) && !op.held {
      var rows := Selected(s.items, op.l.session, op.l.user, op.choice);
      SelectedDistinct(s.items, op.l.session, op.l.user, op.choice);
      forall k | 0 <= k < |rows|
        ensures s.items[rows[k]].input.session == op.l.session && s.items[rows[k]].input.user == op.l.user
      {
        SelectedHere(s.items, op.l.session, op.l.user, op.choice, rows[k]);
      }
      SelectedClaimKeepsOneTurn(s, op.l, rows, op.ready);
    }
  }

  // ---- rebindings

  // A row that moves and a row that is already there belong to one turn.
  predicate Joins(s: Store, record: Driver.RecoveredDriver, l: Driver.RunLease, i: nat, j: nat)
    requires i < |s.items| && j < |s.items|
  {
    record.run.Some? &&
    Matches(OwnedBy(record.session, record.user, record.run.value, record.generation), i, s.items[i]) &&
    Matches(OwnedBy(record.session, record.user, l.run, l.generation), j, s.items[j]) ==>
      s.items[i].turn == s.items[j].turn
  }

  predicate AllJoin(s: Store, record: Driver.RecoveredDriver, l: Driver.RunLease) {
    forall i, j :: 0 <= i < |s.items| && 0 <= j < |s.items| ==> Joins(s, record, l, i, j)
  }

  // A granted rebinding keeps one turn per generation exactly when what it moves agrees with what the target
  // generation already holds.
  lemma RebindKeepsOneTurnExactly(s: Store, record: Driver.RecoveredDriver, l: Driver.RunLease)
    requires Inv(s) && OneTurn(s) && Fenced(s, l)
    ensures OneTurn(Rebind(s, record, l).s) <==> AllJoin(s, record, l)
  {
    var after := Rebind(s, record, l).s.items;
    if AllJoin(s, record, l) {
      forall i, j | 0 <= i < |after| && 0 <= j < |after| ensures Agree(after, i, j) {
        ReboundPair(s, record, l, i, j);
        assert Joins(s, record, l, i, j) && Joins(s, record, l, j, i);
      }
    }
    if OneTurn(Rebind(s, record, l).s) {
      forall i, j | 0 <= i < |s.items| && 0 <= j < |s.items| ensures Joins(s, record, l, i, j) {
        ReboundPair(s, record, l, i, j);
        assert Agree(after, i, j);
      }
    }
  }

  lemma ReboundPair(s: Store, record: Driver.RecoveredDriver, l: Driver.RunLease, i: nat, j: nat)
    requires OneTurn(s) && Fenced(s, l) && i < |s.items| && j < |s.items|
    ensures |Rebind(s, record, l).s.items| == |s.items|
    ensures var after := Rebind(s, record, l).s.items;
            Agree(after, i, j) <==> Joins(s, record, l, i, j) && Joins(s, record, l, j, i)
  {
    var change := ToOwner(l.run, l.generation, s.drivers.now + CLAIM_SECONDS);
    assert Agree(s.items, i, j);
    if record.run.Some? {
      var q := OwnedBy(record.session, record.user, record.run.value, record.generation);
      RewrittenRow(s.items, q, change, i);
      RewrittenRow(s.items, q, change, j);
    } else {
      NothingRewritten(s.items, change, i);
      NothingRewritten(s.items, change, j);
    }
  }

  // ---- whole runs

  // What a recovering caller can see before it rebinds: the new generation has claimed nothing yet.
  predicate NothingClaimedYet(s: Store, op: Op) {
    op.RebindClaims? ==> forall j :: 0 <= j < |s.items| ==>
      !Matches(OwnedBy(op.record.session, op.record.user, op.l.run, op.l.generation), j, s.items[j])
  }

  predicate RebindsComeFirst(s: Store, ops: seq<Op>)
    decreases |ops|
  {
    ops == [] || (NothingClaimedYet(s, ops[0]) && RebindsComeFirst(Step(s, ops[0]), ops[1..]))
  }

  lemma StepKeepsOneTurn(s: Store, op: Op)
    requires Inv(s) && OneTurn(s) && NothingClaimedYet(s, op)
    ensures OneTurn(Step(s, op))
  {
    if op.Claim? {
      ClaimKeepsOneTurn(s, op);
    } else if op.RebindClaims? {
      if Fenced(s, op.l) {
        RebindKeepsOneTurnExactly(s, op.record, op.l);
      }
    } else {
      OrdinaryStep(s, op);
      NoNewClaimsKeepOneTurn(s, op);
    }
  }

  lemma {:induction false} RunKeepsOneTurn(s: Store, ops: seq<Op>)
    requires Inv(s) && OneTurn(s) && RebindsComeFirst(s, ops)
    ensures OneTurn(Run(s, ops))
    decreases |ops|
  {
    if ops == [] {
    } else {
      StepKeepsInv(s, ops[0]);
      StepKeepsOneTurn(s, ops[0]);
      RunKeepsOneTurn(Step(s, ops[0]), ops[1..]);
    }
  }

  // Over every run in which claims are rebound before the new generation claims anything itself, all rows a
  // generation holds share one turn, through every boundary and every takeover.
  lemma EveryGenerationHasOneTurn(limit: int, now: Time, ops: seq<Op>, i: nat, j: nat)
    requires RebindsComeFirst(Init(limit, now), ops)
    requires i < |Run(Init(limit, now), ops).items| && j < |Run(Init(limit, now), ops).items|
    requires SameClaim(Run(Init(limit, now), ops).items[i], Run(Init(limit, now), ops).items[j])
    ensures Run(Init(limit, now), ops).items[i].turn == Run(Init(limit, now), ops).items[j].turn
  {
    RunKeepsOneTurn(Init(limit, now), ops);
    assert Agree(Run(Init(limit, now), ops).items, i, j);
  }
}
