// What every interleaving of inbox and driver transactions keeps, over any number of workers,
// sessions, takeovers and crashes.
module InboxRuns {
  import opened Common
  import opened Inbox
  import Driver
  import DriverRuns

  datatype Op =
    | Drive(op: DriverRuns.Op)
    | AcceptInput(r: Request, valid: bool, linked: bool, ready: set<string>)
    | Claim(l: Driver.RunLease, step: int, choice: Choice, held: bool, ready: set<string>)
    | Cancel(session: string, user: string, ids: Option<set<nat>>)
    | SettleRun(l: Driver.RunLease, result: Option<MessageId>, found: bool, outcome: string)
    | SettleUndelivered(l: Driver.RunLease, failed: set<nat>, closeTurn: bool)
    | SettleNotRun(l: Driver.RunLease)
    | DeliveryFailed(l: Driver.RunLease, id: nat, retryable: bool)
    | RebindClaims(record: Driver.RecoveredDriver, l: Driver.RunLease)
    | SettleOrphans(session: string, user: string, run: RunId, generation: nat, executing: bool, replied: bool)

  function Answer(s: Store, op: Op): Reply {
    match op
    case Drive(d) => Reply(s.(drivers := DriverRuns.Step(s.drivers, d)), Rows([]))
    case AcceptInput(r, valid, linked, ready) => Accept(s, r, valid, linked, ready)
    case Claim(l, step, choice, held, ready) => ClaimOnce(s, l, step, choice, held, ready)
    case Cancel(session, user, ids) => CancelRows(s, session, user, ids)
    case SettleRun(l, result, found, outcome) => SettleClaimed(s, l, result, found, outcome)
    case SettleUndelivered(l, failed, closeTurn) => SettleDeliveryFailures(s, l, failed, closeTurn)
    case SettleNotRun(l) => SettleRefused(s, l)
    case DeliveryFailed(l, id, retryable) => RecordDeliveryFailure(s, l, id, retryable)
    case RebindClaims(record, l) => Rebind(s, record, l)
    case SettleOrphans(session, user, run, generation, executing, replied) =>
      SettleUnstarted(s, session, user, run, generation, executing, replied)
  }

  function Step(s: Store, op: Op): Store { Answer(s, op).s }

  function Run(s: Store, ops: seq<Op>): Store
    decreases |ops|
  {
    if ops == [] then s else Run(Step(s, ops[0]), ops[1..])
  }

  function Init(limit: int, now: Time): Store {
    Store(DriverRuns.Init(limit, now), [], 0)
  }

  // ---- one row

  // A row names its Message exactly from its claim on.
  predicate RowOk(i: Item, nextMessage: MessageId) {
    && (i.state == Accepted || i.state == Canceled ==>
        i.message.None? && i.result.None? && i.run.None? && i.generation.None?)
    && (i.state == Claimed || i.state == Settled ==>
          i.message.Some? && i.message.value < nextMessage && i.turn.Some? && i.run.Some? && i.generation.Some?)
    && (i.state == Claimed ==> i.expires.Some? && i.result.None?)
    && i.attempts <= MAX_ATTEMPT_COUNT
  }

  // One transaction's effect on one row: accepted -> claimed -> settled, or accepted -> canceled; the input
  // is never edited, the Message and turn are fixed by the claim, and a finished row never changes.
  predicate Next(a: Item, b: Item) {
    && b.input == a.input
    && a.attempts <= b.attempts
    && (match a.state
        case Accepted => b == a || b == Apply(ToCanceled, a) || (b.state == Claimed && b.message.Some?)
        case Claimed => (b.state == Claimed || b.state == Settled) && b.message == a.message && b.turn == a.turn
        case _ => b == a)
  }

  // The same over any number of transactions.
  predicate Later(a: Item, b: Item) {
    && b.input == a.input
    && (a.state == Canceled || a.state == Settled ==> b == a)
    && (a.state == Claimed ==> b.state == Claimed || b.state == Settled)
    && (a.message.Some? ==> b.message == a.message && b.turn == a.turn)
    && a.attempts <= b.attempts
  }

  predicate RowsOk(s: Store) {
    forall i :: 0 <= i < |s.items| ==> RowOk(s.items[i], s.nextMessage)
  }

  predicate RowsNext(a: Store, b: Store) {
    && |a.items| <= |b.items| <= |a.items| + 1
    && a.nextMessage <= b.nextMessage
    && (forall i :: 0 <= i < |a.items| ==> Next(a.items[i], b.items[i]))
    && (|b.items| > |a.items| ==> b.items[|a.items|].state == Accepted)
  }

  // No two inputs share a Message, and a client id names at most one input of a user's session.
  predicate MessagesUnique(s: Store) {
    forall i, j :: 0 <= i < j < |s.items| && s.items[i].message.Some? ==> s.items[i].message != s.items[j].message
  }

  predicate SameClient(a: Item, b: Item) {
    a.input.session == b.input.session && a.input.user == b.input.user && a.input.client == b.input.client &&
    a.input.client.Some?
  }

  predicate ClientsUnique(s: Store) {
    forall i, j :: 0 <= i < j < |s.items| ==> !SameClient(s.items[i], s.items[j])
  }

  ghost predicate Inv(s: Store) {
    RowsOk(s) && MessagesUnique(s) && ClientsUnique(s)
  }

  // ---- steps, transaction by transaction

  lemma RewriteStep(s: Store, q: Where, change: Change, nextMessage: MessageId)
    requires Inv(s) && s.nextMessage <= nextMessage
    requires if change.ToCanceled? then q.state == Some(Accepted) else q.state == Some(Claimed)
    ensures var b := s.(items := Rewrite(s.items, All(s.items, q), change), nextMessage := nextMessage);
            RowsNext(s, b) && Inv(b)
  {
    var b := s.(items := Rewrite(s.items, All(s.items, q), change), nextMessage := nextMessage);
    AllIsExact(s.items, q);
    forall i | 0 <= i < |s.items|
      ensures Next(s.items[i], b.items[i]) && RowOk(b.items[i], nextMessage) && b.items[i].message == s.items[i].message
    {
      assert RowOk(s.items[i], s.nextMessage);
    }
  }

  lemma AcceptStep(s: Store, r: Request, valid: bool, linked: bool, ready: set<string>)
    requires Inv(s)
    ensures RowsNext(s, Accept(s, r, valid, linked, ready).s) && Inv(Accept(s, r, valid, linked, ready).s)
  {
    var b := Accept(s, r, valid, linked, ready).s;
    if b != s {
      var q := AnyOf(r.session, r.user).(client := r.client);
      forall i | 0 <= i < |s.items| ensures !SameClient(s.items[i], NewItem(r)) {
        if SameClient(s.items[i], NewItem(r)) {
          FirstFinds(s.items, q, i);
        }
      }
    }
  }

  lemma ClaimStep(s: Store, l: Driver.RunLease, step: int, choice: Choice, held: bool, ready: set<string>)
    requires Inv(s)
    ensures RowsNext(s, ClaimOnce(s, l, step, choice, held, ready).s)
    ensures Inv(ClaimOnce(s, l, step, choice, held, ready).s)
  {
    if step >= 1 && Fenced(s, l) && !held {
      SelectedDistinct(s.items, l.session, l.user, choice);
      ClaimSelectedStep(s, l, Selected(s.items, l.session, l.user, choice), ready);
    }
  }

  lemma ClaimSelectedStep(s: Store, l: Driver.RunLease, rows: seq<nat>, ready: set<string>)
    requires Inv(s) && l.session in s.drivers.rows && InRange(rows, s.items) && Distinct(rows)
    requires forall k :: 0 <= k < |rows| ==> s.items[rows[k]].state == Accepted
    ensures RowsNext(s, ClaimSelected(s, l, rows, ready).s)
    ensures Inv(ClaimSelected(s, l, rows, ready).s)
  {
    if rows != [] {
      var turn, expires := TurnOf(s, l, |rows|), s.drivers.now + CLAIM_SECONDS;
      var after := ClaimSelected(s, l, rows, ready).s;
      StampStep(s, rows, l, turn, expires, after.drivers);
      assert after == s || after == Store(after.drivers, Stamp(s.items, rows, |rows|, l, s.nextMessage, turn, expires),
                                          s.nextMessage + |rows|);
    }
  }

  lemma SelectedDistinct(items: seq<Item>, session: string, user: string, choice: Choice)
    ensures Distinct(Selected(items, session, user, choice))
  {
    if choice.Boundary? {
      var steps := First(items, Waiting(session, user, NextStep), MAX_STEP_BATCH);
      var turns := First(items, Waiting(session, user, NextTurn), 1);
      forall j, k | 0 <= j < |steps| && 0 <= k < |turns| ensures steps[j] != turns[k] {
      }
    }
  }

  // The k-th selected row is row i and got the k-th new Message.
  predicate Stamped(s: Store, rows: seq<nat>, i: nat, after: Item, k: int) {
    0 <= k < |rows| && rows[k] == i && after.message == Some(s.nextMessage + k)
  }

  lemma StampedRow(s: Store, rows: seq<nat>, l: Driver.RunLease, turn: MessageId, expires: Time, i: nat)
    requires RowsOk(s) && InRange(rows, s.items) && Distinct(rows) && i < |s.items|
    requires forall k :: 0 <= k < |rows| ==> s.items[rows[k]].state == Accepted
    ensures var after := Stamp(s.items, rows, |rows|, l, s.nextMessage, turn, expires)[i];
            && Next(s.items[i], after) && RowOk(after, s.nextMessage + |rows|)
            && (after == s.items[i] || exists k :: Stamped(s, rows, i, after, k))
            && (i in rows <==> after != s.items[i])
            && (i in rows ==>
                  after.turn == Some(turn) && after.run == Some(l.run) && after.generation == Some(l.generation))
  {
    StampPointwise(s.items, rows, |rows|, l, s.nextMessage, turn, expires);
    assert rows[..|rows|] == rows;
    assert RowOk(s.items[i], s.nextMessage);
    if i in rows {
      var k :| 0 <= k < |rows| && rows[k] == i;
      assert Stamped(s, rows, i, Stamp(s.items, rows, |rows|, l, s.nextMessage, turn, expires)[i], k);
    }
  }

  lemma StampStep(s: Store, rows: seq<nat>, l: Driver.RunLease, turn: MessageId, expires: Time, drivers: Driver.World)
    requires Inv(s) && InRange(rows, s.items) && Distinct(rows)
    requires forall k :: 0 <= k < |rows| ==> s.items[rows[k]].state == Accepted
    ensures var items := Stamp(s.items, rows, |rows|, l, s.nextMessage, turn, expires);
            var b := Store(drivers, items, s.nextMessage + |rows|);
            RowsNext(s, b) && Inv(b)
  {
    var items := Stamp(s.items, rows, |rows|, l, s.nextMessage, turn, expires);
    var b := Store(drivers, items, s.nextMessage + |rows|);
    forall i | 0 <= i < |items|
      ensures Next(s.items[i], items[i]) && RowOk(items[i], b.nextMessage)
      ensures items[i] == s.items[i] || exists k :: Stamped(s, rows, i, items[i], k)
    {
      StampedRow(s, rows, l, turn, expires, i);
    }
    forall i, j | 0 <= i < j < |items| && items[i].message.Some? ensures items[i].message != items[j].message {
      assert RowOk(s.items[i], s.nextMessage) && RowOk(s.items[j], s.nextMessage);
    }
  }

  lemma StepKeepsInv(s: Store, op: Op)
    requires Inv(s)
    ensures RowsNext(s, Step(s, op)) && Inv(Step(s, op))
  {
    if op.AcceptInput? {
      AcceptStep(s, op.r, op.valid, op.linked, op.ready);
    } else if op.Claim? {
      ClaimStep(s, op.l, op.step, op.choice, op.held, op.ready);
    } else if op.DeliveryFailed? {
      FailureStep(s, op.l, op.id, op.retryable);
    } else if op.Drive? {
    } else if op.Cancel? {
      RewriteStep(s, Queued(op.session, op.user).(ids := op.ids), ToCanceled, s.nextMessage);
    } else if op.RebindClaims? {
      RebindStep(s, op.record, op.l);
    } else if op.SettleRun? {
      SettleStep(s, op.l, op.result, op.found, op.outcome);
    } else {
      NeverRanStep(s, op);
    }
  }

  lemma NeverRanStep(s: Store, op: Op)
    requires Inv(s) && (op.SettleUndelivered? || op.SettleNotRun? || op.SettleOrphans?)
    ensures RowsNext(s, Step(s, op)) && Inv(Step(s, op))
  {
    if op.SettleUndelivered? {
      UndeliveredStep(s, op);
    } else if op.SettleNotRun? {
      NotRunStep(s, op);
    } else {
      OrphansStep(s, op);
    }
  }

  lemma UndeliveredStep(s: Store, op: Op)
    requires Inv(s) && op.SettleUndelivered?
    ensures RowsNext(s, Step(s, op)) && Inv(Step(s, op))
  {
    var q := HeldBy(op.l).(ids := Some(op.failed));
    CloseStep(s, q, "delivery_error", op.closeTurn);
    assert Step(s, op) == s || Step(s, op) == CloseNeverRan(s, All(s.items, q), "delivery_error", op.closeTurn).s;
  }

  lemma NotRunStep(s: Store, op: Op)
    requires Inv(s) && op.SettleNotRun?
    ensures RowsNext(s, Step(s, op)) && Inv(Step(s, op))
  {
    CloseStep(s, HeldBy(op.l), "not_run", true);
    assert Step(s, op) == s || Step(s, op) == CloseNeverRan(s, All(s.items, HeldBy(op.l)), "not_run", true).s;
  }

  lemma OrphansStep(s: Store, op: Op)
    requires Inv(s) && op.SettleOrphans?
    ensures RowsNext(s, Step(s, op)) && Inv(Step(s, op))
  {
    var q := OwnedBy(op.session, op.user, op.run, op.generation);
    CloseStep(s, q, "not_run", true);
    assert Step(s, op) == s || Step(s, op) == CloseNeverRan(s, All(s.items, q), "not_run", true).s;
  }

  lemma RebindStep(s: Store, record: Driver.RecoveredDriver, l: Driver.RunLease)
    requires Inv(s)
    ensures RowsNext(s, Rebind(s, record, l).s) && Inv(Rebind(s, record, l).s)
  {
    var change := ToOwner(l.run, l.generation, s.drivers.now + CLAIM_SECONDS);
    if record.run.Some? {
      RewriteStep(s, OwnedBy(record.session, record.user, record.run.value, record.generation), change, s.nextMessage);
    } else {
      assert Rewrite(s.items, [], change) == s.items;
    }
  }

  lemma SettleStep(s: Store, l: Driver.RunLease, result: Option<MessageId>, found: bool, outcome: string)
    requires Inv(s)
    ensures RowsNext(s, SettleClaimed(s, l, result, found, outcome).s)
    ensures Inv(SettleClaimed(s, l, result, found, outcome).s)
  {
    var after := SettleClaimed(s, l, result, found, outcome).s;
    var change := ToSettled(result, outcome);
    RewriteStep(s, HeldBy(l), change, s.nextMessage);
    assert after == s ||
           after == s.(items := Rewrite(s.items, All(s.items, HeldBy(l)), change), nextMessage := s.nextMessage);
  }

  lemma CloseStep(s: Store, q: Where, outcome: string, closeTurn: bool)
    requires Inv(s) && q.state == Some(Claimed)
    ensures RowsNext(s, CloseNeverRan(s, All(s.items, q), outcome, closeTurn).s)
    ensures Inv(CloseNeverRan(s, All(s.items, q), outcome, closeTurn).s)
  {
    var closing := if closeTurn then Some(s.nextMessage) else None;
    RewriteStep(s, q, ToSettled(closing, outcome), if closeTurn then s.nextMessage + 1 else s.nextMessage);
  }

  lemma FailureStep(s: Store, l: Driver.RunLease, id: nat, retryable: bool)
    requires Inv(s)
    ensures RowsNext(s, RecordDeliveryFailure(s, l, id, retryable).s)
    ensures Inv(RecordDeliveryFailure(s, l, id, retryable).s)
  {
    assert id < |s.items| ==> RowOk(s.items[id], s.nextMessage);
  }

  // ---- whole runs

  lemma {:induction false} RunKeepsInv(s: Store, ops: seq<Op>)
    requires Inv(s)
    ensures Inv(Run(s, ops))
    decreases |ops|
  {
    if ops == [] {
    } else {
      StepKeepsInv(s, ops[0]);
      RunKeepsInv(Step(s, ops[0]), ops[1..]);
    }
  }

  // Rows are never removed or reordered, and each only ever moves forward in its life.
  lemma {:induction false} RowsOnlyMoveForward(s: Store, ops: seq<Op>, i: nat)
    requires Inv(s) && i < |s.items|
    ensures i < |Run(s, ops).items| && Later(s.items[i], Run(s, ops).items[i])
    decreases |ops|
  {
    if ops == [] {
    } else {
      StepKeepsInv(s, ops[0]);
      assert Next(s.items[i], Step(s, ops[0]).items[i]);
      assert RowOk(s.items[i], s.nextMessage);
      RowsOnlyMoveForward(Step(s, ops[0]), ops[1..], i);
    }
  }

  // In every reachable state: an input has a Message exactly when it has been claimed, no two inputs share
  // one, and a client id names at most one input per user and session.
  lemma ReachableInbox(limit: int, now: Time, ops: seq<Op>, i: nat, j: nat)
    requires i < j < |Run(Init(limit, now), ops).items|
    ensures var items := Run(Init(limit, now), ops).items;
            && (items[i].message.Some? <==> items[i].state == Claimed || items[i].state == Settled)
            && (items[i].message.Some? ==> items[i].message != items[j].message)
            && !SameClient(items[i], items[j])
  {
    RunKeepsInv(Init(limit, now), ops);
    assert RowOk(Run(Init(limit, now), ops).items[i], Run(Init(limit, now), ops).nextMessage);
  }

  lemma {:induction false} SessionKeepsOwner(s: Store, ops: seq<Op>, session: string, user: string)
    requires Driver.OwnedSession(s.drivers, session, user)
    ensures Driver.OwnedSession(Run(s, ops).drivers, session, user)
    decreases |ops|
  {
    if ops == [] {
    } else {
      if ops[0].Drive? {
        DriverRuns.SessionsLast(s.drivers, ops[0].op, session);
      }
      SessionKeepsOwner(Step(s, ops[0]), ops[1..], session, user);
    }
  }

  // ---- who may touch a claimed row

  predicate Touched(s: Store, op: Op, i: nat) {
    i < |s.items| && i < |Step(s, op).items| && Step(s, op).items[i] != s.items[i]
  }

  // The row's own generation is the one the fence admits.
  predicate OwnFence(s: Store, row: Item) {
    row.run.Some? && row.generation.Some? &&
    Driver.Fence(s.drivers, row.input.session, row.input.user, row.run.value, row.generation.value)
  }

  // A claimed row is touched only by a writer behind the live fence of the row's own generation, by a
  // rebinding takeover behind its own live fence, or, once its claim has expired, while no driver runs.
  lemma ClaimedRowAuthority(s: Store, op: Op, i: nat)
    requires Inv(s) && Touched(s, op, i) && s.items[i].state == Claimed
    ensures || OwnFence(s, s.items[i])
            || (op.RebindClaims? && Fenced(s, op.l))
            || (op.SettleOrphans? && !op.executing && !op.replied && DriverIdle(s, s.items[i].input.session) &&
                s.items[i].expires.Some? && s.items[i].expires.value <= s.drivers.now)
  {
    if op.SettleRun? || op.SettleUndelivered? || op.SettleNotRun? {
      SettlingAuthority(s, op, i);
    } else if op.SettleOrphans? {
      OrphanAuthority(s, op, i);
    } else if !op.DeliveryFailed? && !op.RebindClaims? {
      OthersLeaveClaimed(s, op, i);
    }
  }

  lemma SettlingAuthority(s: Store, op: Op, i: nat)
    requires Touched(s, op, i) && (op.SettleRun? || op.SettleUndelivered? || op.SettleNotRun?)
    ensures OwnFence(s, s.items[i]) && Fenced(s, op.l) && Matches(HeldBy(op.l), i, s.items[i])
  {
    if op.SettleRun? {
      RewrittenRow(s.items, HeldBy(op.l), ToSettled(op.result, op.outcome), i);
    } else if op.SettleUndelivered? {
      ClosedRow(s, HeldBy(op.l).(ids := Some(op.failed)), "delivery_error", op.closeTurn, i);
    } else {
      ClosedRow(s, HeldBy(op.l), "not_run", true, i);
    }
  }

  lemma OthersLeaveClaimed(s: Store, op: Op, i: nat)
    requires RowsOk(s) && i < |s.items| && s.items[i].state == Claimed
    requires op.Drive? || op.AcceptInput? || op.Claim? || op.Cancel?
    ensures !Touched(s, op, i)
  {
    if op.Claim? {
      ClaimLeavesClaimed(s, op.l, op.step, op.choice, op.held, op.ready, i);
    } else if op.Cancel? {
      RewrittenRow(s.items, Queued(op.session, op.user).(ids := op.ids), ToCanceled, i);
    }
  }

  lemma RewrittenRow(items: seq<Item>, q: Where, change: Change, i: nat)
    requires i < |items|
    ensures Rewrite(items, All(items, q), change)[i] ==
            if Matches(q, i, items[i]) then Apply(change, items[i]) else items[i]
  {
    AllIsExact(items, q);
  }

  lemma ClosedRow(s: Store, q: Where, outcome: string, closeTurn: bool, i: nat)
    requires i < |s.items|
    ensures |CloseNeverRan(s, All(s.items, q), outcome, closeTurn).s.items| == |s.items|
    ensures CloseNeverRan(s, All(s.items, q), outcome, closeTurn).s.items[i] == s.items[i] || Matches(q, i, s.items[i])
  {
    RewrittenRow(s.items, q, ToSettled(if closeTurn then Some(s.nextMessage) else None, outcome), i);
  }

  lemma OrphanAuthority(s: Store, op: Op, i: nat)
    requires op.SettleOrphans? && Touched(s, op, i)
    ensures DriverIdle(s, s.items[i].input.session) && !op.executing && !op.replied
    ensures s.items[i].expires.Some? && s.items[i].expires.value <= s.drivers.now
  {
    AllIsExact(s.items, OwnedBy(op.session, op.user, op.run, op.generation));
    assert i in All(s.items, OwnedBy(op.session, op.user, op.run, op.generation));
  }

  lemma ClaimLeavesClaimed(s: Store, l: Driver.RunLease, step: int, choice: Choice, held: bool, ready: set<string>,
                           i: nat)
    requires RowsOk(s) && i < |s.items| && s.items[i].state != Accepted
    ensures ClaimOnce(s, l, step, choice, held, ready).s.items[i] == s.items[i]
  {
    if step >= 1 && Fenced(s, l) && !held {
      SelectedDistinct(s.items, l.session, l.user, choice);
      ClaimTouchesRows(s, l, Selected(s.items, l.session, l.user, choice), ready, i);
    }
  }

  lemma ClaimTouchesRows(s: Store, l: Driver.RunLease, rows: seq<nat>, ready: set<string>, i: nat)
    requires l.session in s.drivers.rows && InRange(rows, s.items) && Distinct(rows) && i < |s.items| && i !in rows
    ensures |ClaimSelected(s, l, rows, ready).s.items| == |s.items|
    ensures ClaimSelected(s, l, rows, ready).s.items[i] == s.items[i]
  {
    if rows != [] {
      StampPointwise(s.items, rows, |rows|, l, s.nextMessage, TurnOf(s, l, |rows|), s.drivers.now + CLAIM_SECONDS);
      assert rows[..|rows|] == rows;
    }
  }
}

// Claims and driver generations: a claim belongs to a generation its session really had, follows
// takeovers forward only, and is never taken from a live owner.
module InboxGenerations {
  import opened Common
  import opened Inbox
  import opened InboxRuns
  import Driver
  import DriverRuns

  // Every caller rebinds the claims of a record to a lease on that record's own session.
  predicate Paired(op: Op) {
    op.RebindClaims? ==> op.record.session == op.l.session && op.record.user == op.l.user
  }

  predicate AllPaired(ops: seq<Op>) {
    forall k :: 0 <= k < |ops| ==> Paired(ops[k])
  }

  // The claiming generation is the driver's current one, under its own run while that is live, or an earlier one.
  predicate OwnerOk(w: Driver.World, i: Item) {
    i.state == Claimed ==>
      var s := i.input.session;
      && i.run.Some? && i.generation.Some? && s in w.rows
      && i.generation.value <= w.rows[s].generation
      && (w.rows[s].generation == i.generation.value && Driver.Live(w.rows[s], w.now) ==>
            w.rows[s].run == i.run && w.rows[s].user == i.input.user)
  }

  ghost predicate OwnersOk(s: Store) {
    DriverRuns.RowsOwned(s.drivers) && forall i :: 0 <= i < |s.items| ==> OwnerOk(s.drivers, s.items[i])
  }

  // Only driver steps and claims touch the driver rows, and a claim only names the trigger.
  lemma StepKeepsRowsOwned(s: Store, op: Op)
    requires DriverRuns.RowsOwned(s.drivers)
    ensures DriverRuns.RowsOwned(Step(s, op).drivers)
  {
    if op.Drive? {
      DriverRuns.StepKeepsOwned(s.drivers, op.op);
    }
  }

  lemma DriveKeepsOwner(w: Driver.World, op: DriverRuns.Op, i: Item)
    requires OwnerOk(w, i)
    ensures OwnerOk(DriverRuns.Step(w, op), i)
  {
    DriverRuns.StepFencing(w, op, i.input.session);
  }

  // Under the fence of l, any row of its session may be given to l; other rows keep their owner.
  lemma FencedOwner(w: Driver.World, l: Driver.RunLease, i: Item)
    requires Driver.Fence(w, l.session, l.user, l.run, l.generation)
    requires i.input.session == l.session && i.input.user == l.user
    requires i.run == Some(l.run) && i.generation == Some(l.generation)
    ensures OwnerOk(w, i)
  {
  }

  lemma BindingKeepsOwner(w: Driver.World, l: Driver.RunLease, message: MessageId, i: Item)
    requires OwnerOk(w, i)
    ensures OwnerOk(Driver.BindTriggerLocked(w, l.session, l.user, l.run, l.generation, message).w, i)
  {
  }

  // Every step but a driver step or a claim leaves a row's owner alone, settles it, or hands it to a fenced lease.
  lemma StepKeepsOwners(s: Store, op: Op)
    requires Inv(s) && OwnersOk(s) && Paired(op)
    ensures OwnersOk(Step(s, op))
  {
    StepKeepsInv(s, op);
    StepKeepsRowsOwned(s, op);
    forall i | 0 <= i < |Step(s, op).items| ensures OwnerOk(Step(s, op).drivers, Step(s, op).items[i]) {
      if i < |s.items| {
        RowKeepsOwner(s, op, i);
      }
    }
  }

  lemma RowKeepsOwner(s: Store, op: Op, i: nat)
    requires Inv(s) && Paired(op) && i < |s.items| && OwnerOk(s.drivers, s.items[i])
    requires RowsNext(s, Step(s, op))
    ensures OwnerOk(Step(s, op).drivers, Step(s, op).items[i])
  {
    if op.Drive? {
      DriveKeepsOwner(s.drivers, op.op, s.items[i]);
    } else if op.Claim? {
      ClaimKeepsOwner(s, op.l, op.step, op.choice, op.held, op.ready, i);
    } else if op.RebindClaims? {
      RebindKeepsOwner(s, op.record, op.l, i);
    } else {
      SameOwner(s, op, i);
    }
  }

  lemma SameOwner(s: Store, op: Op, i: nat)
    requires i < |s.items| && !op.Drive? && !op.Claim? && !op.RebindClaims?
    requires RowsNext(s, Step(s, op))
    ensures Step(s, op).drivers == s.drivers
    ensures var a, b := s.items[i], Step(s, op).items[i];
            b.state == Claimed ==> a.state == Claimed && b.run == a.run && b.generation == a.generation
  {
    assert Next(s.items[i], Step(s, op).items[i]);
    if op.SettleUndelivered? || op.SettleNotRun? || op.SettleOrphans? {
      ClosingKeepsOwner(s, op, i);
    }
  }

  lemma ClosingKeepsOwner(s: Store, op: Op, i: nat)
    requires i < |s.items| && (op.SettleUndelivered? || op.SettleNotRun? || op.SettleOrphans?)
    ensures Step(s, op).drivers == s.drivers && i < |Step(s, op).items|
    ensures var a, b := s.items[i], Step(s, op).items[i];
            (b.state == Settled || b.state == a.state) && b.run == a.run && b.generation == a.generation
  {
  }

  lemma ClaimKeepsOwner(s: Store, l: Driver.RunLease, step: int, choice: Choice, held: bool, ready: set<string>, i: nat)
    requires Inv(s) && i < |s.items| && OwnerOk(s.drivers, s.items[i])
    ensures i < |ClaimOnce(s, l, step, choice, held, ready).s.items|
    ensures OwnerOk(ClaimOnce(s, l, step, choice, held, ready).s.drivers,
                    ClaimOnce(s, l, step, choice, held, ready).s.items[i])
  {
    if step >= 1 && Fenced(s, l) && !held {
      var rows := Selected(s.items, l.session, l.user, choice);
      SelectedDistinct(s.items, l.session, l.user, choice);
      if i in rows {
        SelectedHere(s.items, l.session, l.user, choice, i);
      }
      RowsKeepOwner(s, l, rows, ready, i);
    }
  }

  lemma SelectedHere(items: seq<Item>, session: string, user: string, choice: Choice, i: nat)
    requires i in Selected(items, session, user, choice)
    ensures i < |items| && items[i].input.session == session && items[i].input.user == user
  {
  }

  lemma RowsKeepOwner(s: Store, l: Driver.RunLease, rows: seq<nat>, ready: set<string>, i: nat)
    requires RowsOk(s) && Fenced(s, l) && InRange(rows, s.items) && Distinct(rows) && i < |s.items|
    requires forall k :: 0 <= k < |rows| ==> s.items[rows[k]].state == Accepted
    requires OwnerOk(s.drivers, s.items[i])
    requires i in rows ==> s.items[i].input.session == l.session && s.items[i].input.user == l.user
    ensures i < |ClaimSelected(s, l, rows, ready).s.items|
    ensures OwnerOk(ClaimSelected(s, l, rows, ready).s.drivers, ClaimSelected(s, l, rows, ready).s.items[i])
  {
    if rows != [] {
      var turn := TurnOf(s, l, |rows|);
      StampedRow(s, rows, l, turn, s.drivers.now + CLAIM_SECONDS, i);
      var after := Stamp(s.items, rows, |rows|, l, s.nextMessage, turn, s.drivers.now + CLAIM_SECONDS)[i];
      if i in rows {
        FencedOwner(s.drivers, l, after);
      }
      BindingKeepsOwner(s.drivers, l, turn, after);
    }
  }

  lemma RebindKeepsOwner(s: Store, record: Driver.RecoveredDriver, l: Driver.RunLease, i: nat)
    requires i < |s.items| && OwnerOk(s.drivers, s.items[i]) && record.session == l.session && record.user == l.user
    ensures i < |Rebind(s, record, l).s.items|
    ensures OwnerOk(Rebind(s, record, l).s.drivers, Rebind(s, record, l).s.items[i])
  {
    if Fenced(s, l) && record.run.Some? {
      var q := OwnedBy(record.session, record.user, record.run.value, record.generation);
      RewrittenRow(s.items, q, ToOwner(l.run, l.generation, s.drivers.now + CLAIM_SECONDS), i);
      if Matches(q, i, s.items[i]) {
        FencedOwner(s.drivers, l, Rebind(s, record, l).s.items[i]);
      }
    }
  }

  // ---- theorems

  lemma {:induction false} RunKeepsOwners(s: Store, ops: seq<Op>)
    requires Inv(s) && OwnersOk(s) && AllPaired(ops)
    ensures Inv(Run(s, ops)) && OwnersOk(Run(s, ops))
    decreases |ops|
  {
    if ops == [] {
    } else {
      StepKeepsInv(s, ops[0]);
      StepKeepsOwners(s, ops[0]);
      RunKeepsOwners(Step(s, ops[0]), ops[1..]);
    }
  }

  // Rebinding touches exactly rows claimed under the record's run and generation, behind the fence of l.
  lemma RebindSelects(s: Store, record: Driver.RecoveredDriver, l: Driver.RunLease, i: nat)
    requires Touched(s, RebindClaims(record, l), i)
    ensures Fenced(s, l) && record.run.Some?
    ensures Matches(OwnedBy(record.session, record.user, record.run.value, record.generation), i, s.items[i])
    ensures Rebind(s, record, l).s.items[i] ==
            Apply(ToOwner(l.run, l.generation, s.drivers.now + CLAIM_SECONDS), s.items[i])
  {
    var change := ToOwner(l.run, l.generation, s.drivers.now + CLAIM_SECONDS);
    if record.run.Some? {
      RewrittenRow(s.items, OwnedBy(record.session, record.user, record.run.value, record.generation), change, i);
    } else {
      NothingRewritten(s.items, change, i);
    }
  }

  lemma NothingRewritten(items: seq<Item>, change: Change, i: nat)
    requires i < |items|
    ensures Rewrite(items, [], change)[i] == items[i]
  {
  }

  // The claim i belongs to a generation of another lease that may still write.
  predicate TakesLiveClaim(s: Store, l: Driver.RunLease, i: nat)
    requires i < |s.items|
  {
    var row := s.items[i];
    && row.run.Some? && row.generation.Some?
    && !DriverRuns.Dead(s.drivers, row.input.session, row.generation.value)
    && (row.input.session, row.run.value, row.generation.value) != (l.session, l.run, l.generation)
  }

  // The record names another session, whose run is live: something its caller can see.
  predicate LiveElsewhere(s: Store, record: Driver.RecoveredDriver, l: Driver.RunLease) {
    record.session != l.session && record.run.Some? &&
    Driver.Fence(s.drivers, record.session, record.user, record.run.value, record.generation)
  }

  // In every state reached with paired rebindings, a further rebinding, paired or not, takes a claim from a
  // generation that may still write if and only if its record names another session whose run is live.
  lemma RebindingTakesALiveClaimExactly(limit: int, now: Time, ops: seq<Op>, record: Driver.RecoveredDriver,
                                        l: Driver.RunLease, i: nat)
    requires AllPaired(ops) && Touched(Run(Init(limit, now), ops), RebindClaims(record, l), i)
    ensures var s := Run(Init(limit, now), ops);
            TakesLiveClaim(s, l, i) <==> LiveElsewhere(s, record, l)
  {
    var s := Run(Init(limit, now), ops);
    RunKeepsOwners(Init(limit, now), ops);
    assert OwnerOk(s.drivers, s.items[i]);
    RebindSelects(s, record, l, i);
  }

  // So a takeover that rebinds to a lease on the record's own session takes claims only from generations that
  // can never write again, or from itself.
  lemma RebindingTakesOnlyDeadClaims(limit: int, now: Time, ops: seq<Op>, record: Driver.RecoveredDriver,
                                     l: Driver.RunLease, i: nat)
    requires AllPaired(ops) && Paired(RebindClaims(record, l))
    requires Touched(Run(Init(limit, now), ops), RebindClaims(record, l), i)
    ensures !TakesLiveClaim(Run(Init(limit, now), ops), l, i)
  {
    RebindingTakesALiveClaimExactly(limit, now, ops, record, l, i);
  }

  function ClaimGeneration(i: Item): nat { if i.generation.Some? then i.generation.value else 0 }

  predicate Backward(s: Store, op: Op, i: nat) {
    op.RebindClaims? && Touched(s, op, i) && op.l.generation < op.record.generation
  }

  // A row's claim generation goes down in one transaction exactly when it is rebound from a record to a
  // lease of a smaller generation.
  lemma GoesBackExactly(s: Store, op: Op, i: nat)
    requires Inv(s) && i < |s.items|
    ensures i < |Step(s, op).items|
    ensures ClaimGeneration(Step(s, op).items[i]) < ClaimGeneration(s.items[i]) <==> Backward(s, op, i)
  {
    StepKeepsInv(s, op);
    assert Next(s.items[i], Step(s, op).items[i]);
    if op.RebindClaims? && Touched(s, op, i) {
      RebindSelects(s, op.record, op.l, i);
    } else {
      OthersGoForward(s, op, i);
    }
  }

  lemma OthersGoForward(s: Store, op: Op, i: nat)
    requires Inv(s) && i < |s.items| && i < |Step(s, op).items| && Next(s.items[i], Step(s, op).items[i])
    requires !(op.RebindClaims? && Touched(s, op, i))
    ensures ClaimGeneration(s.items[i]) <= ClaimGeneration(Step(s, op).items[i])
  {
    assert RowOk(s.items[i], s.nextMessage);
    if s.items[i].state == Claimed {
      if op.Claim? {
        ClaimLeavesClaimed(s, op.l, op.step, op.choice, op.held, op.ready, i);
      } else if !op.Drive? && !op.RebindClaims? {
        SettledOwner(s, op, i);
      }
    }
  }

  // Settling keeps the fence the row was claimed under.
  lemma SettledOwner(s: Store, op: Op, i: nat)
    requires i < |s.items| && s.items[i].state == Claimed && i < |Step(s, op).items|
    requires !op.Drive? && !op.RebindClaims? && !op.Claim?
    ensures Step(s, op).items[i].generation == s.items[i].generation && Step(s, op).items[i].run == s.items[i].run
  {
    if op.SettleOrphans? {
      SettledOrphan(s, op, i);
    } else if op.SettleUndelivered? || op.SettleNotRun? {
      SettledNeverRan(s, op, i);
    }
  }

  lemma SettledOrphan(s: Store, op: Op, i: nat)
    requires i < |s.items| && i < |Step(s, op).items| && op.SettleOrphans?
    ensures Step(s, op).items[i].generation == s.items[i].generation && Step(s, op).items[i].run == s.items[i].run
  {
  }

  lemma SettledNeverRan(s: Store, op: Op, i: nat)
    requires i < |s.items| && i < |Step(s, op).items| && (op.SettleUndelivered? || op.SettleNotRun?)
    ensures Step(s, op).items[i].generation == s.items[i].generation && Step(s, op).items[i].run == s.items[i].run
  {
  }

  // Every rebinding goes to a lease of no smaller generation than the record's.
  predicate AllOrdered(ops: seq<Op>) {
    forall k :: 0 <= k < |ops| && ops[k].RebindClaims? ==> ops[k].record.generation <= ops[k].l.generation
  }

  // The generations an input is claimed under never go back, from its acceptance to its settlement.
  lemma {:induction false} ClaimGenerationsNeverGoBack(s: Store, ops: seq<Op>, i: nat)
    requires Inv(s) && AllOrdered(ops) && i < |s.items|
    ensures i < |Run(s, ops).items| && ClaimGeneration(s.items[i]) <= ClaimGeneration(Run(s, ops).items[i])
    decreases |ops|
  {
    if ops == [] {
    } else {
      StepKeepsInv(s, ops[0]);
      GoesBackExactly(s, ops[0], i);
      ClaimGenerationsNeverGoBack(Step(s, ops[0]), ops[1..], i);
    }
  }

  // Rebindings to the record's own session need no such care: what they touch they move forward.
  lemma PairedMovesForward(s: Store, op: Op, i: nat)
    requires OwnersOk(s) && Paired(op) && op.RebindClaims? && Touched(s, op, i)
    ensures op.record.generation <= op.l.generation
  {
    assert OwnerOk(s.drivers, s.items[i]);
    RebindSelects(s, op.record, op.l, i);
  }

  lemma {:induction false} PairedClaimsNeverGoBack(s: Store, ops: seq<Op>, i: nat)
    requires Inv(s) && OwnersOk(s) && AllPaired(ops) && i < |s.items|
    ensures i < |Run(s, ops).items| && ClaimGeneration(s.items[i]) <= ClaimGeneration(Run(s, ops).items[i])
    decreases |ops|
  {
    if ops == [] {
    } else {
      StepKeepsInv(s, ops[0]);
      StepKeepsOwners(s, ops[0]);
      GoesBackExactly(s, ops[0], i);
      if Backward(s, ops[0], i) {
        PairedMovesForward(s, ops[0], i);
      }
      PairedClaimsNeverGoBack(Step(s, ops[0]), ops[1..], i);
    }
  }

  // ---- what a claim hands over

  // A Message appears on a row only by a fenced claim of its own session.
  lemma MessageComesFromAClaim(s: Store, op: Op, i: nat)
    requires Inv(s) && Touched(s, op, i) && s.items[i].message.None? && Step(s, op).items[i].message.Some?
    ensures op.Claim? && Fenced(s, op.l) && s.items[i].state == Accepted
    ensures s.items[i].input.session == op.l.session && s.items[i].input.user == op.l.user
  {
    StepKeepsInv(s, op);
    assert Next(s.items[i], Step(s, op).items[i]) && RowOk(s.items[i], s.nextMessage);
    if op.Claim? {
      ClaimReaches(s, op, i);
    } else if op.RebindClaims? {
      RebindSelects(s, op.record, op.l, i);
    } else if !op.Drive? {
      SameOwner(s, op, i);
    }
  }

  lemma ClaimReaches(s: Store, op: Op, i: nat)
    requires op.Claim? && Touched(s, op, i)
    ensures Fenced(s, op.l) && s.items[i].input.session == op.l.session && s.items[i].input.user == op.l.user
  {
    var rows := Selected(s.items, op.l.session, op.l.user, op.choice);
    SelectedDistinct(s.items, op.l.session, op.l.user, op.choice);
    if i in rows {
      SelectedHere(s.items, op.l.session, op.l.user, op.choice, i);
    } else if Fenced(s, op.l) {
      ClaimTouchesRows(s, op.l, rows, op.ready, i);
    }
  }

  // Every row the generation holds belongs to the turn that the driver's trigger names.
  predicate InTurn(s: Store, l: Driver.RunLease, turn: MessageId) {
    forall i :: 0 <= i < |s.items| && Matches(HeldBy(l), i, s.items[i]) ==> s.items[i].turn == Some(turn)
  }

  lemma {:induction false} OldestFinds(items: seq<Item>, q: Where, i: nat)
    requires i < |items| && Matches(q, i, items[i]) && items[i].turn.Some? && items[i].message.Some?
    ensures Oldest(items, q).Some?
    decreases |items|
  {
    if i == |items| - 1 {
    } else {
      OldestFinds(items[..|items| - 1], q, i);
    }
  }

  // Turn identity is stable across boundaries: if what a generation already holds is one turn, a further
  // claim joins that turn, and the driver's trigger names it for whoever recovers the run.
  lemma ClaimJoinsTheTurn(s: Store, l: Driver.RunLease, rows: seq<nat>, ready: set<string>, turn: MessageId)
    requires Inv(s) && Fenced(s, l) && InTurn(s, l, turn)
    requires InRange(rows, s.items) && Distinct(rows) && rows != []
    requires forall k :: 0 <= k < |rows| ==> s.items[rows[k]].state == Accepted
    requires ClaimSelected(s, l, rows, ready).out.Rows?
    ensures var after := ClaimSelected(s, l, rows, ready).s;
            && l.session in after.drivers.rows && after.drivers.rows[l.session].trigger.Some?
            && InTurn(after, l, after.drivers.rows[l.session].trigger.value)
            && ((exists i :: 0 <= i < |s.items| && Matches(HeldBy(l), i, s.items[i])) ==>
                  after.drivers.rows[l.session].trigger.value == turn)
  {
    var joined := TurnOf(s, l, |rows|);
    var after := ClaimSelected(s, l, rows, ready).s;
    forall i | 0 <= i < |s.items| && Matches(HeldBy(l), i, s.items[i]) ensures joined == turn {
      assert RowOk(s.items[i], s.nextMessage);
      OldestFinds(s.items, HeldBy(l), i);
    }
    forall i | 0 <= i < |after.items| && Matches(HeldBy(l), i, after.items[i])
      ensures after.items[i].turn == Some(joined)
    {
      StampedRow(s, rows, l, joined, s.drivers.now + CLAIM_SECONDS, i);
    }
  }
}
