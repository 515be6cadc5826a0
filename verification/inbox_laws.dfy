// What the inbox answers: a second request under a client id, a boundary, and a run of failed deliveries.
module InboxLaws {
  import opened Common
  import opened Inbox
  import opened InboxRuns
  import Driver
  import DriverRuns

  // ---- a client id stands for one request

  // The parts of a request that make it the same request. An unknown origin counts as one.
  predicate SameRequest(a: Request, b: Request) {
    && (a.delivery, a.body, a.attachments) == (b.delivery, b.body, b.attachments)
    && (OriginOf(a), a.reference) == (OriginOf(b), b.reference)
  }

  // The first was sent before origins were recorded, the second is the same human input with its origin.
  predicate SentAgainByHuman(first: Request, again: Request) {
    && OriginOf(first) == Unknown && first.reference == "" && OriginOf(again) == Human
    && (first.delivery, first.body, first.attachments) == (again.delivery, again.body, again.attachments)
  }

  lemma DigestsAreRequests(a: Request, b: Request)
    ensures DigestOf(a, OriginOf(a)) == DigestOf(b, OriginOf(b)) <==> SameRequest(a, b)
  {
  }

  lemma LegacyIsSentAgain(first: Request, again: Request, row: Item)
    requires row.input == NewItem(first).input
    ensures LegacyRetry(again, row) <==> SentAgainByHuman(first, again)
  {
  }

  // Over every run after a request was accepted: its client id answers the first receipt to the same request and
  // to its human repetition, and a conflict to any other, for ever, changing nothing.
  lemma ClientIdStandsForOneRequest(s: Store, first: Request, linked: bool, ready: set<string>, ops: seq<Op>,
                                    again: Request, linked': bool, ready': set<string>)
    requires Inv(s) && first.client.Some?
    requires Accept(s, first, true, linked, ready).out.Receipt? && Accept(s, first, true, linked, ready).out.created
    requires (again.session, again.user, again.client) == (first.session, first.user, first.client)
    requires OriginOf(again) == TaskResult ==> again.delivery == Followup
    ensures var after := Run(Accept(s, first, true, linked, ready).s, ops);
            var id := Accept(s, first, true, linked, ready).out.id;
            Accept(after, again, true, linked', ready') ==
            Reply(after, if SameRequest(first, again) || SentAgainByHuman(first, again) then Receipt(id, false)
                         else Conflict)
  {
    var accepted := Accept(s, first, true, linked, ready);
    var after := Run(accepted.s, ops);
    AcceptStep(s, first, true, linked, ready);
    RowsOnlyMoveForward(accepted.s, ops, accepted.out.id);
    RunKeepsInv(accepted.s, ops);
    SessionKeepsOwner(accepted.s, ops, first.session, first.user);
    TheRowOfTheClient(after, again, accepted.out.id);
    DigestsAreRequests(first, again);
    LegacyIsSentAgain(first, again, after.items[accepted.out.id]);
  }

  lemma TheRowOfTheClient(s: Store, r: Request, id: nat)
    requires ClientsUnique(s) && id < |s.items| && SameSender(s.items[id], r)
    ensures Existing(s.items, r) == [id]
  {
    var q := AnyOf(r.session, r.user).(client := r.client);
    FirstFinds(s.items, q, id);
    var found := First(s.items, q, 1);
    assert SameClient(s.items[found[0]], s.items[id]);
  }

  // An owner's valid request under a new client id, or none, whose attachments are ready, is always accepted, with
  // the origin it names; a linked session takes those of the system alone.
  lemma NewRequestIsAccepted(s: Store, r: Request, linked: bool, ready: set<string>)
    requires Driver.OwnedSession(s.drivers, r.session, r.user) && (r.origin == TaskResult ==> r.delivery == Followup)
    requires forall a :: a in r.attachments ==> a in ready
    requires linked ==> r.origin == SystemRecovery || (r.system && r.origin == Unknown)
    requires forall i :: 0 <= i < |s.items| ==> !SameSender(s.items[i], r)
    ensures Accept(s, r, true, linked, ready) == Reply(s.(items := s.items + [NewItem(r)]), Receipt(|s.items|, true))
    ensures r.origin != Unknown ==> NewItem(r).input.origin == r.origin
    ensures r.origin == Unknown ==> NewItem(r).input.origin == if r.system then SystemRecovery else Unknown
  {
    SomeElement(Existing(s.items, r));
  }

  // ---- what a boundary takes

  // Row i matches, and fewer than `limit` matching rows stand before it.
  predicate AmongFirst(items: seq<Item>, q: Where, limit: nat, i: nat) {
    i < |items| && Matches(q, i, items[i]) && Count(items, q, 0, i) < limit
  }

  predicate Exists(items: seq<Item>, q: Where) {
    exists i :: 0 <= i < |items| && Matches(q, i, items[i])
  }

  function ClaimedReport(session: string, user: string): Where {
    AnyOf(session, user).(state := Some(Claimed), origins := Some({TaskResult}))
  }

  // The row a report would be: the first waiting next-turn row, when a task result sent it.
  predicate ReportIsNext(items: seq<Item>, session: string, user: string) {
    exists i :: 0 <= i < |items| && AmongFirst(items, Waiting(session, user, NextTurn), 1, i) &&
                items[i].input.origin == TaskResult
  }

  // Which rows a boundary takes. Nothing while a report is being answered. While a card is pending, only the
  // oldest waiting human next-turn row, and only where a turn may start. Otherwise the first 32 waiting
  // next-step rows and, where a turn may start, the oldest next-turn row, but a report never shares a turn.
  predicate Takes(items: seq<Item>, session: string, user: string, nextTurn: bool, blocked: bool, i: nat) {
    var steps, turns := Waiting(session, user, NextStep), Waiting(session, user, NextTurn);
    && !Exists(items, ClaimedReport(session, user))
    && if blocked then nextTurn && AmongFirst(items, turns.(origins := Some({Human, Unknown})), 1, i)
       else || AmongFirst(items, steps, 32, i)
            || (nextTurn && AmongFirst(items, turns, 1, i) &&
                !(ReportIsNext(items, session, user) && Exists(items, steps)))
  }

  // Followups wait for a turn of their own; steers and injections for the next step of any.
  lemma WaitingRows(session: string, user: string, id: nat, i: Item)
    ensures var waits := i.state == Accepted && (i.input.session, i.input.user) == (session, user);
            && (Matches(Waiting(session, user, NextTurn), id, i) <==> waits && i.input.digest.delivery == Followup)
            && (Matches(Waiting(session, user, NextStep), id, i) <==>
                  waits && (i.input.digest.delivery == Steer || i.input.digest.delivery == Inject))
  {
  }

  lemma NoneFound(items: seq<Item>, q: Where, limit: nat)
    requires limit > 0
    ensures First(items, q, limit) == [] <==> !Exists(items, q)
  {
    if i :| 0 <= i < |items| && Matches(q, i, items[i]) {
      LimitedFinds(items, q, limit, i);
    }
    SomeElement(First(items, q, limit));
  }

  lemma {:induction false} LimitedFinds(items: seq<Item>, q: Where, limit: nat, i: nat)
    requires limit > 0 && i < |items| && Matches(q, i, items[i])
    ensures First(items, q, limit) != []
    decreases i
  {
    PickIsFifo(items, q, limit, 0, i);
    if Count(items, q, 0, i) == 0 {
    } else {
      var j := CountedOne(items, q, i);
      LimitedFinds(items, q, limit, j);
    }
  }

  lemma PickedExactly(items: seq<Item>, q: Where, limit: nat, i: nat)
    ensures i in First(items, q, limit) <==> AmongFirst(items, q, limit, i)
  {
    if i < |items| {
      PickIsFifo(items, q, limit, 0, i);
    }
  }

  lemma ReportHead(items: seq<Item>, session: string, user: string)
    ensures var turns := First(items, Waiting(session, user, NextTurn), 1);
            turns != [] && items[turns[0]].input.origin == TaskResult <==> ReportIsNext(items, session, user)
  {
    var q := Waiting(session, user, NextTurn);
    var turns := First(items, q, 1);
    if turns != [] {
      PickedExactly(items, q, 1, turns[0]);
    }
    if i :| 0 <= i < |items| && AmongFirst(items, q, 1, i) && items[i].input.origin == TaskResult {
      PickedExactly(items, q, 1, i);
    }
  }

  // A boundary takes exactly these rows, steps before the turn and each kind in queue order.
  lemma BoundaryIsExact(items: seq<Item>, session: string, user: string, nextTurn: bool, blocked: bool, i: nat)
    ensures i in Selected(items, session, user, Boundary(nextTurn, blocked)) <==>
            Takes(items, session, user, nextTurn, blocked, i)
  {
    var steps, turns := Waiting(session, user, NextStep), Waiting(session, user, NextTurn);
    NoneFound(items, ClaimedReport(session, user), 1);
    PickedExactly(items, turns.(origins := Some({Human, Unknown})), 1, i);
    PickedExactly(items, steps, 32, i);
    PickedExactly(items, turns, 1, i);
    NoneFound(items, steps, 32);
    ReportHead(items, session, user);
  }

  lemma BoundaryIsOrdered(items: seq<Item>, session: string, user: string, nextTurn: bool, blocked: bool, j: nat,
                          k: nat)
    requires j < k < |Selected(items, session, user, Boundary(nextTurn, blocked))|
    ensures var rows := Selected(items, session, user, Boundary(nextTurn, blocked));
            && TargetOf(items[rows[j]].input.digest.delivery) == NextStep
            && (TargetOf(items[rows[k]].input.digest.delivery) == NextStep ==> rows[j] < rows[k])
  {
    var rows := Selected(items, session, user, Boundary(nextTurn, blocked));
    var steps := First(items, Waiting(session, user, NextStep), MAX_STEP_BATCH);
    if !blocked && k >= |steps| {
      assert |rows| <= |steps| + 1;
    }
  }

  // An assistant session's boundary takes the row its scheduler picked, if that row still waits there.
  lemma MainTurnIsExact(items: seq<Item>, session: string, user: string, picked: Option<nat>, i: nat)
    ensures i in Selected(items, session, user, MainTurn(picked)) <==>
            picked == Some(i) && i < |items| && Matches(Queued(session, user), i, items[i])
  {
    if picked.Some? {
      var q := Queued(session, user).(ids := Some({picked.value}));
      PickedExactly(items, q, 1, i);
      if i < |items| && Count(items, q, 0, i) > 0 {
        var j := CountedOne(items, q, i);
      }
    }
  }

  // ---- what a claim does

  // The k-th taken row is claimed for the lease with the k-th new Message, all under one turn and for five
  // minutes; the driver's trigger names the turn; nothing else changes.
  predicate ClaimedExactly(before: Store, after: Store, l: Driver.RunLease, rows: seq<nat>, turn: MessageId)
    requires l.session in before.drivers.rows
  {
    && |after.items| == |before.items| && after.nextMessage == before.nextMessage + |rows|
    && after.drivers == before.drivers.(rows :=
         before.drivers.rows[l.session := before.drivers.rows[l.session].(trigger := Some(turn))])
    && (forall k :: 0 <= k < |rows| ==> ClaimedAs(before, after, l, rows, turn, k))
    && (forall i :: 0 <= i < |before.items| && i !in rows ==> after.items[i] == before.items[i])
  }

  predicate ClaimedAs(before: Store, after: Store, l: Driver.RunLease, rows: seq<nat>, turn: MessageId, k: nat)
    requires k < |rows|
  {
    rows[k] < |before.items| && rows[k] < |after.items| &&
    after.items[rows[k]] == before.items[rows[k]].(
      state := State.Claimed, message := Some(before.nextMessage + k), turn := Some(turn), run := Some(l.run),
      generation := Some(l.generation), expires := Some(before.drivers.now + 300))
  }

  predicate AllAvailable(items: seq<Item>, rows: seq<nat>, ready: set<string>) {
    forall i :: i in rows ==> i < |items| && Available(items[i], ready)
  }

  // A fenced claim whose taken rows all have their attachments takes them all.
  lemma ClaimIsExact(s: Store, l: Driver.RunLease, step: int, choice: Choice, ready: set<string>)
    requires step >= 1 && Fenced(s, l) && Selected(s.items, l.session, l.user, choice) != []
    requires AllAvailable(s.items, Selected(s.items, l.session, l.user, choice), ready)
    ensures var rows := Selected(s.items, l.session, l.user, choice);
            var claimed := ClaimOnce(s, l, step, choice, false, ready);
            claimed.out == Rows(rows) && ClaimedExactly(s, claimed.s, l, rows, TurnOf(s, l, |rows|))
  {
    var rows := Selected(s.items, l.session, l.user, choice);
    SelectedDistinct(s.items, l.session, l.user, choice);
    NothingBroken(s.items, rows, ready);
    MaterializedExactly(s, l, rows);
  }

  lemma NothingBroken(items: seq<Item>, rows: seq<nat>, ready: set<string>)
    requires InRange(rows, items) && AllAvailable(items, rows, ready)
    ensures BrokenRows(items, rows, ready) == []
  {
    SomeElement(BrokenRows(items, rows, ready));
  }

  // Row j is of this turn, and the lease holds nothing with an older Message.
  predicate OldestHeld(s: Store, l: Driver.RunLease, turn: MessageId, j: int) {
    && 0 <= j < |s.items| && Matches(HeldBy(l), j, s.items[j]) && s.items[j].turn == Some(turn)
    && s.items[j].message.Some?
    && forall i :: 0 <= i < |s.items| && Matches(HeldBy(l), i, s.items[i]) && s.items[i].message.Some? ==>
         s.items[j].message.value <= s.items[i].message.value
  }

  lemma {:induction false} OldestIsOldest(items: seq<Item>, q: Where, i: nat)
    requires i < |items| && Matches(q, i, items[i]) && items[i].turn.Some? && items[i].message.Some?
    ensures Oldest(items, q).Some?
    ensures items[Oldest(items, q).value].message.value <= items[i].message.value
    decreases |items|
  {
    if i == |items| - 1 {
    } else {
      OldestIsOldest(items[..|items| - 1], q, i);
    }
  }

  // The turn of a claim is that of the oldest row the lease already holds; when it holds nothing, the one the
  // trigger names, or else that of the last new Message.
  lemma ClaimsTheOpenTurn(s: Store, l: Driver.RunLease, count: nat)
    requires RowsOk(s) && l.session in s.drivers.rows && count > 0
    ensures var trigger := s.drivers.rows[l.session].trigger;
            if Exists(s.items, HeldBy(l)) then exists j :: OldestHeld(s, l, TurnOf(s, l, count), j)
            else TurnOf(s, l, count) == if trigger.Some? then trigger.value else s.nextMessage + count - 1
  {
    forall i | 0 <= i < |s.items| && Matches(HeldBy(l), i, s.items[i])
      ensures Oldest(s.items, HeldBy(l)).Some? && s.items[i].message.Some?
      ensures s.items[Oldest(s.items, HeldBy(l)).value].message.value <= s.items[i].message.value
    {
      assert RowOk(s.items[i], s.nextMessage);
      OldestIsOldest(s.items, HeldBy(l), i);
    }
    if Exists(s.items, HeldBy(l)) {
      assert OldestHeld(s, l, TurnOf(s, l, count), Oldest(s.items, HeldBy(l)).value);
    }
  }

  lemma MaterializedExactly(s: Store, l: Driver.RunLease, rows: seq<nat>)
    requires Fenced(s, l) && InRange(rows, s.items) && Distinct(rows) && rows != []
    ensures ClaimedExactly(s, Materialize(s, l, rows), l, rows, TurnOf(s, l, |rows|))
  {
    StampPointwise(s.items, rows, |rows|, l, s.nextMessage, TurnOf(s, l, |rows|), s.drivers.now + CLAIM_SECONDS);
    assert rows[..|rows|] == rows;
  }

  // ---- closing writes are granted

  lemma ClaimsHaveMessages(s: Store, q: Where)
    requires RowsOk(s) && q.state == Some(State.Claimed)
    ensures Materialized(s.items, All(s.items, q))
  {
    var rows := All(s.items, q);
    forall k | 0 <= k < |rows| ensures rows[k] < |s.items| && s.items[rows[k]].message.Some? {
      assert RowOk(s.items[rows[k]], s.nextMessage);
    }
  }

  // In every reachable state the holder of the fence may settle, refuse or give up everything it holds: no
  // claim is ever found without its Message.
  lemma HolderMaySettle(s: Store, l: Driver.RunLease, result: Option<MessageId>, outcome: string, ids: set<nat>,
                        closeTurn: bool)
    requires RowsOk(s) && Fenced(s, l)
    ensures SettleClaimed(s, l, result, true, outcome).out == Rows(All(s.items, HeldBy(l)))
    ensures SettleRefused(s, l).out == Rows(All(s.items, HeldBy(l)))
    ensures ids != {} ==>
              SettleDeliveryFailures(s, l, ids, closeTurn).out == Rows(All(s.items, HeldBy(l).(ids := Some(ids))))
  {
    ClaimsHaveMessages(s, HeldBy(l));
    ClaimsHaveMessages(s, HeldBy(l).(ids := Some(ids)));
  }

  // Nor may the expired, unanswered claims of a vanished generation be left behind once no driver runs.
  lemma VanishedClaimsAreClosed(s: Store, session: string, user: string, run: RunId, generation: nat)
    requires RowsOk(s) && Driver.OwnedSession(s.drivers, session, user)
    requires session in s.drivers.rows ==>
               s.drivers.rows[session].phase == Driver.Idle && s.drivers.rows[session].run == None
    requires forall i :: 0 <= i < |s.items| && Matches(OwnedBy(session, user, run, generation), i, s.items[i]) ==>
               s.items[i].expires.Some? && s.items[i].expires.value <= s.drivers.now
    ensures SettleUnstarted(s, session, user, run, generation, false, false).out ==
            Rows(All(s.items, OwnedBy(session, user, run, generation)))
  {
    ClaimsHaveMessages(s, OwnedBy(session, user, run, generation));
  }

  // ---- failed deliveries

  function Fails(s: Store, l: Driver.RunLease, id: nat, times: nat): Reply
    requires times > 0
  {
    if times == 1 then RecordDeliveryFailure(s, l, id, true)
    else RecordDeliveryFailure(Fails(s, l, id, times - 1).s, l, id, true)
  }

  // A claimed input that was never tried before is given up at its third retryable failure and not sooner, and
  // at any failure that cannot be retried.
  lemma {:induction false} GivenUpAtTheThirdFailure(s: Store, l: Driver.RunLease, id: nat, times: nat)
    requires Fenced(s, l) && id < |s.items| && Matches(HeldBy(l), id, s.items[id]) && s.items[id].attempts == 0
    requires 1 <= times <= 3
    ensures Fails(s, l, id, times) ==
            Reply(s.(items := s.items[id := s.items[id].(attempts := times)]), Failure(times, times == 3))
    ensures RecordDeliveryFailure(s, l, id, false).out == Failure(1, true)
  {
    if times == 1 {
    } else {
      GivenUpAtTheThirdFailure(s, l, id, times - 1);
    }
  }
}
