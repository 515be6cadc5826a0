// Why canceling broken rows and selecting again ends with the first available rows of the queue.
module InboxClaims {
  import opened Common
  import opened Inbox
  import Driver

  // What the retry loop may have done so far: nothing but cancel broken waiting rows of this session.
  predicate Purged(before: seq<Item>, after: seq<Item>, session: string, user: string, ready: set<string>) {
    |after| == |before| && forall i :: 0 <= i < |before| ==> PurgedRow(i, before[i], after[i], session, user, ready)
  }

  predicate PurgedRow(id: nat, before: Item, after: Item, session: string, user: string, ready: set<string>) {
    after == before ||
    (after == Apply(ToCanceled, before) && Matches(Queued(session, user), id, before) &&
     !Available(before, ready))
  }

  // The row is waiting on q, is broken, and fewer than `limit` available rows wait before it.
  predicate InTheWay(items: seq<Item>, q: Where, ready: set<string>, limit: nat, i: nat) {
    i < |items| && Matches(q, i, items[i]) && !Available(items[i], ready)
 && Count(items, q.(ready := Some(ready)), 0, i) < limit
  }

  lemma {:induction false} PurgingKeepsAvailable(before: seq<Item>, after: seq<Item>, q: Where, ready: set<string>,
                                                 until: nat)
    requires Purged(before, after, q.session, q.user, ready) && until <= |before|
    ensures Count(before, q.(ready := Some(ready)), 0, until) == Count(after, q.(ready := Some(ready)), 0, until)
  {
    if until == 0 {
    } else {
      PurgingKeepsAvailable(before, after, q, ready, until - 1);
      assert PurgedRow(until - 1, before[until - 1], after[until - 1], q.session, q.user, ready);
    }
  }

  lemma {:induction false} FewerAvailable(items: seq<Item>, q: Where, ready: set<string>, until: nat)
    requires until <= |items| && q.ready.None?
    ensures Count(items, q.(ready := Some(ready)), 0, until) <= Count(items, q, 0, until)
  {
    if until == 0 {
    } else {
      FewerAvailable(items, q, ready, until - 1);
    }
  }

  predicate AllAvailable(items: seq<Item>, rows: seq<nat>, ready: set<string>) {
    forall i :: i in rows ==> i < |items| && Available(items[i], ready)
  }

  // While every row of the window is available, the window and the available rows count alike.
  lemma {:induction false} WindowCounts(items: seq<Item>, q: Where, ready: set<string>, limit: nat, until: nat)
    requires until <= |items| && q.ready.None? && AllAvailable(items, First(items, q, limit), ready)
    ensures Count(items, q.(ready := Some(ready)), 0, until) >= Min(Count(items, q, 0, until), limit)
  {
    if until == 0 {
    } else {
      WindowCounts(items, q, ready, limit, until - 1);
      PickIsFifo(items, q, limit, 0, until - 1);
    }
  }

  // A broken row inside the window stands in the way of the original queue.
  lemma BrokenStandsInTheWay(before: seq<Item>, after: seq<Item>, q: Where, ready: set<string>, limit: nat, i: nat)
    requires Purged(before, after, q.session, q.user, ready) && q.ready.None? && q.state == Some(Accepted)
    requires i in First(after, q, limit) && i < |after| && !Available(after[i], ready)
    ensures InTheWay(before, q, ready, limit, i)
  {
    assert PurgedRow(i, before[i], after[i], q.session, q.user, ready);
    PickIsFifo(after, q, limit, 0, i);
    FewerAvailable(after, q, ready, i);
    PurgingKeepsAvailable(before, after, q, ready, i);
  }

  // Once the window holds only available rows it is the first `limit` available rows of the original
  // queue, and every row that stood in the way has been canceled.
  lemma WindowIsExact(before: seq<Item>, after: seq<Item>, q: Where, ready: set<string>, limit: nat)
    requires Purged(before, after, q.session, q.user, ready) && q.ready.None? && q.state == Some(Accepted)
    requires AllAvailable(after, First(after, q, limit), ready)
    ensures First(after, q, limit) == First(before, q.(ready := Some(ready)), limit)
    ensures forall i: nat :: InTheWay(before, q, ready, limit, i) ==> after[i] == Apply(ToCanceled, before[i])
  {
    var clean := q.(ready := Some(ready));
    forall i ensures i in First(after, q, limit) <==> i in First(before, clean, limit) {
      if 0 <= i < |before| {
        MemberIsExact(before, after, q, ready, limit, i);
      }
    }
    AscendingEqual(First(after, q, limit), First(before, clean, limit));
    forall i: nat | InTheWay(before, q, ready, limit, i) ensures after[i] == Apply(ToCanceled, before[i]) {
      assert PurgedRow(i, before[i], after[i], q.session, q.user, ready);
      if after[i] == before[i] {
        PurgingKeepsAvailable(before, after, q, ready, i);
        WindowCounts(after, q, ready, limit, i);
        PickIsFifo(after, q, limit, 0, i);
      }
    }
  }

  lemma MemberIsExact(before: seq<Item>, after: seq<Item>, q: Where, ready: set<string>, limit: nat, i: nat)
    requires Purged(before, after, q.session, q.user, ready) && q.ready.None? && q.state == Some(Accepted)
    requires AllAvailable(after, First(after, q, limit), ready) && i < |before|
    ensures i in First(after, q, limit) <==> i in First(before, q.(ready := Some(ready)), limit)
  {
    assert PurgedRow(i, before[i], after[i], q.session, q.user, ready);
    PickIsFifo(after, q, limit, 0, i);
    PickIsFifo(before, q.(ready := Some(ready)), limit, 0, i);
    PurgingKeepsAvailable(before, after, q, ready, i);
    FewerAvailable(after, q, ready, i);
    WindowCounts(after, q, ready, limit, i);
  }

  // ---- termination

  lemma {:induction false} CancelingShrinks(items: seq<Item>, rows: seq<nat>, q: Where, until: nat)
    requires until <= |items| && q.state == Some(Accepted)
    ensures Count(Rewrite(items, rows, ToCanceled), q, 0, until) <= Count(items, q, 0, until)
    ensures (exists i :: 0 <= i < until && i in rows && Matches(q, i, items[i])) ==>
              Count(Rewrite(items, rows, ToCanceled), q, 0, until) < Count(items, q, 0, until)
  {
    if until == 0 {
    } else {
      CancelingShrinks(items, rows, q, until - 1);
    }
  }

  // ---- the boundary of a session with no card pending and no task report queued

  // Reports that are settled or canceled do not matter.
  predicate PlainQueue(items: seq<Item>, session: string, user: string, choice: Choice) {
    choice.Boundary? && !choice.blocked && forall i :: 0 <= i < |items| ==> !PendingReport(items[i], session, user)
  }

  predicate PendingReport(i: Item, session: string, user: string) {
    i.input.session == session && i.input.user == user && i.input.origin == TaskResult
 && (i.state == Accepted || i.state == Claimed)
  }

  // The first 32 available next-step rows, then the first available next-turn row.
  function FirstAvailable(items: seq<Item>, session: string, user: string, nextTurn: bool,
                          ready: set<string>): seq<nat>
  {
    First(items, Waiting(session, user, NextStep).(ready := Some(ready)), MAX_STEP_BATCH) +
    if nextTurn then First(items, Waiting(session, user, NextTurn).(ready := Some(ready)), 1) else []
  }

  predicate StandsInTheWay(items: seq<Item>, session: string, user: string, nextTurn: bool,
                           ready: set<string>, i: nat)
  {
    InTheWay(items, Waiting(session, user, NextStep), ready, MAX_STEP_BATCH, i) ||
    (nextTurn && InTheWay(items, Waiting(session, user, NextTurn), ready, 1, i))
  }

  lemma NoneFound(items: seq<Item>, q: Where, limit: nat)
    requires forall i :: 0 <= i < |items| ==> !Matches(q, i, items[i])
    ensures First(items, q, limit) == []
  {
    SomeElement(First(items, q, limit));
  }

  lemma PlainSelection(before: seq<Item>, after: seq<Item>, session: string, user: string, choice: Choice,
                       ready: set<string>)
    requires PlainQueue(before, session, user, choice) && Purged(before, after, session, user, ready)
    ensures Selected(after, session, user, choice) ==
            First(after, Waiting(session, user, NextStep), MAX_STEP_BATCH) +
            if choice.nextTurn then First(after, Waiting(session, user, NextTurn), 1) else []
  {
    forall i | 0 <= i < |after| ensures !PendingReport(after[i], session, user) {
      assert PurgedRow(i, before[i], after[i], session, user, ready);
    }
    NoneFound(after, AnyOf(session, user).(state := Some(Claimed), origins := Some({TaskResult})), 1);
  }

  lemma BrokenStands(before: seq<Item>, after: seq<Item>, session: string, user: string, choice: Choice,
                     ready: set<string>, i: nat)
    requires PlainQueue(before, session, user, choice) && Purged(before, after, session, user, ready)
    requires i in Selected(after, session, user, choice) && i < |after| && !Available(after[i], ready)
    ensures StandsInTheWay(before, session, user, choice.nextTurn, ready, i)
  {
    PlainSelection(before, after, session, user, choice, ready);
    if i in First(after, Waiting(session, user, NextStep), MAX_STEP_BATCH) {
      BrokenStandsInTheWay(before, after, Waiting(session, user, NextStep), ready, MAX_STEP_BATCH, i);
    } else {
      BrokenStandsInTheWay(before, after, Waiting(session, user, NextTurn), ready, 1, i);
    }
  }

  lemma ExactBoundary(before: seq<Item>, after: seq<Item>, session: string, user: string, choice: Choice,
                      ready: set<string>)
    requires PlainQueue(before, session, user, choice) && Purged(before, after, session, user, ready)
    requires AllAvailable(after, Selected(after, session, user, choice), ready)
    ensures Selected(after, session, user, choice) == FirstAvailable(before, session, user, choice.nextTurn, ready)
    ensures forall i: nat :: StandsInTheWay(before, session, user, choice.nextTurn, ready, i) ==>
                               after[i] == Apply(ToCanceled, before[i])
  {
    PlainSelection(before, after, session, user, choice, ready);
    WindowIsExact(before, after, Waiting(session, user, NextStep), ready, MAX_STEP_BATCH);
    if choice.nextTurn {
      WindowIsExact(before, after, Waiting(session, user, NextTurn), ready, 1);
    }
  }

  // ---- the rounds of the claim loop

  function WaitingCount(items: seq<Item>, session: string, user: string): nat {
    Count(items, Queued(session, user), 0, |items|)
  }

  predicate CanceledExactly(before: seq<Item>, after: seq<Item>, session: string, user: string, nextTurn: bool,
                            ready: set<string>) {
    |after| == |before| &&
    forall i :: 0 <= i < |before| ==>
                  after[i] == if StandsInTheWay(before, session, user, nextTurn, ready, i)
                              then Apply(ToCanceled, before[i]) else before[i]
  }

  predicate Cleared(before: seq<Item>, after: seq<Item>, session: string, user: string, choice: Choice,
                    ready: set<string>) {
    && Purged(before, after, session, user, ready)
    && (PlainQueue(before, session, user, choice) ==>
          forall i :: 0 <= i < |before| && after[i] != before[i] ==>
                        StandsInTheWay(before, session, user, choice.nextTurn, ready, i))
  }

  // A round that found broken rows cancels exactly those, and fewer rows are left waiting.
  lemma Round(before: seq<Item>, s: Store, l: Driver.RunLease, step: int, choice: Choice, held: bool,
              ready: set<string>)
    requires Cleared(before, s.items, l.session, l.user, choice, ready)
    requires ClaimOnce(s, l, step, choice, held, ready).out.BadAttachment?
    ensures var broken := SetOf(ClaimOnce(s, l, step, choice, held, ready).out.broken);
            var next := CancelRows(s, l.session, l.user, Some(broken)).s;
            && next.drivers == s.drivers && next.nextMessage == s.nextMessage
            && Cleared(before, next.items, l.session, l.user, choice, ready)
            && WaitingCount(next.items, l.session, l.user) < WaitingCount(s.items, l.session, l.user)
    ensures ClaimOnce(s, l, step, choice, held, ready).s == s
  {
    var broken := BrokenRows(s.items, Selected(s.items, l.session, l.user, choice), ready);
    var waiting := Queued(l.session, l.user);
    var rows := All(s.items, waiting.(ids := Some(SetOf(broken))));
    BrokenAreFound(s.items, l.session, l.user, choice, ready);
    PurgeMore(before, s.items, l.session, l.user, choice, ready, rows);
    CancelingShrinks(s.items, rows, waiting, |s.items|);
    assert broken[0] in rows;
  }

  // Canceling by id finds exactly the broken rows of the selection.
  lemma BrokenAreFound(items: seq<Item>, session: string, user: string, choice: Choice, ready: set<string>)
    ensures var broken := BrokenRows(items, Selected(items, session, user, choice), ready);
            var waiting := Queued(session, user);
            && (forall i :: i in All(items, waiting.(ids := Some(SetOf(broken)))) <==> i in broken)
            && (forall i :: i in broken ==>
                  i in Selected(items, session, user, choice) && i < |items| && Matches(waiting, i, items[i]) &&
                  !Available(items[i], ready))
  {
    var rows := Selected(items, session, user, choice);
    var broken := BrokenRows(items, rows, ready);
    AllIsExact(items, Queued(session, user).(ids := Some(SetOf(broken))));
    forall i | i in broken
      ensures i in rows && i < |items| && Matches(Queued(session, user), i, items[i]) &&
              !Available(items[i], ready)
    {
      SelectedWaits(items, session, user, choice, i);
    }
  }

  lemma SelectedWaits(items: seq<Item>, session: string, user: string, choice: Choice, i: nat)
    requires i in Selected(items, session, user, choice)
    ensures i < |items| && Matches(Queued(session, user), i, items[i])
  {
  }

  lemma PurgeMore(before: seq<Item>, after: seq<Item>, session: string, user: string, choice: Choice,
                  ready: set<string>, rows: seq<nat>)
    requires Cleared(before, after, session, user, choice, ready)
    requires forall i :: i in rows ==> i in Selected(after, session, user, choice) && i < |after| &&
                                       !Available(after[i], ready)
    ensures Cleared(before, Rewrite(after, rows, ToCanceled), session, user, choice, ready)
  {
    var next := Rewrite(after, rows, ToCanceled);
    forall i | 0 <= i < |before| ensures PurgedRow(i, before[i], next[i], session, user, ready) {
      assert PurgedRow(i, before[i], after[i], session, user, ready);
      if i in rows {
        SelectedWaits(after, session, user, choice, i);
      }
    }
    if PlainQueue(before, session, user, choice) {
      forall i | 0 <= i < |before| && next[i] != before[i]
        ensures StandsInTheWay(before, session, user, choice.nextTurn, ready, i)
      {
        if i in rows {
          BrokenStands(before, after, session, user, choice, ready, i);
        }
      }
    }
  }

  lemma LastRound(before: seq<Item>, s: Store, l: Driver.RunLease, step: int, choice: Choice, held: bool,
                  ready: set<string>)
    requires Cleared(before, s.items, l.session, l.user, choice, ready)
    requires !ClaimOnce(s, l, step, choice, held, ready).out.BadAttachment?
    ensures var out := ClaimOnce(s, l, step, choice, held, ready).out;
            PlainQueue(before, l.session, l.user, choice) && out.Rows? && !held ==>
              && out.ids == FirstAvailable(before, l.session, l.user, choice.nextTurn, ready)
              && CanceledExactly(before, s.items, l.session, l.user, choice.nextTurn, ready)
  {
    var rows := Selected(s.items, l.session, l.user, choice);
    if PlainQueue(before, l.session, l.user, choice) && ClaimOnce(s, l, step, choice, held, ready).out.Rows? && !held {
      assert AllAvailable(s.items, rows, ready) by {
        var broken := BrokenRows(s.items, rows, ready);
        assert broken == [];
        forall i | i in rows ensures i < |s.items| && Available(s.items[i], ready) {
          assert i !in broken;
        }
      }
      ExactBoundary(before, s.items, l.session, l.user, choice, ready);
    }
  }
}

// The inbox table as workers see it: every method but the claim loop is one database transaction.
module InboxTables {
  import opened Common
  import opened Inbox
  import opened InboxClaims
  import Driver

  // Another request, and not one that was sent before origins were recorded.
  predicate Differs(i: Item, r: Request) {
    i.input.digest != DigestOf(r, OriginOf(r)) && !LegacyRetry(r, i)
  }

  // The row of a request nobody has looked at yet.
  predicate IsNew(i: Item, r: Request) {
    && (i.input.session, i.input.user, i.input.client) == (r.session, r.user, r.client)
    && i.input.digest == DigestOf(r, i.input.origin)
    && i.input.origin == (if r.origin == Unknown && r.system then SystemRecovery else r.origin)
    && i.state == Accepted && i.attempts == 0 && i.outcome == ""
    && i.message == None && i.turn == None && i.run == None && i.generation == None && i.expires == None
    && i.result == None
  }

  lemma NoneSent(items: seq<Item>, r: Request)
    requires r.client.Some? && First(items, AnyOf(r.session, r.user).(client := r.client), 1) == []
    ensures forall i :: 0 <= i < |items| ==> !SameSender(items[i], r)
  {
    forall i | 0 <= i < |items| ensures !SameSender(items[i], r) {
      if SameSender(items[i], r) {
        FirstFinds(items, AnyOf(r.session, r.user).(client := r.client), i);
      }
    }
  }

  // Exactly the rows of a query changed, each in these columns.
  predicate SettledExactly(before: seq<Item>, after: seq<Item>, q: Where, result: Option<MessageId>, outcome: string) {
    |after| == |before| && forall i :: 0 <= i < |before| ==>
      after[i] == if Matches(q, i, before[i])
                  then before[i].(state := Settled, result := result, outcome := outcome, expires := None)
                  else before[i]
  }

  predicate MovedExactly(before: seq<Item>, after: seq<Item>, q: Where, run: RunId, generation: nat, expires: Time) {
    |after| == |before| && forall i :: 0 <= i < |before| ==>
      after[i] == if Matches(q, i, before[i])
                  then before[i].(run := Some(run), generation := Some(generation), expires := Some(expires))
                  else before[i]
  }

  predicate CanceledAll(before: seq<Item>, after: seq<Item>, q: Where) {
    |after| == |before| && forall i :: 0 <= i < |before| ==>
      after[i] == if Matches(q, i, before[i]) then before[i].(state := Canceled, outcome := "canceled") else before[i]
  }

  // These are the rows of the query, in order.
  predicate Exactly(rows: seq<nat>, items: seq<Item>, q: Where) {
    && Ascending(rows)
    && (forall i :: i in rows ==> i < |items| && Matches(q, i, items[i]))
    && (forall i :: 0 <= i < |items| && Matches(q, i, items[i]) ==> i in rows)
  }

  // A close settles the query's rows with one new Message if it ends the turn, and with none otherwise.
  predicate ClosedExactly(before: Store, after: Store, q: Where, outcome: string, closeTurn: bool) {
    && after.drivers == before.drivers
    && after.nextMessage == before.nextMessage + (if closeTurn then 1 else 0)
    && SettledExactly(before.items, after.items, q, if closeTurn then Some(before.nextMessage) else None, outcome)
  }

  lemma CloseIsExact(s: Store, q: Where, outcome: string, closeTurn: bool)
    ensures var rows := All(s.items, q);
            && Exactly(rows, s.items, q)
            && (CloseNeverRan(s, rows, outcome, closeTurn).out == Rows(rows) && rows != [] ==>
                  ClosedExactly(s, CloseNeverRan(s, rows, outcome, closeTurn).s, q, outcome, closeTurn))
  {
    AllIsExact(s.items, q);
  }

  lemma MoveIsExact(items: seq<Item>, q: Where, run: RunId, generation: nat, expires: Time)
    ensures Exactly(All(items, q), items, q)
    ensures MovedExactly(items, Rewrite(items, All(items, q), ToOwner(run, generation, expires)), q, run, generation,
                         expires)
  {
    AllIsExact(items, q);
  }

  lemma SettleIsExact(items: seq<Item>, q: Where, result: Option<MessageId>, outcome: string)
    ensures Exactly(All(items, q), items, q)
    ensures SettledExactly(items, Rewrite(items, All(items, q), ToSettled(result, outcome)), q, result, outcome)
  {
    AllIsExact(items, q);
  }

  class InboxTable {
    var drivers: Driver.World
    var items: seq<Item>
    var nextMessage: MessageId

    ghost function View(): Store
      reads this
    {
      Store(drivers, items, nextMessage)
    }

    constructor (drivers: Driver.World)
      ensures View() == Store(drivers, [], 0)
    {
      this.drivers, this.items, this.nextMessage := drivers, [], 0;
    }

    method AcceptItem(r: Request, valid: bool, linked: bool, ready: set<string>) returns (out: Outcome)
      modifies this`items
      ensures Reply(View(), out) == Accept(old(View()), r, valid, linked, ready)
      ensures out.Receipt? && out.created ==>
                && out.id == |old(items)| && |items| == |old(items)| + 1 && items[..out.id] == old(items)
                && IsNew(items[out.id], r) && Available(items[out.id], ready)
                && (r.client.Some? ==> forall i :: 0 <= i < |old(items)| ==> !SameSender(old(items)[i], r))
      ensures !(out.Receipt? && out.created) ==> items == old(items)
      ensures out.Receipt? && !out.created ==>
                && out.id < |items| && SameSender(items[out.id], r)
                && (items[out.id].input.digest == DigestOf(r, OriginOf(r)) || LegacyRetry(r, items[out.id]))
      ensures out == Conflict ==>
                exists i :: 0 <= i < |items| && SameSender(items[i], r) && Differs(items[i], r)
    {
      if !Driver.OwnedSession(drivers, r.session, r.user) { return Refused; }
      var origin := r.origin;
      if r.system && origin == Unknown { origin := SystemRecovery; }
      if !valid || (origin == TaskResult && r.delivery != Followup) { return Invalid; }
      var digest := DigestOf(r, origin);
      var found := if r.client.Some? then First(items, AnyOf(r.session, r.user).(client := r.client), 1) else [];
      if found != [] {
        var existing := items[found[0]];
        assert SameSender(existing, r);
        if existing.input.digest != digest && !LegacyRetry(r, existing) { return Conflict; }
        return Receipt(found[0], false);
      }
      if linked && origin != SystemRecovery { return Refused; }
      if r.client.Some? { NoneSent(items, r); }
      for k := 0 to |r.attachments|
        invariant forall a :: a in r.attachments[..k] ==> a in ready
      {
        if r.attachments[k] !in ready {
          assert r.attachments[k] in NewItem(r).input.digest.attachments;
          return BadAttachment([]);
        }
      }
      assert r.attachments == r.attachments[..|r.attachments|];
      var input := Input(r.session, r.user, r.client, digest, origin);
      items := items + [Item(input, Accepted, None, None, None, None, None, None, "", 0)];
      out := Receipt(|items| - 1, true);
    }

    // Every row loop of the inbox that sets the same columns on each selected row.
    method RewriteRows(rows: seq<nat>, change: Change)
      requires Ascending(rows) && InRange(rows, items)
      modifies this`items
      ensures items == Rewrite(old(items), rows, change)
    {
      for k := 0 to |rows|
        invariant |items| == |old(items)|
        invariant forall i :: 0 <= i < |items| ==>
                    items[i] == if i in rows[..k] then Apply(change, old(items)[i]) else old(items)[i]
      {
        assert rows[..k + 1] == rows[..k] + [rows[k]] && rows[k] !in rows[..k];
        items := items[rows[k] := Apply(change, items[rows[k]])];
      }
      assert rows[..|rows|] == rows;
    }

    method StampRows(rows: seq<nat>, l: Driver.RunLease, turn: MessageId, expires: Time)
      requires InRange(rows, items)
      modifies this`items, this`nextMessage
      ensures items == Stamp(old(items), rows, |rows|, l, old(nextMessage), turn, expires)
      ensures nextMessage == old(nextMessage) + |rows|
    {
      for k := 0 to |rows|
        invariant items == Stamp(old(items), rows, k, l, old(nextMessage), turn, expires)
        invariant nextMessage == old(nextMessage) + k
      {
        items := items[rows[k] := ClaimItem(items[rows[k]], l, nextMessage, turn, expires)];
        nextMessage := nextMessage + 1;
      }
    }

    method ClaimBoundaryOnce(l: Driver.RunLease, step: int, choice: Choice, held: bool, ready: set<string>)
      returns (out: Outcome)
      modifies this
      ensures Reply(View(), out) == ClaimOnce(old(View()), l, step, choice, held, ready)
    {
      if step < 1 { return Invalid; }
      if !Driver.Fence(drivers, l.session, l.user, l.run, l.generation) { return LeaseLost; }
      if held { return Rows([]); }
      out := ClaimRows(l, Selected(items, l.session, l.user, choice), ready);
    }

    method ClaimRows(l: Driver.RunLease, rows: seq<nat>, ready: set<string>) returns (out: Outcome)
      requires l.session in drivers.rows && InRange(rows, items)
      modifies this
      ensures Reply(View(), out) == ClaimSelected(old(View()), l, rows, ready)
    {
      if rows == [] { return Rows([]); }
      var broken := BrokenRows(items, rows, ready);
      if broken != [] { return BadAttachment(broken); }
      MaterializeRows(l, rows);
      out := Rows(rows);
    }

    method MaterializeRows(l: Driver.RunLease, rows: seq<nat>)
      requires l.session in drivers.rows && InRange(rows, items) && rows != []
      modifies this
      ensures View() == Materialize(old(View()), l, rows)
    {
      var turn := TurnOf(Store(drivers, items, nextMessage), l, |rows|);
      StampRows(rows, l, turn, drivers.now + CLAIM_SECONDS);
      drivers := Driver.BindTriggerLocked(drivers, l.session, l.user, l.run, l.generation, turn).w;
    }

    method CancelItems(session: string, user: string, ids: Option<set<nat>>) returns (out: Outcome)
      modifies this`items
      ensures Reply(View(), out) == CancelRows(old(View()), session, user, ids)
      ensures out.Rows? <==> Driver.OwnedSession(drivers, session, user)
      ensures out.Rows? ==> CanceledAll(old(items), items, Queued(session, user).(ids := ids)) &&
                            Exactly(out.ids, old(items), Queued(session, user).(ids := ids))
      ensures !out.Rows? ==> items == old(items)
    {
      if !Driver.OwnedSession(drivers, session, user) { return Refused; }
      var rows := All(items, Queued(session, user).(ids := ids));
      AllIsExact(items, Queued(session, user).(ids := ids));
      RewriteRows(rows, ToCanceled);
      out := Rows(rows);
    }

    method SettleItems(l: Driver.RunLease, result: Option<MessageId>, found: bool, outcome: string)
      returns (out: Outcome)
      modifies this`items
      ensures Reply(View(), out) == SettleClaimed(old(View()), l, result, found, outcome)
      ensures out.Rows? ==>
                && Driver.Fence(drivers, l.session, l.user, l.run, l.generation) && (result.Some? ==> found)
                && SettledExactly(old(items), items, HeldBy(l), result, outcome)
                && Exactly(out.ids, old(items), HeldBy(l))
      ensures !out.Rows? ==> items == old(items)
    {
      if !Driver.Fence(drivers, l.session, l.user, l.run, l.generation) { return LeaseLost; }
      if result.Some? && !found { return Invalid; }
      var rows := All(items, HeldBy(l));
      if exists k :: 0 <= k < |rows| && items[rows[k]].message.None? { return Corrupt; }
      SettleIsExact(items, HeldBy(l), result, outcome);
      RewriteRows(rows, ToSettled(result, outcome));
      out := Rows(rows);
    }

    method CloseRows(rows: seq<nat>, outcome: string, closeTurn: bool) returns (out: Outcome)
      requires Ascending(rows) && InRange(rows, items)
      modifies this`items, this`nextMessage
      ensures Reply(View(), out) == CloseNeverRan(old(View()), rows, outcome, closeTurn)
    {
      if exists k :: 0 <= k < |rows| && items[rows[k]].message.None? { return Corrupt; }
      if rows == [] { return Rows([]); }
      var closing := None;
      if closeTurn {
        closing := Some(nextMessage);
        nextMessage := nextMessage + 1;
      }
      RewriteRows(rows, ToSettled(closing, outcome));
      out := Rows(rows);
    }

    method SettleUndelivered(l: Driver.RunLease, ids: set<nat>, closeTurn: bool) returns (out: Outcome)
      modifies this`items, this`nextMessage
      ensures Reply(View(), out) == SettleDeliveryFailures(old(View()), l, ids, closeTurn)
      ensures out.Rows? && out.ids != [] ==>
                && Driver.Fence(drivers, l.session, l.user, l.run, l.generation)
                && Exactly(out.ids, old(items), HeldBy(l).(ids := Some(ids)))
                && ClosedExactly(old(View()), View(), HeldBy(l).(ids := Some(ids)), "delivery_error", closeTurn)
      ensures !(out.Rows? && out.ids != []) ==> View() == old(View())
    {
      if ids == {} { return Rows([]); }
      if !Driver.Fence(drivers, l.session, l.user, l.run, l.generation) { return LeaseLost; }
      CloseIsExact(View(), HeldBy(l).(ids := Some(ids)), "delivery_error", closeTurn);
      out := CloseRows(All(items, HeldBy(l).(ids := Some(ids))), "delivery_error", closeTurn);
    }

    method SettleRefusedClaims(l: Driver.RunLease) returns (out: Outcome)
      modifies this`items, this`nextMessage
      ensures Reply(View(), out) == SettleRefused(old(View()), l)
      ensures out.Rows? && out.ids != [] ==>
                && Driver.Fence(drivers, l.session, l.user, l.run, l.generation)
                && Exactly(out.ids, old(items), HeldBy(l))
                && ClosedExactly(old(View()), View(), HeldBy(l), "not_run", true)
      ensures !(out.Rows? && out.ids != []) ==> View() == old(View())
    {
      if !Driver.Fence(drivers, l.session, l.user, l.run, l.generation) { return LeaseLost; }
      CloseIsExact(View(), HeldBy(l), "not_run", true);
      out := CloseRows(All(items, HeldBy(l)), "not_run", true);
    }

    method CountDeliveryFailure(l: Driver.RunLease, id: nat, retryable: bool) returns (out: Outcome)
      modifies this`items
      ensures Reply(View(), out) == RecordDeliveryFailure(old(View()), l, id, retryable)
      ensures out.Failure? <==>
                && Driver.Fence(drivers, l.session, l.user, l.run, l.generation)
                && id < |old(items)| && Matches(HeldBy(l), id, old(items)[id])
      ensures out.Failure? ==>
                && items == old(items)[id := old(items)[id].(attempts := out.attempt)]
                && (old(items)[id].attempts < 1000 ==> out.attempt == old(items)[id].attempts + 1)
                && (old(items)[id].attempts >= 1000 ==> out.attempt == 1000)
                && (out.terminal <==> !retryable || out.attempt >= 3)
      ensures !out.Failure? ==> items == old(items)
    {
      if !Driver.Fence(drivers, l.session, l.user, l.run, l.generation) { return LeaseLost; }
      if id >= |items| || !Matches(HeldBy(l), id, items[id]) { return Refused; }
      var attempt := Min(items[id].attempts + 1, MAX_ATTEMPT_COUNT);
      items := items[id := items[id].(attempts := attempt)];
      out := Failure(attempt, !retryable || attempt >= MAX_DURABLE_DELIVERY_ATTEMPTS);
    }

    method RebindRecoveredClaims(record: Driver.RecoveredDriver, l: Driver.RunLease) returns (out: Outcome)
      modifies this`items
      ensures Reply(View(), out) == Rebind(old(View()), record, l)
      ensures out.Rows? <==> Driver.Fence(drivers, l.session, l.user, l.run, l.generation)
      ensures out.Rows? && record.run.Some? ==>
                var q := OwnedBy(record.session, record.user, record.run.value, record.generation);
                && MovedExactly(old(items), items, q, l.run, l.generation, drivers.now + 300)
                && Exactly(out.ids, old(items), q)
      ensures out.Rows? && record.run.None? ==> out.ids == []
      ensures !out.Rows? || record.run.None? ==> items == old(items)
    {
      if !Driver.Fence(drivers, l.session, l.user, l.run, l.generation) { return LeaseLost; }
      var rows: seq<nat> := [];
      if record.run.Some? {
        rows := All(items, OwnedBy(record.session, record.user, record.run.value, record.generation));
        MoveIsExact(items, OwnedBy(record.session, record.user, record.run.value, record.generation), l.run,
                    l.generation, drivers.now + CLAIM_SECONDS);
      }
      RewriteRows(rows, ToOwner(l.run, l.generation, drivers.now + CLAIM_SECONDS));
      out := Rows(rows);
    }

    method SettleUnstartedClaims(session: string, user: string, run: RunId, generation: nat, executing: bool,
                                 replied: bool)
      returns (out: Outcome)
      modifies this`items, this`nextMessage
      ensures Reply(View(), out) == SettleUnstarted(old(View()), session, user, run, generation, executing, replied)
      ensures out.Rows? && out.ids != [] ==>
                && Driver.OwnedSession(drivers, session, user) && DriverIdle(View(), session) && !executing && !replied
                && Exactly(out.ids, old(items), OwnedBy(session, user, run, generation))
                && (forall i :: i in out.ids ==>
                    old(items)[i].expires.Some? && old(items)[i].expires.value <= drivers.now)
                && ClosedExactly(old(View()), View(), OwnedBy(session, user, run, generation), "not_run", true)
      ensures !(out.Rows? && out.ids != []) ==> View() == old(View())
    {
      if !Driver.OwnedSession(drivers, session, user) { return Rows([]); }
      if session in drivers.rows && (drivers.rows[session].phase != Driver.Idle || drivers.rows[session].run.Some?) {
        return Rows([]);
      }
      if executing { return Rows([]); }
      var rows := All(items, OwnedBy(session, user, run, generation));
      if !AllExpired(Store(drivers, items, nextMessage), rows) || !Materialized(items, rows) { return Rows([]); }
      if replied { return Rows([]); }
      CloseIsExact(View(), OwnedBy(session, user, run, generation), "not_run", true);
      out := CloseRows(rows, "not_run", true);
    }

    // Claim, and while a selected row has lost an attachment cancel just those rows and select again.
    // `kept` is the queue the successful claim saw. The loop always ends; it cancels only broken waiting
    // rows of this session; and on a plain queue it claims exactly the first available rows and cancels
    // exactly the broken rows that stood before them.
    method ClaimBoundary(l: Driver.RunLease, step: int, choice: Choice, held: bool, ready: set<string>)
      returns (out: Outcome, ghost kept: seq<Item>)
      modifies this
      ensures Purged(old(items), kept, l.session, l.user, ready)
      ensures Reply(View(), out) ==
              ClaimOnce(Store(old(drivers), kept, old(nextMessage)), l, step, choice, held, ready)
      ensures !out.BadAttachment?
      ensures PlainQueue(old(items), l.session, l.user, choice) && out.Rows? && !held ==>
                && out.ids == FirstAvailable(old(items), l.session, l.user, choice.nextTurn, ready)
                && CanceledExactly(old(items), kept, l.session, l.user, choice.nextTurn, ready)
    {
      kept := items;
      while true
        invariant drivers == old(drivers) && nextMessage == old(nextMessage) && items == kept
        invariant Cleared(old(items), kept, l.session, l.user, choice, ready)
        decreases WaitingCount(items, l.session, l.user)
      {
        ghost var before := View();
        out := ClaimBoundaryOnce(l, step, choice, held, ready);
        if !out.BadAttachment? {
          LastRound(old(items), before, l, step, choice, held, ready);
          return;
        }
        Round(old(items), before, l, step, choice, held, ready);
        var _ := CancelItems(l.session, l.user, Some(SetOf(out.broken)));
        kept := items;
      }
    }
  }
}
