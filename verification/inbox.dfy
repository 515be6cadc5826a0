// The durable inbox: inputs accepted before a run owns their session, claimed under an exact driver
// generation, rebound on takeover and settled or canceled once (backend/agent/inbox.py).
module Inbox {
  import opened Common
  import Driver

  const MAX_STEP_BATCH := 32
  const CLAIM_SECONDS := 5 * 60
  const MAX_DURABLE_DELIVERY_ATTEMPTS := 3
  const MAX_ATTEMPT_COUNT := 1000

  datatype Delivery = Followup | Steer | Inject
  datatype Target = NextTurn | NextStep
  datatype Origin = Human | AssistantDelegation | TaskResult | SystemRecovery | Unknown
  datatype State = Accepted | Claimed | Canceled | Settled

  // The request digest is the payload it hashes; `source` is hashed only when there is one.
  datatype Digest = Digest(delivery: Delivery, body: string, attachments: seq<string>, source: Option<(Origin, string)>)

  // What acceptance fixes forever.
  datatype Input = Input(session: string, user: string, client: Option<string>, digest: Digest, origin: Origin)

  datatype Item = Item(
    input: Input,
    state: State,
    message: Option<MessageId>,
    turn: Option<MessageId>,
    run: Option<RunId>,
    generation: Option<nat>,
    expires: Option<Time>,
    result: Option<MessageId>,
    outcome: string,
    attempts: nat)

  // Items are kept in acceptance order, which is the queue order; an item's id is its position.
  datatype Store = Store(drivers: Driver.World, items: seq<Item>, nextMessage: MessageId)

  datatype Request = Request(
    session: string, user: string, client: Option<string>, delivery: Delivery, body: string,
    attachments: seq<string>, origin: Origin, reference: string, system: bool)

  datatype Outcome =
    | Rows(ids: seq<nat>)
    | Receipt(id: nat, created: bool)
    | Failure(attempt: nat, terminal: bool)
    | Refused
    | Invalid
    | Conflict
    | BadAttachment(broken: seq<nat>)
    | LeaseLost
    | Corrupt

  datatype Reply = Reply(s: Store, out: Outcome)

  function TargetOf(delivery: Delivery): Target {
    if delivery == Followup then NextTurn else NextStep
  }

  // Every attachment is still an owned, ready asset.
  predicate Available(i: Item, ready: set<string>) {
    forall a :: a in i.input.digest.attachments ==> a in ready
  }

  // ---- queries

  // The WHERE clause of a row query: one session's rows, narrowed by the filters that are present.
  datatype Where = Where(
    session: string, user: string, state: Option<State>, target: Option<Target>, client: Option<string>,
    owner: Option<(RunId, nat)>, origins: Option<set<Origin>>, ids: Option<set<nat>>, ready: Option<set<string>>)

  function AnyOf(session: string, user: string): Where {
    Where(session, user, None, None, None, None, None, None, None)
  }

  function Waiting(session: string, user: string, target: Target): Where {
    Queued(session, user).(target := Some(target))
  }

  function Queued(session: string, user: string): Where {
    AnyOf(session, user).(state := Some(Accepted))
  }

  function OwnedBy(session: string, user: string, run: RunId, generation: nat): Where {
    AnyOf(session, user).(state := Some(Claimed), owner := Some((run, generation)))
  }

  function HeldBy(l: Driver.RunLease): Where {
    OwnedBy(l.session, l.user, l.run, l.generation)
  }

  function SetOf(rows: seq<nat>): set<nat> { set i | i in rows }

  predicate Matches(q: Where, id: nat, i: Item) {
    && i.input.session == q.session
    && i.input.user == q.user
    && (q.state.Some? ==> i.state == q.state.value)
    && (q.target.Some? ==> TargetOf(i.input.digest.delivery) == q.target.value)
    && (q.client.Some? ==> i.input.client == q.client)
    && (q.owner.Some? ==> i.run == Some(q.owner.value.0) && i.generation == Some(q.owner.value.1))
    && (q.origins.Some? ==> i.input.origin in q.origins.value)
    && (q.ids.Some? ==> id in q.ids.value)
    && (q.ready.Some? ==> Available(i, q.ready.value))
  }

  // The first `limit` matching rows from position `from`, in queue order.
  function Pick(items: seq<Item>, q: Where, limit: nat, from: nat): (rows: seq<nat>)
    requires from <= |items|
    ensures |rows| <= limit
    ensures forall k :: 0 <= k < |rows| ==> from <= rows[k] < |items| && Matches(q, rows[k], items[rows[k]])
    ensures Ascending(rows)
    decreases |items| - from
  {
    if from == |items| || limit == 0 then []
    else if Matches(q, from, items[from]) then [from] + Pick(items, q, limit - 1, from + 1)
    else Pick(items, q, limit, from + 1)
  }

  function First(items: seq<Item>, q: Where, limit: nat): seq<nat> { Pick(items, q, limit, 0) }

  function All(items: seq<Item>, q: Where): seq<nat> { First(items, q, |items|) }

  predicate Ascending(rows: seq<nat>) {
    forall j, k :: 0 <= j < k < |rows| ==> rows[j] < rows[k]
  }

  // How many rows in from..until match.
  function Count(items: seq<Item>, q: Where, from: nat, until: nat): nat
    requires from <= until <= |items|
    decreases until
  {
    if from == until then 0
    else Count(items, q, from, until - 1) + if Matches(q, until - 1, items[until - 1]) then 1 else 0
  }

  lemma {:induction false} CountFromFront(items: seq<Item>, q: Where, from: nat, until: nat)
    requires from < until <= |items|
    ensures Count(items, q, from, until) ==
            Count(items, q, from + 1, until) + if Matches(q, from, items[from]) then 1 else 0
    decreases until
  {
    if from + 1 == until {
    } else {
      CountFromFront(items, q, from, until - 1);
    }
  }

  // Selection is FIFO: a matching row is selected exactly when fewer than `limit` matching rows precede it.
  lemma {:induction false} PickIsFifo(items: seq<Item>, q: Where, limit: nat, from: nat, i: nat)
    requires from <= i < |items|
    ensures i in Pick(items, q, limit, from) <==> Matches(q, i, items[i]) && Count(items, q, from, i) < limit
    decreases |items| - from
  {
    if limit == 0 {
    } else {
      if i > from {
        CountFromFront(items, q, from, i);
        PickIsFifo(items, q, if Matches(q, from, items[from]) then limit - 1 else limit, from + 1, i);
      }
    }
  }

  lemma {:induction false} CountedOne(items: seq<Item>, q: Where, until: nat) returns (j: nat)
    requires until <= |items| && Count(items, q, 0, until) > 0
    ensures j < until && Matches(q, j, items[j])
  {
    j := until - 1;
    if Matches(q, j, items[j]) {
    } else {
      j := CountedOne(items, q, until - 1);
    }
  }

  // A limit-one query finds something whenever something matches.
  lemma {:induction false} FirstFinds(items: seq<Item>, q: Where, i: nat)
    requires i < |items| && Matches(q, i, items[i])
    ensures First(items, q, 1) != []
    decreases i
  {
    PickIsFifo(items, q, 1, 0, i);
    if Count(items, q, 0, i) == 0 {
    } else {
      var j := CountedOne(items, q, i);
      FirstFinds(items, q, j);
    }
  }

  lemma {:induction false} CountAtMost(items: seq<Item>, q: Where, until: nat)
    requires until <= |items|
    ensures Count(items, q, 0, until) <= until
  {
    if until == 0 {
    } else {
      CountAtMost(items, q, until - 1);
    }
  }

  // An unlimited query returns exactly the matching rows.
  lemma AllIsExact(items: seq<Item>, q: Where)
    ensures Ascending(All(items, q))
    ensures forall i :: i in All(items, q) <==> 0 <= i < |items| && Matches(q, i, items[i])
  {
    forall i | 0 <= i < |items| ensures i in All(items, q) <==> Matches(q, i, items[i]) {
      PickIsFifo(items, q, |items|, 0, i);
      CountAtMost(items, q, i);
    }
  }

  // Ascending sequences with the same elements are the same.
  lemma {:induction false} AscendingEqual(a: seq<nat>, b: seq<nat>)
    requires Ascending(a) && Ascending(b) && forall x :: x in a <==> x in b
    ensures a == b
    decreases |a|
  {
    if a == [] {
      SomeElement(b);
    } else {
      var n, m := |a| - 1, |b| - 1;
      assert a[n] in b && b[m] in a;
      var k :| 0 <= k < |b| && b[k] == a[n];
      var j :| 0 <= j < |a| && a[j] == b[m];
      assert a[n] == b[m];
      forall x ensures x in a[..n] <==> x in b[..m] {
        if x in a[..n] { assert x in a && x < a[n]; assert x in b; }
        if x in b[..m] { assert x in b && x < b[m]; assert x in a; }
      }
      AscendingEqual(a[..n], b[..m]);
      assert a == a[..n] + [a[n]] && b == b[..m] + [b[m]];
    }
  }

  // Every selected position is a row.
  predicate InRange(rows: seq<nat>, items: seq<Item>) {
    forall k :: 0 <= k < |rows| ==> rows[k] < |items|
  }

  // ---- row changes

  datatype Change =
    | ToCanceled
    | ToSettled(result: Option<MessageId>, outcome: string)
    | ToOwner(run: RunId, generation: nat, expires: Time)

  function Apply(change: Change, i: Item): Item {
    match change
    case ToCanceled => i.(state := Canceled, outcome := "canceled")
    case ToSettled(result, outcome) => i.(state := Settled, result := result, outcome := outcome, expires := None)
    case ToOwner(run, generation, expires) =>
      i.(run := Some(run), generation := Some(generation), expires := Some(expires))
  }

  // The same change to every selected row, and to no other.
  function Rewrite(items: seq<Item>, rows: seq<nat>, change: Change): seq<Item> {
    seq(|items|, i requires 0 <= i < |items| => if i in rows then Apply(change, items[i]) else items[i])
  }

  function ClaimItem(i: Item, l: Driver.RunLease, message: MessageId, turn: MessageId, expires: Time): Item {
    i.(state := Claimed, message := Some(message), turn := Some(turn), run := Some(l.run),
       generation := Some(l.generation), expires := Some(expires))
  }

  // The first `count` selected rows claimed in order, each with the next Message id.
  function Stamp(items: seq<Item>, rows: seq<nat>, count: nat, l: Driver.RunLease, first: MessageId, turn: MessageId,
                 expires: Time): (r: seq<Item>)
    requires count <= |rows|
    requires InRange(rows, items)
    ensures |r| == |items|
  {
    if count == 0 then items
    else
      var before := Stamp(items, rows, count - 1, l, first, turn, expires);
      var row := rows[count - 1];
      before[row := ClaimItem(before[row], l, first + count - 1, turn, expires)]
  }

  predicate Distinct(rows: seq<nat>) {
    forall j, k :: 0 <= j < k < |rows| ==> rows[j] != rows[k]
  }

  lemma {:induction false} StampPointwise(items: seq<Item>, rows: seq<nat>, count: nat, l: Driver.RunLease,
                                          first: MessageId, turn: MessageId, expires: Time)
    requires count <= |rows| && Distinct(rows)
    requires InRange(rows, items)
    ensures forall k :: 0 <= k < count ==>
                          Stamp(items, rows, count, l, first, turn, expires)[rows[k]] ==
                          ClaimItem(items[rows[k]], l, first + k, turn, expires)
    ensures forall i :: 0 <= i < |items| && i !in rows[..count] ==>
                          Stamp(items, rows, count, l, first, turn, expires)[i] == items[i]
  {
    if count == 0 {
    } else {
      StampPointwise(items, rows, count - 1, l, first, turn, expires);
      assert rows[..count] == rows[..count - 1] + [rows[count - 1]];
      assert rows[count - 1] !in rows[..count - 1];
    }
  }

  // ---- transactions

  function DigestOf(r: Request, origin: Origin): Digest {
    Digest(r.delivery, r.body, r.attachments,
           if origin != Unknown || r.reference != "" then Some((origin, r.reference)) else None)
  }

  function OriginOf(r: Request): Origin {
    if r.system && r.origin == Unknown then SystemRecovery else r.origin
  }

  // The row was sent under this request's client id, by this user to this session.
  predicate SameSender(i: Item, r: Request) {
    r.client.Some? && (i.input.session, i.input.user, i.input.client) == (r.session, r.user, r.client)
  }

  // The same input sent before origins were recorded.
  predicate LegacyRetry(r: Request, existing: Item) {
    OriginOf(r) == Human && existing.input.origin == Unknown &&
    existing.input.digest == Digest(r.delivery, r.body, r.attachments, None)
  }

  function NewItem(r: Request): Item {
    var input := Input(r.session, r.user, r.client, DigestOf(r, OriginOf(r)), OriginOf(r));
    Item(input, Accepted, None, None, None, None, None, None, "", 0)
  }

  function Existing(items: seq<Item>, r: Request): seq<nat> {
    if r.client.None? then [] else First(items, AnyOf(r.session, r.user).(client := r.client), 1)
  }

  // `valid` and `linked` answer the input validators and the task-link guard.
  function Accept(s: Store, r: Request, valid: bool, linked: bool, ready: set<string>): Reply {
    var found := Existing(s.items, r);
    if !Driver.OwnedSession(s.drivers, r.session, r.user) then Reply(s, Refused)
    else if !valid || (OriginOf(r) == TaskResult && r.delivery != Followup) then Reply(s, Invalid)
    else if found != [] then
      var existing := s.items[found[0]];
      if existing.input.digest != DigestOf(r, OriginOf(r)) && !LegacyRetry(r, existing) then Reply(s, Conflict)
      else Reply(s, Receipt(found[0], false))
    else if linked && OriginOf(r) != SystemRecovery then Reply(s, Refused)
    else if !Available(NewItem(r), ready) then Reply(s, BadAttachment([]))
    else Reply(s.(items := s.items + [NewItem(r)]), Receipt(|s.items|, true))
  }

  // Which rows a boundary takes: a project session's own queue, or the one row an assistant session's
  // turn scheduler picked. `blocked` says that a pending card owns the next turn.
  datatype Choice = Boundary(nextTurn: bool, blocked: bool) | MainTurn(picked: Option<nat>)

  function Selected(items: seq<Item>, session: string, user: string, choice: Choice): (rows: seq<nat>)
    ensures InRange(rows, items)
    ensures forall k :: 0 <= k < |rows| ==> items[rows[k]].state == Accepted
  {
    match choice
    case Boundary(nextTurn, blocked) => BoundaryRows(items, session, user, nextTurn, blocked)
    case MainTurn(picked) =>
      if picked.Some? then
        First(items, Queued(session, user).(ids := Some({picked.value})), 1)
      else []
  }

  function BoundaryRows(items: seq<Item>, session: string, user: string, nextTurn: bool, blocked: bool): seq<nat> {
    var report := AnyOf(session, user).(state := Some(Claimed), origins := Some({TaskResult}));
    if First(items, report, 1) != [] then []
    else if blocked then
      if nextTurn then First(items, Waiting(session, user, NextTurn).(origins := Some({Human, Unknown})), 1) else []
    else
      var steps := First(items, Waiting(session, user, NextStep), MAX_STEP_BATCH);
      if !nextTurn then steps
      else
        var turns := First(items, Waiting(session, user, NextTurn), 1);
        if turns != [] && items[turns[0]].input.origin == TaskResult && steps != [] then steps
        else steps + turns
  }

  // The claimed row with the oldest Message: its turn is the generation's turn.
  function Oldest(items: seq<Item>, q: Where): (r: Option<nat>)
    ensures r.Some? ==> r.value < |items| && Matches(q, r.value, items[r.value]) &&
                        items[r.value].turn.Some? && items[r.value].message.Some?
  {
    if items == [] then None
    else
      var n := |items| - 1;
      var before := Oldest(items[..n], q);
      if && Matches(q, n, items[n])
         && items[n].turn.Some?
         && items[n].message.Some?
         && (before.None? || items[n].message.value < items[before.value].message.value) then Some(n)
      else before
  }

  // Turn identity is stable: an open turn of this generation, then the driver's trigger, then the last new Message.
  function TurnOf(s: Store, l: Driver.RunLease, count: nat): MessageId
    requires l.session in s.drivers.rows && count > 0
  {
    var open := Oldest(s.items, HeldBy(l));
    if open.Some? then s.items[open.value].turn.value
    else if s.drivers.rows[l.session].trigger.Some? then s.drivers.rows[l.session].trigger.value
    else s.nextMessage + count - 1
  }

  predicate Fenced(s: Store, l: Driver.RunLease) {
    Driver.Fence(s.drivers, l.session, l.user, l.run, l.generation)
  }

  function BrokenRows(items: seq<Item>, rows: seq<nat>, ready: set<string>): (broken: seq<nat>)
    requires InRange(rows, items)
    ensures forall i :: i in broken <==> i in rows && !Available(items[i], ready)
  {
    if rows == [] then []
    else
      var n := |rows| - 1;
      BrokenRows(items, rows[..n], ready) + if Available(items[rows[n]], ready) then [] else [rows[n]]
  }

  // One claim transaction; `held` answers the task-hold guard.
  function ClaimOnce(s: Store, l: Driver.RunLease, step: int, choice: Choice, held: bool, ready: set<string>): Reply {
    if step < 1 then Reply(s, Invalid)
    else if !Fenced(s, l) then Reply(s, LeaseLost)
    else if held then Reply(s, Rows([]))
    else ClaimSelected(s, l, Selected(s.items, l.session, l.user, choice), ready)
  }

  // Nothing is claimed unless every selected row is available; then all of them are, under one turn.
  function ClaimSelected(s: Store, l: Driver.RunLease, rows: seq<nat>, ready: set<string>): Reply
    requires l.session in s.drivers.rows && InRange(rows, s.items)
  {
    if rows == [] then Reply(s, Rows([]))
    else if BrokenRows(s.items, rows, ready) != [] then Reply(s, BadAttachment(BrokenRows(s.items, rows, ready)))
    else Reply(Materialize(s, l, rows), Rows(rows))
  }

  // Every selected row becomes a Message of one turn, which the driver's trigger names.
  function Materialize(s: Store, l: Driver.RunLease, rows: seq<nat>): Store
    requires l.session in s.drivers.rows && InRange(rows, s.items) && rows != []
  {
    var turn := TurnOf(s, l, |rows|);
    var items := Stamp(s.items, rows, |rows|, l, s.nextMessage, turn, s.drivers.now + CLAIM_SECONDS);
    var bound := Driver.BindTriggerLocked(s.drivers, l.session, l.user, l.run, l.generation, turn).w;
    Store(bound, items, s.nextMessage + |rows|)
  }

  function CancelRows(s: Store, session: string, user: string, ids: Option<set<nat>>): Reply {
    if !Driver.OwnedSession(s.drivers, session, user) then Reply(s, Refused)
    else
      var rows := All(s.items, Queued(session, user).(ids := ids));
      Reply(s.(items := Rewrite(s.items, rows, ToCanceled)), Rows(rows))
  }

  predicate Materialized(items: seq<Item>, rows: seq<nat>) {
    forall k :: 0 <= k < |rows| ==> rows[k] < |items| && items[rows[k]].message.Some?
  }

  // `found` says whether a named result Message belongs to the session.
  function SettleClaimed(s: Store, l: Driver.RunLease, result: Option<MessageId>, found: bool, outcome: string): Reply {
    var rows := All(s.items, HeldBy(l));
    if !Fenced(s, l) then Reply(s, LeaseLost)
    else if result.Some? && !found then Reply(s, Invalid)
    else if !Materialized(s.items, rows) then Reply(s, Corrupt)
    else Reply(s.(items := Rewrite(s.items, rows, ToSettled(result, outcome))), Rows(rows))
  }

  // Input that never reached the model, answered by a closing Message when it ends its turn.
  function CloseNeverRan(s: Store, rows: seq<nat>, outcome: string, closeTurn: bool): Reply {
    if !Materialized(s.items, rows) then Reply(s, Corrupt)
    else if rows == [] then Reply(s, Rows([]))
    else
      var closing := if closeTurn then Some(s.nextMessage) else None;
      Reply(s.(items := Rewrite(s.items, rows, ToSettled(closing, outcome)),
               nextMessage := if closeTurn then s.nextMessage + 1 else s.nextMessage), Rows(rows))
  }

  function SettleDeliveryFailures(s: Store, l: Driver.RunLease, ids: set<nat>, closeTurn: bool): Reply {
    if ids == {} then Reply(s, Rows([]))
    else if !Fenced(s, l) then Reply(s, LeaseLost)
    else CloseNeverRan(s, All(s.items, HeldBy(l).(ids := Some(ids))), "delivery_error", closeTurn)
  }

  function SettleRefused(s: Store, l: Driver.RunLease): Reply {
    if !Fenced(s, l) then Reply(s, LeaseLost)
    else CloseNeverRan(s, All(s.items, HeldBy(l)), "not_run", true)
  }

  function RecordDeliveryFailure(s: Store, l: Driver.RunLease, id: nat, retryable: bool): Reply {
    if !Fenced(s, l) then Reply(s, LeaseLost)
    else if id >= |s.items| || !Matches(HeldBy(l), id, s.items[id]) then Reply(s, Refused)
    else
      var attempt := Min(s.items[id].attempts + 1, MAX_ATTEMPT_COUNT);
      Reply(s.(items := s.items[id := s.items[id].(attempts := attempt)]),
            Failure(attempt, !retryable || attempt >= MAX_DURABLE_DELIVERY_ATTEMPTS))
  }

  // Claims of a replaced generation move to the lease that took over from it.
  function Rebind(s: Store, record: Driver.RecoveredDriver, l: Driver.RunLease): Reply {
    if !Fenced(s, l) then Reply(s, LeaseLost)
    else
      var rows := if record.run.Some?
                  then All(s.items, OwnedBy(record.session, record.user, record.run.value, record.generation)) else [];
      Reply(s.(items := Rewrite(s.items, rows, ToOwner(l.run, l.generation, s.drivers.now + CLAIM_SECONDS))),
            Rows(rows))
  }

  predicate DriverIdle(s: Store, session: string) {
    session in s.drivers.rows ==> s.drivers.rows[session].phase == Driver.Idle && s.drivers.rows[session].run == None
  }

  predicate AllExpired(s: Store, rows: seq<nat>) {
    forall k :: 0 <= k < |rows| ==>
      rows[k] < |s.items| && s.items[rows[k]].expires.Some? && s.items[rows[k]].expires.value <= s.drivers.now
  }

  // A released generation's expired claims that nobody ever answered; `executing` and `replied` answer
  // the question runtime and the transcript.
  function SettleUnstarted(s: Store, session: string, user: string, run: RunId, generation: nat, executing: bool,
                           replied: bool): Reply {
    var rows := All(s.items, OwnedBy(session, user, run, generation));
    if !Driver.OwnedSession(s.drivers, session, user) || !DriverIdle(s, session) || executing then Reply(s, Rows([]))
    else if !AllExpired(s, rows) || !Materialized(s.items, rows) || replied then Reply(s, Rows([]))
    else CloseNeverRan(s, rows, "not_run", true)
  }
}
