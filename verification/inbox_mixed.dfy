// A rebinding that comes after the new generation has claimed input of its own.
module InboxMixed {
  import opened Common
  import opened Inbox
  import opened InboxRuns
  import opened InboxGenerations
  import opened InboxExample
  import opened InboxTurns
  import Driver
  import DriverRuns

  const FIRST := Driver.RunLease("a", "user", "a1", 1, "worker")
  const LATE := RebindClaims(Driver.RecoveredDriver("a", "user", Some("a1"), 1, Driver.Reserved, None), OWNER)

  // Nobody holds anything for the lease, and its driver row names no trigger.
  predicate Fresh(s: Store, l: Driver.RunLease) {
    Fenced(s, l) && s.drivers.rows[l.session].trigger == None &&
    forall i :: 0 <= i < |s.items| ==> !Matches(HeldBy(l), i, s.items[i])
  }

  // A fresh generation that claims one row opens a turn with that row's Message.
  lemma ClaimsOne(s: Store, l: Driver.RunLease, i: nat)
    requires Fresh(s, l) && i < |s.items| && s.items[i] == NewItem(INPUT)
    ensures var after := ClaimSelected(s, l, [i], {}).s;
            && |after.items| == |s.items| && after.nextMessage == s.nextMessage + 1
            && after.items[i] == ClaimItem(s.items[i], l, s.nextMessage, s.nextMessage, s.drivers.now + CLAIM_SECONDS)
            && (forall j :: 0 <= j < |s.items| && j != i ==> after.items[j] == s.items[j])
            && after.drivers ==
               Driver.BindTriggerLocked(s.drivers, l.session, l.user, l.run, l.generation, s.nextMessage).w
  {
    assert Available(s.items[i], {});
    assert i !in BrokenRows(s.items, [i], {});
    SomeElement(BrokenRows(s.items, [i], {}));
    assert Oldest(s.items, HeldBy(l)).None?;
    StampPointwise(s.items, [i], 1, l, s.nextMessage, s.nextMessage, s.drivers.now + CLAIM_SECONDS);
  }

  // The same as a transaction of the run.
  lemma ClaimsNext(s: Store, l: Driver.RunLease, i: nat)
    requires Fresh(s, l) && i < |s.items| && s.items[i] == NewItem(INPUT)
    requires l.session == "a" && l.user == "user" && Selected(s.items, "a", "user", Boundary(true, false)) == [i]
    ensures var after := Step(s, ClaimNext(l));
            && |after.items| == |s.items| && after.nextMessage == s.nextMessage + 1
            && after.items[i] ==
               ClaimItem(NewItem(INPUT), l, s.nextMessage, s.nextMessage, s.drivers.now + CLAIM_SECONDS)
            && (forall j :: 0 <= j < |s.items| && j != i ==> after.items[j] == s.items[j])
            && after.drivers ==
               Driver.BindTriggerLocked(s.drivers, l.session, l.user, l.run, l.generation, s.nextMessage).w
  {
    ClaimsOne(s, l, i);
    assert Step(s, ClaimNext(l)) == ClaimSelected(s, l, [i], {}).s;
  }

  lemma SelectsTheLast(items: seq<Item>)
    requires |items| == 2 && items[1] == NewItem(INPUT)
    requires items[0].state == Claimed && items[0].input == NewItem(INPUT).input
    ensures Selected(items, "a", "user", Boundary(true, false)) == [1]
  {
    var steps, turns := Waiting("a", "user", NextStep), Waiting("a", "user", NextTurn);
    var report := AnyOf("a", "user").(state := Some(Claimed), origins := Some({TaskResult}));
    Unmatched(items, report, 1);
    Unmatched(items, steps, MAX_STEP_BATCH);
    assert Pick(items, turns, 0, 2) == [] && Pick(items, turns, 1, 1) == [1];
  }

  lemma Unmatched(items: seq<Item>, q: Where, limit: nat)
    requires forall i :: 0 <= i < |items| ==> !Matches(q, i, items[i])
    ensures First(items, q, limit) == []
  {
    SomeElement(First(items, q, limit));
  }

  const ACCEPT := AcceptInput(INPUT, true, false, {})

  function ClaimNext(l: Driver.RunLease): Op { Claim(l, 1, Boundary(true, false), false, {}) }

  predicate Started(s: Store) {
    && s.items == [] && s.nextMessage == 0 && s.drivers.now == 0 && s.drivers.limit == 2
    && Driver.OpenSession(s.drivers, "a", "user") && Driver.Holds(s.drivers, FIRST)
    && s.drivers.rows.Keys == {"a"} && s.drivers.rows["a"].trigger == None
  }

  lemma AcceptsOne(s: Store)
    requires Driver.OwnedSession(s.drivers, "a", "user")
    ensures Step(s, ACCEPT) == s.(items := s.items + [NewItem(INPUT)])
  {
  }

  // The first generation claims an input and opens turn 0.
  predicate FirstTurnHeld(s: Store) {
    && |s.items| == 1 && s.items[0] == ClaimItem(NewItem(INPUT), FIRST, 0, 0, CLAIM_SECONDS) && s.nextMessage == 1
    && s.drivers.now == 0 && s.drivers.limit == 2 && s.drivers.rows.Keys == {"a"}
    && Driver.OpenSession(s.drivers, "a", "user") && Driver.Holds(s.drivers, FIRST)
  }

  predicate InputWaits(s: Store) {
    && s.items == [NewItem(INPUT)] && s.nextMessage == 0 && s.drivers.now == 0 && s.drivers.limit == 2
    && Driver.OpenSession(s.drivers, "a", "user") && Driver.Holds(s.drivers, FIRST)
    && s.drivers.rows.Keys == {"a"} && s.drivers.rows["a"].trigger == None
  }

  lemma FirstInput(s: Store)
    requires Started(s)
    ensures InputWaits(Step(s, ACCEPT))
  {
    AcceptsOne(s);
  }

  lemma FirstTurn(s: Store)
    requires InputWaits(s)
    ensures FirstTurnHeld(Step(s, ClaimNext(FIRST)))
  {
    SelectsTheOnlyRow(s.items);
    ClaimsNext(s, FIRST, 0);
  }

  // It is released without settling, and a second generation starts with a new input.
  predicate SecondInputWaits(s: Store) {
    && |s.items| == 2 && s.items[0] == ClaimItem(NewItem(INPUT), FIRST, 0, 0, CLAIM_SECONDS)
    && s.items[1] == NewItem(INPUT) && s.nextMessage == 1 && s.drivers.now == 0 && Fresh(s, OWNER)
  }

  const FREE := Drive(DriverRuns.OpRelease(FIRST))
  const AGAIN := Drive(Reserve("a", "a2"))

  lemma SecondInput(s: Store)
    requires FirstTurnHeld(s)
    ensures SecondInputWaits(Step(Step(Step(s, FREE), AGAIN), ACCEPT))
  {
    assert Driver.LiveSessions(Step(s, FREE).drivers, "user") == {};
    AcceptsOne(Step(Step(s, FREE), AGAIN));
  }

  // The second generation claims it and opens turn 1.
  lemma SecondTurn(s: Store)
    requires SecondInputWaits(s)
    ensures TwoTurnsHeld(Step(s, ClaimNext(OWNER)))
  {
    SelectsTheLast(s.items);
    ClaimsNext(s, OWNER, 1);
  }

  lemma BothTurns() returns (ops: seq<Op>)
    ensures AllPaired(ops) && TwoTurnsHeld(Run(Init(2, 0), ops))
  {
    var start := FirstGeneration();
    var s := Run(Init(2, 0), start);
    var more := [ACCEPT, ClaimNext(FIRST), FREE, AGAIN, ACCEPT, ClaimNext(OWNER)];
    SixSteps(s);
    RunConcat(Init(2, 0), start, more);
    ops := start + more;
  }

  lemma SixSteps(s: Store)
    requires Started(s)
    ensures TwoTurnsHeld(Run(s, [ACCEPT, ClaimNext(FIRST), FREE, AGAIN, ACCEPT, ClaimNext(OWNER)]))
  {
    FirstInput(s);
    FirstTurn(Step(s, ACCEPT));
    SecondInput(Step(Step(s, ACCEPT), ClaimNext(FIRST)));
    SecondTurn(Step(Step(Step(Step(Step(s, ACCEPT), ClaimNext(FIRST)), FREE), AGAIN), ACCEPT));
    RunOfSix(s, ACCEPT, ClaimNext(FIRST), FREE, AGAIN, ACCEPT, ClaimNext(OWNER));
  }

  lemma RunOfSix(s: Store, a: Op, b: Op, c: Op, d: Op, e: Op, f: Op)
    ensures Run(s, [a, b, c, d, e, f]) == Step(Step(Step(Step(Step(Step(s, a), b), c), d), e), f)
  {
    RunSnoc(s, [a, b, c, d, e], f);
    RunSnoc(s, [a, b, c, d], e);
    RunSnoc(s, [a, b, c], d);
    RunSnoc(s, [a, b], c);
    RunSnoc(s, [a], b);
    RunSnoc(s, [], a);
    assert [] + [a] == [a] && [a] + [b] == [a, b] && [a, b] + [c] == [a, b, c] && [a, b, c] + [d] == [a, b, c, d];
    assert [a, b, c, d] + [e] == [a, b, c, d, e] && [a, b, c, d, e] + [f] == [a, b, c, d, e, f];
  }

  // Rebinding the first generation's claim to it only then leaves one generation holding two turns.
  lemma LateRebindingExample() returns (ops: seq<Op>)
    ensures AllPaired(ops) && Paired(LATE)
    ensures var s := Run(Init(2, 0), ops);
            OneTurn(s) && !NothingClaimedYet(s, LATE) && !OneTurn(Step(s, LATE))
  {
    ops := BothTurns();
    TwoTurns(Run(Init(2, 0), ops));
    LateMixes(Run(Init(2, 0), ops));
  }

  lemma LateMixes(s: Store)
    requires TwoTurnsHeld(s)
    ensures !OneTurn(Step(s, LATE))
  {
    RewrittenRow(s.items, OwnedBy("a", "user", "a1", 1), ToOwner("a2", 2, s.drivers.now + CLAIM_SECONDS), 0);
    RewrittenRow(s.items, OwnedBy("a", "user", "a1", 1), ToOwner("a2", 2, s.drivers.now + CLAIM_SECONDS), 1);
    assert !Agree(Step(s, LATE).items, 0, 1);
  }

  predicate TwoTurnsHeld(s: Store) {
    && |s.items| == 2 && Fenced(s, OWNER)
    && s.items[0] == ClaimItem(NewItem(INPUT), FIRST, 0, 0, CLAIM_SECONDS)
    && s.items[1] == ClaimItem(NewItem(INPUT), OWNER, 1, 1, CLAIM_SECONDS)
  }

  lemma TwoTurns(s: Store)
    requires TwoTurnsHeld(s)
    ensures OneTurn(s) && !NothingClaimedYet(s, LATE)
  {
    assert Matches(OwnedBy("a", "user", OWNER.run, OWNER.generation), 1, s.items[1]);
  }
}
