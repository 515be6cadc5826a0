// A rebinding whose record and lease name different sessions, in a state that ordinary work reaches.
module InboxExample {
  import opened Common
  import opened Inbox
  import opened InboxRuns
  import opened InboxGenerations
  import Driver
  import DriverRuns

  lemma {:induction false} RunConcat(s: Store, a: seq<Op>, b: seq<Op>)
    ensures Run(s, a + b) == Run(Run(s, a), b)
    decreases |a|
  {
    if a == [] {
      assert a + b == b;
    } else {
      assert (a + b)[1..] == a[1..] + b;
      RunConcat(Step(s, a[0]), a[1..], b);
    }
  }

  lemma RunSnoc(s: Store, ops: seq<Op>, op: Op)
    ensures Run(s, ops + [op]) == Step(Run(s, ops), op)
  {
    RunConcat(s, ops, [op]);
    assert [op][1..] == [];
  }

  function Reserve(session: string, uuid: RunId): DriverRuns.Op {
    DriverRuns.OpReserve(session, "user", None, uuid, "worker", None, Driver.Reserved, true, false)
  }

  // Two sessions of one user: "a" is on its second generation, "b" on its first, and both are live.
  lemma TwoLiveSessions() returns (ops: seq<Op>)
    ensures AllPaired(ops)
    ensures var s := Run(Init(2, 0), ops);
            && s.items == [] && s.nextMessage == 0
            && Driver.Fence(s.drivers, "a", "user", "a2", 2) && Driver.Fence(s.drivers, "b", "user", "b1", 1)
  {
    var second := SecondGeneration();
    var other := Drive(Reserve("b", "b1"));
    assert Driver.LiveSessions(Run(Init(2, 0), second).drivers, "user") == {"a"};
    RunSnoc(Init(2, 0), second, other);
    ops := second + [other];
  }

  lemma SecondGeneration() returns (ops: seq<Op>)
    ensures AllPaired(ops)
    ensures var s := Run(Init(2, 0), ops);
            && s.items == [] && s.nextMessage == 0 && s.drivers.limit == 2 && s.drivers.rows.Keys == {"a"}
            && Driver.OpenSession(s.drivers, "b", "user") && Driver.Fence(s.drivers, "a", "user", "a2", 2)
  {
    var first := FirstGeneration();
    var free := Drive(DriverRuns.OpRelease(Driver.RunLease("a", "user", "a1", 1, "worker")));
    RunSnoc(Init(2, 0), first, free);
    assert Driver.LiveSessions(Run(Init(2, 0), first + [free]).drivers, "user") == {};
    RunSnoc(Init(2, 0), first + [free], Drive(Reserve("a", "a2")));
    ops := first + [free] + [Drive(Reserve("a", "a2"))];
  }

  lemma FirstGeneration() returns (ops: seq<Op>)
    ensures AllPaired(ops)
    ensures var s := Run(Init(2, 0), ops);
            && s.items == [] && s.nextMessage == 0 && s.drivers.now == 0 && s.drivers.limit == 2
            && Driver.OpenSession(s.drivers, "a", "user") && Driver.OpenSession(s.drivers, "b", "user")
            && s.drivers.rows.Keys == {"a"}
            && s.drivers.rows["a"].generation == 1 && s.drivers.rows["a"].trigger == None
            && Driver.Holds(s.drivers, Driver.RunLease("a", "user", "a1", 1, "worker"))
  {
    var s0 := Init(2, 0);
    var a, b := Drive(DriverRuns.OpCreate("a", "user")), Drive(DriverRuns.OpCreate("b", "user"));
    RunSnoc(s0, [], a);
    RunSnoc(s0, [] + [a], b);
    var both := Run(s0, [] + [a] + [b]);
    assert Driver.LiveSessions(both.drivers, "user") == {};
    RunSnoc(s0, [] + [a] + [b], Drive(Reserve("a", "a1")));
    ops := [] + [a] + [b] + [Drive(Reserve("a", "a1"))];
  }

  const INPUT := Request("a", "user", None, Followup, "hello", [], Unknown, "", false)
  const OWNER := Driver.RunLease("a", "user", "a2", 2, "worker")
  const STRANGER := Driver.RunLease("b", "user", "b1", 1, "worker")
  const RECORD := Driver.RecoveredDriver("a", "user", Some("a2"), 2, Driver.Reserved, None)

  // The live generation of "a" claims an input.
  lemma LiveClaim() returns (ops: seq<Op>)
    ensures AllPaired(ops)
    ensures var s := Run(Init(2, 0), ops);
            && |s.items| == 1 && Matches(HeldBy(OWNER), 0, s.items[0])
            && Fenced(s, OWNER) && Fenced(s, STRANGER)
  {
    var accepted := AcceptedInput();
    var claim := Claim(OWNER, 1, Boundary(true, false), false, {});
    ClaimsTheOnlyRow(Run(Init(2, 0), accepted));
    RunSnoc(Init(2, 0), accepted, claim);
    ops := accepted + [claim];
  }

  lemma AcceptedInput() returns (ops: seq<Op>)
    ensures AllPaired(ops)
    ensures var s := Run(Init(2, 0), ops); s.items == [NewItem(INPUT)] && Fenced(s, OWNER) && Fenced(s, STRANGER)
  {
    var drives := TwoLiveSessions();
    var accept := AcceptInput(INPUT, true, false, {});
    RunSnoc(Init(2, 0), drives, accept);
    assert Step(Run(Init(2, 0), drives), accept).items == [NewItem(INPUT)];
    ops := drives + [accept];
  }

  lemma OnlyRow(items: seq<Item>, q: Where, limit: nat)
    requires |items| == 1 && limit > 0
    ensures First(items, q, limit) == if Matches(q, 0, items[0]) then [0] else []
  {
    assert Pick(items, q, limit, 1) == [] && Pick(items, q, limit - 1, 1) == [];
  }

  lemma SelectsTheOnlyRow(items: seq<Item>)
    requires items == [NewItem(INPUT)]
    ensures Selected(items, "a", "user", Boundary(true, false)) == [0]
  {
    OnlyRow(items, AnyOf("a", "user").(state := Some(Claimed), origins := Some({TaskResult})), 1);
    OnlyRow(items, Waiting("a", "user", NextStep), MAX_STEP_BATCH);
    OnlyRow(items, Waiting("a", "user", NextTurn), 1);
  }

  lemma ClaimsTheOnlyRow(s: Store)
    requires s.items == [NewItem(INPUT)] && Fenced(s, OWNER) && Fenced(s, STRANGER)
    ensures var after := ClaimOnce(s, OWNER, 1, Boundary(true, false), false, {}).s;
            && |after.items| == 1 && Matches(HeldBy(OWNER), 0, after.items[0])
            && Fenced(after, OWNER) && Fenced(after, STRANGER)
  {
    SelectsTheOnlyRow(s.items);
    ClaimsRowZero(s);
  }

  lemma ClaimsRowZero(s: Store)
    requires s.items == [NewItem(INPUT)] && Fenced(s, OWNER) && Fenced(s, STRANGER)
    ensures var after := ClaimSelected(s, OWNER, [0], {}).s;
            && |after.items| == 1 && Matches(HeldBy(OWNER), 0, after.items[0])
            && Fenced(after, OWNER) && Fenced(after, STRANGER)
  {
    assert Available(s.items[0], {});
    assert 0 !in BrokenRows(s.items, [0], {});
    SomeElement(BrokenRows(s.items, [0], {}));
    StampPointwise(s.items, [0], 1, OWNER, s.nextMessage, TurnOf(s, OWNER, 1), s.drivers.now + CLAIM_SECONDS);
  }

  // Rebinding that claim to the lease of "b" takes it from a generation that may still write, and moves its
  // claim generation from 2 back to 1.
  lemma UnpairedRebindingExample() returns (ops: seq<Op>)
    ensures AllPaired(ops)
    ensures var s := Run(Init(2, 0), ops);
            && |s.items| == 1 && Touched(s, RebindClaims(RECORD, STRANGER), 0)
            && TakesLiveClaim(s, STRANGER, 0) && LiveElsewhere(s, RECORD, STRANGER)
            && ClaimGeneration(s.items[0]) == 2
            && ClaimGeneration(Step(s, RebindClaims(RECORD, STRANGER)).items[0]) == 1
  {
    ops := LiveClaim();
    var s := Run(Init(2, 0), ops);
    RewrittenRow(s.items, OwnedBy("a", "user", "a2", 2),
                 ToOwner(STRANGER.run, STRANGER.generation, s.drivers.now + CLAIM_SECONDS), 0);
  }
}
