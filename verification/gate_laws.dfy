// What a gate command does for the party that issues it: a bind lets its owner work until somebody closes, a
// close stops everyone for good, and a closed and drained gate is handed over.
module GateLaws {
  import opened Common
  import opened ResourceGate
  import opened GateRuns

  // ---- a close closes

  // A close or an advance was granted.
  predicate Closes(p: Payload) { p.AdvancePayload? || p.action == Close }

  // A journal that records a close or an advance belongs to a closed gate.
  ghost predicate ClosesKept(g: Gate) {
    forall id :: id in g.commands && Closes(g.commands[id].payload) ==> Closed(g)
  }

  lemma StepKeepsCloses(g: Gate, op: Op)
    requires ClosesKept(g)
    ensures ClosesKept(Step(g, op))
  {
  }

  lemma {:induction false} RunKeepsCloses(g: Gate, ops: seq<Op>)
    requires ClosesKept(g)
    ensures ClosesKept(Run(g, ops))
    decreases |ops|
  {
    if ops == [] {
    } else {
      StepKeepsCloses(g, ops[0]);
      RunKeepsCloses(Step(g, ops[0]), ops[1..]);
    }
  }

  // Over every run: from the moment a close is answered with a receipt, new or replayed, nothing is admitted and
  // no checkpoint is passed again, whatever is presented and whatever commands follow.
  lemma GrantedCloseStopsEveryone(journal: string, before: seq<Op>, closing: Fence, id: string, expected: string,
                                  ops: seq<Op>, h: Handle, fence: Option<Fence>, parent: Option<string>,
                                  step: Option<string>, digest: string, generated: string, claim: string)
    requires Command(Run(Init(journal), before), Close, closing, id, expected).result.Ok?
    ensures var g := Run(Command(Run(Init(journal), before), Close, closing, id, expected).gate, ops);
            && Checkpoint(g, h).result.Refused?
            && Admit(g, fence, parent, step, h.journal, digest, generated, claim).result.Refused?
  {
    RunKeepsCloses(Init(journal), before);
    RunKeepsReceipts(Init(journal), before);
    var g := Run(Init(journal), before);
    CloseCloses(g, closing, id, expected);
    ClosedForever(Command(g, Close, closing, id, expected).gate, ops, h, fence, parent, step, digest, generated, claim);
  }

  lemma CloseCloses(g: Gate, closing: Fence, id: string, expected: string)
    requires ClosesKept(g) && ReceiptsOk(g) && Command(g, Close, closing, id, expected).result.Ok?
    ensures Closed(Command(g, Close, closing, id, expected).gate)
    ensures id !in g.commands ==> !Command(g, Close, closing, id, expected).result.value.open
  {
  }

  // ---- a bind opens, until somebody closes

  predicate OpenFor(g: Gate, fence: Fence) {
    g.control.Some? && g.control.value.open && g.control.value.fence == fence
  }

  predicate NobodyCloses(ops: seq<Op>) {
    forall k :: 0 <= k < |ops| ==> !(ops[k].OpCommand? && ops[k].action == Close)
  }

  lemma {:induction false} StaysOpen(g: Gate, ops: seq<Op>, fence: Fence)
    requires OpenFor(g, fence) && NobodyCloses(ops)
    ensures OpenFor(Run(g, ops), fence) && Run(g, ops).journal == g.journal
    decreases |ops|
  {
    if ops == [] {
    } else {
      assert OpenFor(Step(g, ops[0]), fence) && Step(g, ops[0]).journal == g.journal;
      assert forall k :: 0 <= k < |ops[1..]| ==> ops[1..][k] == ops[k + 1];
      StaysOpen(Step(g, ops[0]), ops[1..], fence);
    }
  }

  // After a granted bind of an unbound gate, and for as long as nobody closes it, every fresh step of the owner
  // is admitted and passes its checkpoints, and requests of anybody else, fenced or not, are held.
  lemma BoundGateServesItsOwner(g: Gate, fence: Fence, id: string, ops: seq<Op>, parent: string, step: string,
                                digest: string, generated: string, claim: string, other: Option<Fence>)
    requires g.control.None? && id !in g.commands && Command(g, Bind, fence, id, g.journal).result.Ok?
    requires NobodyCloses(ops) && other != Some(fence)
    requires step !in Run(Command(g, Bind, fence, id, g.journal).gate, ops).operations
    ensures var now := Run(Command(g, Bind, fence, id, g.journal).gate, ops);
            var entry := Admit(now, Some(fence), Some(parent), Some(step), g.journal, digest, generated, claim);
            && entry.result == Ok(Handle(step, claim, Some(fence), g.journal, false))
            && Checkpoint(entry.gate, entry.result.value).result.Ok?
            && Admit(now, other, if other.Some? then Some(parent) else None, if other.Some? then Some(step) else None,
                     g.journal, digest, generated, claim).result == Refused(ControlHeld)
  {
    StaysOpen(Command(g, Bind, fence, id, g.journal).gate, ops, fence);
  }

  // A gate nobody has bound admits every request that names no step already journaled.
  lemma UnboundGateAdmits(g: Gate, fence: Option<Fence>, parent: string, step: string, digest: string,
                          generated: string, claim: string)
    requires g.control.None? && (if fence.Some? then step else generated) !in g.operations
    ensures Admit(g, fence, if fence.Some? then Some(parent) else None, if fence.Some? then Some(step) else None,
                  g.journal, digest, generated, claim).result.Ok?
  {
  }

  // ---- a drained gate is handed over

  // Once every journaled operation is confirmed, the owner's close and the next owner's advance are granted in
  // turn: the gate is then closed under the next fence, one epoch on, and both commands are on record.
  lemma DrainedGateHandsOver(g: Gate, next: Fence, closing: string, advancing: string)
    requires g.control.Some? && Blocking(g) == {} && closing !in g.commands && advancing !in g.commands
    requires closing != advancing
    requires var fence := g.control.value.fence;
             next.resource == fence.resource && next.epoch == fence.epoch + 1 && next.kind != fence.kind
    ensures var fence := g.control.value.fence;
            var closed := Command(g, Close, fence, closing, g.journal);
            var moved := Advance(closed.gate, fence, next, advancing, g.journal);
            && closed.result.Ok? && moved.result.Ok? && !closed.result.value.open && !moved.result.value.open
            && moved.gate.control == Some(Control(next, false, advancing))
            && moved.gate.operations == g.operations
            && moved.gate.commands == g.commands[closing := closed.result.value][advancing := moved.result.value]
  {
    var fence := g.control.value.fence;
    assert Blocking(Command(g, Close, fence, closing, g.journal).gate) == {};
  }
}

// What the journal says of one request, from its admission to the end of its bracket.
module GateBrackets {
  import opened Common
  import opened ResourceGate
  import GateRuns
  import opened GateRequests

  function StateOf(s: System, id: string): Option<OperationState> {
    if id in s.gate.operations then Some(s.gate.operations[id].state) else None
  }

  function Admitting(fence: Fence, parent: string, step: string, journal: string, digest: string, claim: string): Op {
    Enter(GateRuns.OpAdmit(Some(fence), Some(parent), Some(step), journal, digest, "", claim))
  }

  // An admitted request that starts while its gate still lets it enter is running; it ends completed if its body
  // declares itself quiescent, unknown if it does not, and canceled if it never starts.
  lemma BracketEnds(s: System, fence: Fence, parent: string, step: string, digest: string, claim: string)
    requires Inv(s) && step !in s.gate.operations && MayEnter(s.gate, Some(fence))
    ensures var entered := Step(s, Admitting(fence, parent, step, s.gate.journal, digest, claim));
            var inside := Step(entered, Start(step));
            && StateOf(entered, step) == Some(Admitted)
            && StateOf(Step(entered, Leave(step)), step) == Some(Canceled)
            && StateOf(inside, step) == StateOf(Step(inside, Check(step)), step) == Some(OperationState.Running)
            && StateOf(Step(inside, Leave(step)), step) == Some(Unknown)
            && StateOf(Step(Step(inside, Quiesce(step)), Leave(step)), step) == Some(Completed)
  {
    var entered := Step(s, Admitting(fence, parent, step, s.gate.journal, digest, claim));
    assert entered.requests[step] == Entered(Handle(step, claim, Some(fence), s.gate.journal, false));
    assert Step(entered, Start(step)).requests[step].InApp?;
  }

  // A close between a request's admission and its start keeps its body from ever running.
  lemma CloseHoldsTheStart(s: System, id: string, closing: Fence, command: string)
    requires Inv(s) && id in s.requests && s.requests[id].Entered? && command !in s.gate.commands
    requires GateRuns.Submit(s.gate, command, ControlPayload(Close, closing, s.gate.journal)).result.Ok?
    ensures var closed := Step(s, Op.Command(GateRuns.OpCommand(Close, closing, command, s.gate.journal)));
            && Step(closed, Start(id)) == closed
            && StateOf(Step(closed, Leave(id)), id) == Some(Canceled)
  {
    assert Truthful(s, id);
  }
}
