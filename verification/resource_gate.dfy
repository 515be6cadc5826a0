// The journaled admission gate of one physical resource (container/resource_gate.py).
module ResourceGate {
  import opened Common

  datatype OwnerKind = Automation | Human

  datatype RawFence = RawFence(resource: string, epoch: int, kind: OwnerKind, owner: string)

  // A Fence object cannot be built with an epoch outside SQLite's positive 64-bit range.
  type Fence = f: RawFence | 1 <= f.epoch < 0x8000_0000_0000_0000 witness RawFence("", 1, Automation, "")

  datatype OperationState = Admitted | Running | Completed | Canceled | Unknown

  predicate Settled(s: OperationState) { s == Completed || s == Canceled }

  datatype Operation = Operation(
    parent: Option<string>, fence: Option<Fence>, digest: string, claim: string, state: OperationState)

  datatype Control = Control(fence: Fence, open: bool, command: string)

  datatype Action = Bind | Close

  // Payloads are compared through an injective digest, so the payload stands for it.
  datatype Payload =
    | ControlPayload(action: Action, fence: Fence, journal: string)
    | AdvancePayload(fence: Fence, next: Fence, journal: string)

  datatype Receipt = Receipt(command: string, payload: Payload, open: bool)

  datatype Gate = Gate(
    journal: string,
    control: Option<Control>,
    operations: map<string, Operation>,
    commands: map<string, Receipt>)

  datatype Error =
    | InvalidTransition | JournalChanged | CommandConflict | FenceChanged | MustBeClosed | NotDrained
    | AlreadyBound | InitialAutomationEpochRequired | HistoryConflict
    | OperationIdRequired | FenceRequired | ControlHeld | AlreadyRecorded | OperationRetired

  datatype Result<+T> = Ok(value: T) | Refused(error: Error)

  // What the middleware remembers of an admitted request.
  datatype Handle = Handle(id: string, claim: string, fence: Option<Fence>, journal: string, quiescent: bool)

  datatype CommandReply = CommandReply(gate: Gate, result: Result<Receipt>)
  datatype AdmitReply = AdmitReply(gate: Gate, result: Result<Handle>)
  datatype CheckReply = CheckReply(gate: Gate, result: Result<()>)

  // ---- guards

  function Blocking(g: Gate): set<string> {
    set id | id in g.operations && !Settled(g.operations[id].state)
  }

  // Before a resource is bound everything is admitted; afterwards only the open owner's fence.
  predicate MayEnter(g: Gate, fence: Option<Fence>) {
    g.control.Some? ==> g.control.value.open && fence == Some(g.control.value.fence)
  }

  predicate HistoryMatches(g: Gate, fence: Fence) {
    forall id :: id in g.operations && g.operations[id].fence.Some? ==> g.operations[id].fence.value == fence
  }

  // ---- control commands

  function Command(g: Gate, action: Action, fence: Fence, id: string, journal: string): CommandReply {
    var payload := ControlPayload(action, fence, journal);
    if journal != g.journal then CommandReply(g, Refused(JournalChanged))
    else if id in g.commands then
      CommandReply(g, if g.commands[id].payload == payload then Ok(g.commands[id]) else Refused(CommandConflict))
    else if g.control.Some? && g.control.value.fence != fence then CommandReply(g, Refused(AlreadyBound))
    else if g.control.None? && (fence.kind != Automation || fence.epoch != 1) then
      CommandReply(g, Refused(InitialAutomationEpochRequired))
    else if g.control.None? && !HistoryMatches(g, fence) then CommandReply(g, Refused(HistoryConflict))
    else
      var bound := if g.control.Some? then g.control.value else Control(fence, action == Bind, id);
      var control := if action == Close then bound.(open := false, command := id) else bound;
      var receipt := Receipt(id, payload, control.open);
      CommandReply(g.(control := Some(control), commands := g.commands[id := receipt]), Ok(receipt))
  }

  function Advance(g: Gate, fence: Fence, next: Fence, id: string, journal: string): CommandReply {
    var payload := AdvancePayload(fence, next, journal);
    if next.resource != fence.resource || next.epoch != fence.epoch + 1 || next.kind == fence.kind then
      CommandReply(g, Refused(InvalidTransition))
    else if journal != g.journal then CommandReply(g, Refused(JournalChanged))
    else if id in g.commands then
      CommandReply(g, if g.commands[id].payload == payload then Ok(g.commands[id]) else Refused(CommandConflict))
    else if g.control.None? || g.control.value.fence != fence then CommandReply(g, Refused(FenceChanged))
    else if g.control.value.open then CommandReply(g, Refused(MustBeClosed))
    else if Blocking(g) != {} then CommandReply(g, Refused(NotDrained))
    else
      var receipt := Receipt(id, payload, false);
      CommandReply(g.(control := Some(Control(next, false, id)), commands := g.commands[id := receipt]), Ok(receipt))
  }

  // ---- operations

  // `generated` is the identity made up for a request that names no step.
  function Admit(g: Gate, fence: Option<Fence>, parent: Option<string>, step: Option<string>, journal: string,
                 digest: string, generated: string, claim: string): AdmitReply {
    if fence.Some? && (parent.None? || step.None?) then AdmitReply(g, Refused(OperationIdRequired))
    else if fence.None? && (parent.Some? || step.Some?) then AdmitReply(g, Refused(FenceRequired))
    else
      var id := if step.Some? then step.value else generated;
      if fence.Some? && journal != g.journal then AdmitReply(g, Refused(JournalChanged))
      else if !MayEnter(g, fence) then AdmitReply(g, Refused(ControlHeld))
      else if id in g.operations then AdmitReply(g, Refused(AlreadyRecorded))
      else
        AdmitReply(g.(operations := g.operations[id := Operation(parent, fence, digest, claim, Admitted)]),
                   Ok(Handle(id, claim, fence, g.journal, false)))
  }

  predicate InFlight(g: Gate, h: Handle) {
    h.id in g.operations && g.operations[h.id].claim == h.claim &&
    (g.operations[h.id].state == Admitted || g.operations[h.id].state == Running)
  }

  function Checkpoint(g: Gate, h: Handle): CheckReply {
    if h.journal != g.journal then CheckReply(g, Refused(JournalChanged))
    else if !MayEnter(g, h.fence) then CheckReply(g, Refused(ControlHeld))
    else if !InFlight(g, h) then CheckReply(g, Refused(OperationRetired))
    else CheckReply(g.(operations := g.operations[h.id := g.operations[h.id].(state := Running)]), Ok(()))
  }

  function Finish(g: Gate, h: Handle, canceled: bool): Gate {
    if InFlight(g, h) then
      var state := if canceled then Canceled else if h.quiescent then Completed else Unknown;
      g.(operations := g.operations[h.id := g.operations[h.id].(state := state)])
    else g
  }

  // The SQLite journal as the action server uses it: every method is one immediate transaction.
  class ResourceGate {
    const journal: string
    var control: Option<Control>
    var operations: map<string, Operation>
    var commands: map<string, Receipt>

    ghost function View(): Gate
      reads this
    {
      Gate(journal, control, operations, commands)
    }

    constructor (journal: string)
      ensures View() == Gate(journal, None, map[], map[])
    {
      this.journal, control, operations, commands := journal, None, map[], map[];
    }

    method RunCommand(action: Action, fence: Fence, id: string, expected: string) returns (result: Result<Receipt>)
      modifies this
      ensures CommandReply(View(), result) == Command(old(View()), action, fence, id, expected)
      ensures operations == old(operations) && (result.Refused? ==> View() == old(View()))
      ensures id in old(commands) ==> View() == old(View()) && (result.Ok? ==> result.value == commands[id])
      ensures result.Ok? ==> expected == journal && result.value.payload == ControlPayload(action, fence, expected)
      ensures id !in old(commands) && result.Ok? ==>
                && control.Some? && control.value.fence == fence
                && result.value == Receipt(id, ControlPayload(action, fence, expected), control.value.open)
                && commands == old(commands)[id := result.value]
      ensures id !in old(commands) && result.Ok? && action == Close ==>
                !control.value.open && control.value.command == id && !result.value.open
      ensures id !in old(commands) && result.Ok? && action == Bind && old(control).None? ==>
                control == Some(Control(fence, true, id)) && result.value.open
      ensures id !in old(commands) && result.Ok? && action == Bind && old(control).Some? ==> control == old(control)
      ensures expected == journal && id !in old(commands) ==>
                (result.Ok? <==> if old(control).Some? then old(control).value.fence == fence
                                 else fence.kind == Automation && fence.epoch == 1 &&
                                      HistoryMatches(old(View()), fence))
    {
      if expected != journal { return Refused(JournalChanged); }
      var payload := ControlPayload(action, fence, expected);
      if id in commands {
        if commands[id].payload != payload { return Refused(CommandConflict); }
        return Ok(commands[id]);
      }
      if control.Some? {
        if control.value.fence != fence { return Refused(AlreadyBound); }
      } else {
        if fence.kind != Automation || fence.epoch != 1 { return Refused(InitialAutomationEpochRequired); }
        if exists o :: o in operations && operations[o].fence.Some? && operations[o].fence.value != fence {
          return Refused(HistoryConflict);
        }
        control := Some(Control(fence, action != Close, id));
      }
      if action == Close {
        control := Some(control.value.(open := false, command := id));
      }
      var receipt := Receipt(id, payload, control.value.open);
      commands := commands[id := receipt];
      result := Ok(receipt);
    }

    method AdvanceClosed(fence: Fence, next: Fence, id: string, expected: string) returns (result: Result<Receipt>)
      modifies this
      ensures CommandReply(View(), result) == Advance(old(View()), fence, next, id, expected)
      ensures operations == old(operations) && (result.Refused? ==> View() == old(View()))
      ensures id in old(commands) ==> View() == old(View()) && (result.Ok? ==> result.value == commands[id])
      ensures result.Ok? ==> expected == journal && result.value.payload == AdvancePayload(fence, next, expected)
      ensures id !in old(commands) && result.Ok? ==>
                && old(control).Some? && !old(control).value.open && old(control).value.fence == fence
                && Blocking(old(View())) == {}
                && control == Some(Control(next, false, id)) && result.value == Receipt(id, result.value.payload, false)
                && commands == old(commands)[id := result.value]
    {
      if next.resource != fence.resource || next.epoch != fence.epoch + 1 || next.kind == fence.kind {
        return Refused(InvalidTransition);
      }
      if expected != journal { return Refused(JournalChanged); }
      var payload := AdvancePayload(fence, next, expected);
      if id in commands {
        if commands[id].payload != payload { return Refused(CommandConflict); }
        return Ok(commands[id]);
      }
      if control.None? || control.value.fence != fence { return Refused(FenceChanged); }
      if control.value.open { return Refused(MustBeClosed); }
      if exists o :: o in operations && !Settled(operations[o].state) {
        ghost var o :| o in operations && !Settled(operations[o].state);
        assert o in Blocking(View());
        return Refused(NotDrained);
      }
      control := Some(control.value.(fence := next, command := id));
      var receipt := Receipt(id, payload, false);
      commands := commands[id := receipt];
      result := Ok(receipt);
    }

    method AdmitRequest(fence: Option<Fence>, parent: Option<string>, step: Option<string>, expected: string,
                        digest: string, generated: string, claim: string) returns (result: Result<Handle>)
      modifies this`operations
      ensures AdmitReply(View(), result) == Admit(old(View()), fence, parent, step, expected, digest, generated, claim)
      ensures result.Refused? ==> operations == old(operations)
      ensures result.Ok? ==>
                && var id := result.value.id;
                && result.value == Handle(id, claim, fence, journal, false) && id !in old(operations)
                && id == (if step.Some? then step.value else generated)
                && operations == old(operations)[id := Operation(parent, fence, digest, claim, Admitted)]
      ensures result.Ok? && control.Some? ==> control.value.open && fence == Some(control.value.fence)
    {
      if fence.Some? && (parent.None? || step.None?) { return Refused(OperationIdRequired); }
      if fence.None? && (parent.Some? || step.Some?) { return Refused(FenceRequired); }
      var id := if step.Some? then step.value else generated;
      if fence.Some? && expected != journal { return Refused(JournalChanged); }
      if control.Some? && (!control.value.open || fence != Some(control.value.fence)) { return Refused(ControlHeld); }
      if id in operations { return Refused(AlreadyRecorded); }
      operations := operations[id := Operation(parent, fence, digest, claim, Admitted)];
      result := Ok(Handle(id, claim, fence, journal, false));
    }

    method PassCheckpoint(h: Handle) returns (result: Result<()>)
      modifies this`operations
      ensures CheckReply(View(), result) == Checkpoint(old(View()), h)
      ensures result.Refused? ==> operations == old(operations)
      ensures result.Ok? ==>
                && (control.Some? ==> control.value.open && h.fence == Some(control.value.fence))
                && h.id in old(operations) && old(operations)[h.id].claim == h.claim
                && operations == old(operations)[h.id := old(operations)[h.id].(state := Running)]
    {
      if h.journal != journal { return Refused(JournalChanged); }
      if control.Some? && (!control.value.open || h.fence != Some(control.value.fence)) { return Refused(ControlHeld); }
      if h.id !in operations || operations[h.id].claim != h.claim { return Refused(OperationRetired); }
      var state := operations[h.id].state;
      if state != Admitted && state != Running { return Refused(OperationRetired); }
      operations := operations[h.id := operations[h.id].(state := Running)];
      result := Ok(());
    }

    method FinishRequest(h: Handle, canceled: bool)
      modifies this`operations
      ensures View() == Finish(old(View()), h, canceled)
      ensures h.id !in old(operations) || old(operations)[h.id].claim != h.claim ==> operations == old(operations)
      ensures h.id in old(operations) && old(operations)[h.id].claim == h.claim ==>
                var was := old(operations)[h.id].state;
                operations == old(operations)[h.id := old(operations)[h.id].(
                  state := if was != Admitted && was != Running then was else if canceled then Canceled
                           else if h.quiescent then Completed else Unknown)]
    {
      var state := if canceled then Canceled else if h.quiescent then Completed else Unknown;
      if h.id in operations && operations[h.id].claim == h.claim {
        var found := operations[h.id];
        if found.state == Admitted || found.state == Running {
          operations := operations[h.id := found.(state := state)];
        }
      }
    }
  }
}
