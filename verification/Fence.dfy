/** The kernel gate (`gate.h`) and the ticket half of its driver process (`driver.c`). */
module Fence {
  import opened Common

  /** Five seconds of boottime, in nanoseconds. */
  const HORIZON: int := 5_000_000_000

  datatype Window = Window(captured: u64, deadline: u64)

  const NO_TICKET: Window := Window(0, 0)

  /** The per-packet predicate: a missing map entry denies. */
  predicate Allows(w: Option<Window>, now: u64) {
    && w.Some?
    && w.value.captured != 0
    && w.value.deadline > w.value.captured
    && w.value.deadline - w.value.captured <= HORIZON
    && w.value.captured <= now < w.value.deadline
  }

  datatype Command = Capture | Arm(requested: u64) | Deny | Malformed

  datatype Line = Ticket(captured: u64, deadline: u64) | Armed | Denied | Rejected

  /** What one round of the driver loop reads besides the command: boottime, and whether the
      kernel accepts the map operation (a refusal ends the process without an answer). */
  datatype Input = Input(command: Command, boot: u64, mapOk: bool)

  /** The driver process and its kernel map. `armed` records every capture time ever published
      to the map, in order; it is history, not state of the program. */
  datatype Driver = Driver(dual: bool, running: bool, ticket: Window, slot: Option<Window>, armed: seq<u64>)

  function Fresh(dual: bool): Driver {
    Driver(dual, true, NO_TICKET, None, [])
  }

  /** One iteration of the command loop. `None` is the silence of a process that died. */
  function Handle(d: Driver, i: Input): (Driver, Option<Line>) {
    if !d.running then
      (d, None)
    else if i.command == Capture && (!d.dual || d.ticket.captured == 0) then
      var t := Window(i.boot, (i.boot + HORIZON) % (U64_MAX + 1));
      (d.(ticket := t), Some(Ticket(t.captured, t.deadline)))
    else if i.command.Arm? && i.command.requested == d.ticket.captured && Allows(Some(d.ticket), i.boot) then
      if i.mapOk then
        (d.(ticket := NO_TICKET, slot := Some(d.ticket), armed := d.armed + [d.ticket.captured]), Some(Armed))
      else
        (d.(running := false), None)
    else if i.command == Deny then
      if i.mapOk then
        (d.(ticket := NO_TICKET, slot := None), Some(Denied))
      else
        (d.(ticket := NO_TICKET, running := false), None)
    else if d.dual then
      if i.mapOk then (d.(slot := None, running := false), Some(Rejected)) else (d.(running := false), None)
    else
      (d, Some(Rejected))
  }

  function HandleAll(d: Driver, inputs: seq<Input>): Driver {
    if inputs == [] then d else Handle(HandleAll(d, inputs[..|inputs| - 1]), inputs[|inputs| - 1]).0
  }

  function Answers(d: Driver, inputs: seq<Input>): seq<Line> {
    if inputs == [] then [] else
    var before := inputs[..|inputs| - 1];
    match Handle(HandleAll(d, before), inputs[|inputs| - 1]).1
    case None => Answers(d, before)
    case Some(line) => Answers(d, before) + [line]
  }

  /** The driver process in its own form: a loop that mutates one ticket and one map entry. */
  class Process {
    const dual: bool
    var running: bool
    var ticket: Window
    var slot: Option<Window>
    ghost var armed: seq<u64>

    constructor (dual: bool)
      ensures View() == Fresh(dual)
    {
      this.dual := dual;
      running, ticket, slot, armed := true, NO_TICKET, None, [];
    }

    ghost function View(): Driver
      reads this
    {
      Driver(dual, running, ticket, slot, armed)
    }

    method Round(i: Input) returns (answer: Option<Line>)
      modifies this
      ensures (View(), answer) == Handle(old(View()), i)
    {
      answer := None;
      if !running {
        return;
      }
      if i.command == Capture && (!dual || ticket.captured == 0) {
        ticket := Window(i.boot, (i.boot + HORIZON) % (U64_MAX + 1));
        answer := Some(Ticket(ticket.captured, ticket.deadline));
      } else if i.command.Arm? && i.command.requested == ticket.captured && Allows(Some(ticket), i.boot) {
        if !i.mapOk {
          running := false;
          return;
        }
        slot := Some(ticket);
        armed := armed + [ticket.captured];
        ticket := NO_TICKET;
        answer := Some(Armed);
      } else if i.command == Deny {
        ticket := NO_TICKET;
        if !i.mapOk {
          running := false;
          return;
        }
        slot := None;
        answer := Some(Denied);
      } else {
        if dual {
          running := false;
          if !i.mapOk {
            return;
          }
          slot := None;
        }
        answer := Some(Rejected);
      }
    }

    method Serve(inputs: seq<Input>) returns (out: seq<Line>)
      modifies this
      ensures View() == HandleAll(old(View()), inputs)
      ensures out == Answers(old(View()), inputs)
    {
      out := [];
      var k := 0;
      assert inputs[..0] == [];
      while k < |inputs|
        invariant 0 <= k <= |inputs|
        invariant View() == HandleAll(old(View()), inputs[..k])
        invariant out == Answers(old(View()), inputs[..k])
      {
        assert inputs[..k + 1][..k] == inputs[..k];
        var answer := Round(inputs[k]);
        if answer.Some? {
          out := out + [answer.value];
        }
        k := k + 1;
      }
      assert inputs[..k] == inputs;
    }
  }

  /** Every window the map ever holds was captured by this driver and lasts exactly the horizon. */
  predicate SlotCaptured(d: Driver) {
    && (d.ticket == NO_TICKET || d.ticket.deadline == (d.ticket.captured + HORIZON) % (U64_MAX + 1))
    && (d.slot.Some? ==>
          && d.slot.value.captured != 0
          && d.slot.value.deadline == d.slot.value.captured + HORIZON
          && d.armed != [] && d.armed[|d.armed| - 1] == d.slot.value.captured)
  }

  lemma HandleKeepsSlotCaptured(d: Driver, i: Input)
    requires SlotCaptured(d)
    ensures SlotCaptured(Handle(d, i).0)
    ensures d.armed <= Handle(d, i).0.armed
  {
  }

  /** In every run of the driver the map is empty or holds the window of its last ARM. */
  lemma {:induction false} ServedSlotIsCaptured(dual: bool, inputs: seq<Input>)
    ensures SlotCaptured(HandleAll(Fresh(dual), inputs))
  {
    if inputs != [] {
      ServedSlotIsCaptured(dual, inputs[..|inputs| - 1]);
      HandleKeepsSlotCaptured(HandleAll(Fresh(dual), inputs[..|inputs| - 1]), inputs[|inputs| - 1]);
    }
  }

  /** A driver that holds no ticket arms nothing, whatever is asked of it: no replay of an ARM. */
  lemma NoTicketArmsNothing(d: Driver, i: Input)
    requires d.ticket.captured == 0
    ensures Handle(d, i).0.armed == d.armed
    ensures Handle(d, i).1 != Some(Armed)
  {
  }

  // ----- what an answer means

  /** Every answer tells what became of the map and of the ticket: DENIED empties the map, ARMED puts
      the window of the capture asked for into it, a ticket is five seconds from now. */
  lemma AnswerTells(d: Driver, i: Input)
    requires SlotCaptured(d)
    ensures var (n, line) := Handle(d, i);
            && (line == Some(Denied) ==> i.command == Deny && n.slot == None && n.ticket.captured == 0)
            && (line == Some(Armed) ==>
                  && i.command.Arm? && n.ticket.captured == 0 && i.command.requested != 0
                  && n.slot == Some(Window(i.command.requested, i.command.requested + 5_000_000_000))
                  && i.command.requested <= i.boot < i.command.requested + 5_000_000_000)
            && (line.Some? && line.value.Ticket? ==>
                  && i.command == Capture && n.slot == d.slot && line.value.captured == i.boot
                  && line.value.deadline == (i.boot + 5_000_000_000) % 0x1_0000_0000_0000_0000
                  && n.ticket == Window(i.boot, line.value.deadline))
            && (line == Some(Rejected) ==> if d.dual then n.slot == None && !n.running else n == d)
            && (line == None ==> n.slot == d.slot && !n.running)
  {
  }

  /** A running driver does what it is asked: it denies; it issues a ticket unless a dual one is out
      already; it arms the ticket that is out while its five seconds last. Everything else is rejected. */
  lemma DriverAnswers(d: Driver, i: Input)
    requires d.running && i.mapOk && SlotCaptured(d)
    ensures var line := Handle(d, i).1;
            && (i.command == Deny <==> line == Some(Denied))
            && (i.command == Capture && (!d.dual || d.ticket.captured == 0) <==> line.Some? && line.value.Ticket?)
            && (line == Some(Armed) <==>
                  && i.command.Arm? && i.command.requested == d.ticket.captured != 0
                  && d.ticket.captured + 5_000_000_000 < 0x1_0000_0000_0000_0000
                  && d.ticket.captured <= i.boot < d.ticket.captured + 5_000_000_000)
            && line.Some? && (i.command == Malformed ==> line == Some(Rejected))
  {
  }

  /** What the answers alone say about the map: the last of ARMED and DENIED, or a dual rejection, decides. */
  function SlotBy(dual: bool, inputs: seq<Input>, d: Driver): Option<Window> {
    if inputs == [] then None else
    var n := |inputs| - 1;
    match Handle(HandleAll(d, inputs[..n]), inputs[n]).1
    case None => SlotBy(dual, inputs[..n], d)
    case Some(line) =>
      if line.Armed? && inputs[n].command.Arm? then
        Some(Window(inputs[n].command.requested, (inputs[n].command.requested + 5_000_000_000) % (U64_MAX + 1)))
      else if line.Denied? || (line.Rejected? && dual) then None
      else SlotBy(dual, inputs[..n], d)
  }

  lemma {:induction false} SlotToldByAnswers(dual: bool, inputs: seq<Input>)
    ensures HandleAll(Fresh(dual), inputs).slot == SlotBy(dual, inputs, Fresh(dual))
    ensures HandleAll(Fresh(dual), inputs).dual == dual
  {
    if inputs != [] {
      var n := |inputs| - 1;
      SlotToldByAnswers(dual, inputs[..n]);
      ServedSlotIsCaptured(dual, inputs[..n]);
      AnswerTells(HandleAll(Fresh(dual), inputs[..n]), inputs[n]);
    }
  }

  /** CAPTURE, ARM of what it answered within five seconds: from then on, until the driver hears
      more, packets pass exactly inside these five seconds. */
  lemma CaptureArmOpens(d: Driver, captured: u64, boot: u64)
    requires d.running && SlotCaptured(d) && (d.dual ==> d.ticket.captured == 0)
    requires 0 < captured <= boot < captured + 5_000_000_000 < 0x1_0000_0000_0000_0000
    ensures var (e, first) := Handle(d, Input(Capture, captured, true));
            var (f, second) := Handle(e, Input(Arm(captured), boot, true));
            && first == Some(Ticket(captured, captured + 5_000_000_000)) && second == Some(Armed)
            && forall now: u64 :: Allows(f.slot, now) <==> captured <= now < captured + 5_000_000_000
  {
  }
}
