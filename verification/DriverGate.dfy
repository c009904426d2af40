/** The Go half of the ticket protocol (`driver.go`): one child process behind private pipes. */
module DriverGate {
  import opened Common
  import opened Fence

  datatype Gate = Gate(ticket: Window, lastCapture: u64, poisoned: bool)

  const FRESH: Gate := Gate(NO_TICKET, 0, false)

  /** How one exchange went outside the gate's control: whether the lock, the deadlines and the
      identity checks allowed it to start, the line read back (if any), and whether the checks and
      the deadline still held at the end. */
  datatype Talk = Talk(start: bool, line: Option<Line>, finish: bool)

  predicate Ready(g: Gate, c: Command) {
    match c
    case Capture => g.ticket == NO_TICKET
    case Arm(captured) => captured != 0 && g.ticket.captured == captured
    case _ => true
  }

  /** Whether the command is written to the pipe at all. */
  predicate Sends(g: Gate, c: Command, start: bool) {
    !g.poisoned && start && Ready(g, c)
  }

  /** What of it reaches the pipe. */
  function Written(g: Gate, c: Command, talk: Talk): seq<Command> {
    if Sends(g, c, talk.start) then [c] else []
  }

  predicate Accepts(g: Gate, c: Command, line: Line) {
    match c
    case Capture =>
      && line.Ticket? && line.captured != 0 && line.deadline != 0
      && g.lastCapture < line.captured < line.deadline && line.deadline - line.captured == HORIZON
    case Arm(_) => line.Armed?
    case Deny => line.Denied?
    case Malformed => false
  }

  /** The gate after an accepted answer. */
  function Settle(g: Gate, c: Command, line: Line): Gate {
    if c.Capture? && line.Ticket? then g.(ticket := Window(line.captured, line.deadline), lastCapture := line.captured)
    else g.(ticket := NO_TICKET)
  }

  function Poison(g: Gate): Gate { g.(poisoned := true) }

  /** One exchange: an answer accepted in time settles the gate, anything else poisons it. */
  function Exchange(g: Gate, c: Command, talk: Talk): (Gate, bool) {
    if g.poisoned then (g, false)
    else if !Sends(g, c, talk.start) then (Poison(g), false)
    else match talk.line
      case None => (Poison(g), false)
      case Some(line) =>
        if !Accepts(g, c, line) then (Poison(g), false)
        else if !talk.finish then (Poison(Settle(g, c, line)), false)
        else (Settle(g, c, line), true)
  }

  /** An exchange succeeds exactly when nothing interfered and the driver gave the one answer asked for:
      a ticket of five seconds later than any before while none is out, ARMED for the ticket that is
      out, or DENIED. Anything else poisons the gate. */
  lemma ExchangeExact(g: Gate, c: Command, talk: Talk)
    ensures var (n, ok) := Exchange(g, c, talk);
            && (ok <==>
                  && !g.poisoned && talk.start && talk.finish && talk.line.Some?
                  && match c
                     case Capture =>
                       && g.ticket == Window(0, 0) && talk.line.value.Ticket?
                       && talk.line.value.captured > g.lastCapture
                       && talk.line.value.deadline == talk.line.value.captured + 5_000_000_000
                     case Arm(captured) => captured > 0 && g.ticket.captured == captured && talk.line.value.Armed?
                     case Deny => talk.line.value.Denied?
                     case Malformed => false)
            && (!ok ==> n.poisoned)
            && (ok ==> !n.poisoned
                       && n.ticket == (if c.Capture? then Window(talk.line.value.captured, talk.line.value.deadline)
                                       else Window(0, 0))
                       && n.lastCapture == if c.Capture? then talk.line.value.captured else g.lastCapture)
  {
  }

  /** What the gate learns from outside: whether lock, deadlines and identity checks hold, or the line
      read back for a command, if any. */
  datatype Heard = Checked(ok: bool) | Said(line: Option<Line>)

  /** The exchange that was heard: a check, an answer, a check. */
  function TalkOf(heard: seq<Heard>): Talk {
    Talk(|heard| > 0 && heard[0] == Checked(true),
         if |heard| > 1 && heard[1].Said? then heard[1].line else None,
         |heard| > 2 && heard[2] == Checked(true))
  }

  /** The pipes: what comes back is arbitrary; both directions are recorded. */
  class Pipes {
    var sent: seq<Command>
    var heard: seq<Heard>

    constructor ()
      ensures sent == [] && heard == []
    {
      sent, heard := [], [];
    }

    method Allowed() returns (ok: bool)
      modifies this
      ensures sent == old(sent) && heard == old(heard) + [Checked(ok)]
    {
      ok := *;
      heard := heard + [Checked(ok)];
    }

    method Ask(c: Command) returns (line: Option<Line>)
      modifies this
      ensures sent == old(sent) + [c] && heard == old(heard) + [Said(line)]
    {
      sent := sent + [c];
      line := *;
      heard := heard + [Said(line)];
    }
  }

  class DriverGate {
    var ticket: Window
    var lastCapture: u64
    var poisoned: bool

    constructor ()
      ensures View() == FRESH
    {
      ticket, lastCapture, poisoned := NO_TICKET, 0, false;
    }

    ghost function View(): Gate
      reads this
    {
      Gate(ticket, lastCapture, poisoned)
    }

    method Capture(p: Pipes) returns (t: Option<Window>)
      modifies this, p
      ensures old(p.heard) <= p.heard && |p.heard| <= |old(p.heard)| + 3
      ensures var talk := TalkOf(p.heard[|old(p.heard)|..]);
              && (View(), t.Some?) == Exchange(old(View()), Command.Capture, talk)
              && p.sent == old(p.sent) + Written(old(View()), Command.Capture, talk)
      ensures t.Some? ==> t.value == ticket
    {
      t := None;
      if poisoned {
        return;
      }
      var start := p.Allowed();
      if !start || ticket != NO_TICKET {
        poisoned := true;
        return;
      }
      var line := p.Ask(Command.Capture);
      if line.None? || !line.value.Ticket? {
        poisoned := true;
        return;
      }
      var c, d := line.value.captured, line.value.deadline;
      if c == 0 || d == 0 || c <= lastCapture || d <= c || d - c != HORIZON {
        poisoned := true;
        return;
      }
      ticket := Window(c, d);
      lastCapture := c;
      var finish := p.Allowed();
      if !finish {
        poisoned := true;
        return;
      }
      t := Some(ticket);
    }

    method Arm(p: Pipes, t: Window) returns (ok: bool)
      modifies this, p
      ensures old(p.heard) <= p.heard && |p.heard| <= |old(p.heard)| + 3
      ensures var talk := TalkOf(p.heard[|old(p.heard)|..]);
              t == old(ticket) ==>
                && (View(), ok) == Exchange(old(View()), Command.Arm(t.captured), talk)
                && p.sent == old(p.sent) + Written(old(View()), Command.Arm(t.captured), talk)
      ensures t != old(ticket) ==> !ok && poisoned && p.sent == old(p.sent)
    {
      ok := false;
      if poisoned {
        return;
      }
      var start := p.Allowed();
      if !start || t.captured == 0 || t != ticket {
        poisoned := true;
        return;
      }
      var line := p.Ask(Command.Arm(t.captured));
      if line.None? || !line.value.Armed? {
        poisoned := true;
        return;
      }
      ticket := NO_TICKET;
      ok := p.Allowed();
      if !ok {
        poisoned := true;
      }
    }

    method Deny(p: Pipes) returns (ok: bool)
      modifies this, p
      ensures old(p.heard) <= p.heard && |p.heard| <= |old(p.heard)| + 3
      ensures var talk := TalkOf(p.heard[|old(p.heard)|..]);
              && (View(), ok) == Exchange(old(View()), Command.Deny, talk)
              && p.sent == old(p.sent) + Written(old(View()), Command.Deny, talk)
    {
      ok := false;
      if poisoned {
        return;
      }
      var start := p.Allowed();
      if !start {
        poisoned := true;
        return;
      }
      var line := p.Ask(Command.Deny);
      if line.None? || !line.value.Denied? {
        poisoned := true;
        return;
      }
      ticket := NO_TICKET;
      ok := p.Allowed();
      if !ok {
        poisoned := true;
      }
    }

    /** A bounded DENY attempt, then the connection is terminal whatever came of it. */
    method Close(p: Pipes) returns (ok: bool)
      modifies this, p
      ensures poisoned && old(p.heard) <= p.heard
      ensures ok == Exchange(old(View()), Command.Deny, TalkOf(p.heard[|old(p.heard)|..])).1
      ensures old(poisoned) ==> !ok && p.sent == old(p.sent)
      ensures p.sent == old(p.sent) || p.sent == old(p.sent) + [Command.Deny]
    {
      ok := Deny(p);
      poisoned := true;
    }
  }
}
