/** Any number of controllers, their gates and drivers, one Lease, and time.

    Clocks are arbitrary functions of real time. Messages are lost, delayed or ambiguous at will: a CAS
    may take effect at any time after it was sent, whether or not its sender still waits for it.
    Processes pause or die by taking no further step. Reads return any revision that was ever written.
    Foreign writers may write anything, including a different UID, under a new resourceVersion. */
module LeaseProtocol {
  import opened Common
  import opened Fence
  import DriverGate
  import opened Controller

  /** Time is in nanoseconds since an arbitrary origin; `clock(i, t)` is node `i`'s boottime at `t`. */
  datatype Env = Env(nodes: nat, clock: (nat, real) -> real, cfg: nat -> Config)

  /** What CLOCK_BOOTTIME reads: whole nanoseconds. */
  function Reading(env: Env, i: nat, t: real): int {
    env.clock(i, t).Floor
  }

  /** A CAS on its way: who sent it, with which ticket, captured when, and whether it renews the
      author's own acknowledged write, which is what `ack` still means when it is sent. */
  datatype Request = Request(
    author: nat, from: Record, to: Record, ticket: Window, capturedAt: real, renewal: bool)

  /** A committed revision: when it was written and, if a controller wrote it, by which request. */
  datatype Write = Write(rec: Record, at: real, request: Option<nat>)

  /** What all nodes share. */
  datatype Board = Board(now: real, history: seq<Write>, requests: seq<Request>)

  /** A process incarnation with its gate, the pipe to its driver, and the driver. `pending` is its
      request in flight; `sinceAt` and `capturedAt` are the times behind `since` and the ticket. */
  datatype Node = Node(
    ctl: State, gate: DriverGate.Gate, busy: bool, pipe: Option<Command>, answer: Option<Line>,
    driver: Driver, pending: nat, sinceAt: real, capturedAt: real)

  datatype Global = Global(board: Board, nodes: seq<Node>)

  datatype Action =
    | Pass(until: real)
    | Foreign(rec: Record)
    | Execute(request: nat, rv: string)
    | Ask(i: nat)
    | Drive(i: nat, mapOk: bool)
    | Answered(i: nat, inTime: bool)
    | Lost(i: nat)
    | Exchange(i: nat, e: Event)
    | Close(i: nat, sent: bool)

  /** The gate command a controller in this phase is waiting for. */
  function Wanted(at: Phase): Option<Command> {
    match at
    case Starting => Some(Deny)
    case Quarantining => Some(Deny)
    case Failing => Some(Deny)
    case Capturing(_, _, _) => Some(Capture)
    case Arming(t, _) => Some(Arm(t.captured))
    case _ => None
  }

  predicate SameTicket(n: Node) {
    n.ctl.at.Arming? ==> n.ctl.at.t == n.gate.ticket
  }

  /** What the controller learns from a gate operation that succeeded or failed. */
  function GateEvent(at: Phase, gate: DriverGate.Gate, ok: bool): Event {
    match at
    case Capturing(_, _, _) => CaptureAsked(if ok then Some(gate.ticket) else None)
    case Arming(t, _) => ArmAsked(t, ok)
    case _ => DenyAsked(ok)
  }

  predicate FreshRV(b: Board, rv: string) {
    forall j {:trigger b.history[j]} :: 0 <= j < |b.history| ==> b.history[j].rec.rv != rv
  }

  predicate Current(b: Board, r: Record) {
    b.history != [] && b.history[|b.history| - 1].rec.uid == r.uid && b.history[|b.history| - 1].rec.rv == r.rv
  }

  predicate WrittenAt(b: Board, r: Record, j: int) {
    0 <= j < |b.history| && b.history[j].rec == r
  }

  /** `r` is a genuine committed revision. */
  ghost predicate Written(b: Board, r: Record) {
    exists j :: WrittenAt(b, r, j)
  }

  predicate DoneAt(b: Board, request: nat, out: Record, j: int) {
    WrittenAt(b, out, j) && b.history[j].request == Some(request)
  }

  /** What the environment may answer to an exchange that does not go through the gate. */
  ghost predicate Plausible(env: Env, b: Board, i: nat, n: Node, e: Event) {
    match e
    case Clock(reading) => reading == 0 || reading == Reading(env, i, b.now)
    case Got(reply) => reply.Ok? ==> Written(b, reply.record)
    case Swapped(_, _, reply) => reply.Ok? ==> exists j :: DoneAt(b, n.pending, reply.record, j)
    case Begin => true
    case Context(_) => true
    case Nonce(_) => true
    case _ => false
  }

  /** The node after its controller made an exchange; entering quarantine dates `since`. */
  function Moved(n: Node, s: State, now: real): Node {
    n.(ctl := s, sinceAt := if s.at.Quarantining? then now else n.sinceAt)
  }

  /** Entering the CAS sends a request. */
  function Sent(b: Board, i: nat, n: Node): (Board, Node) {
    match n.ctl.at
    case Swapping(r, next, t) =>
      (b.(requests := b.requests + [Request(i, r, next, t, n.capturedAt, n.ctl.v.ack)]), n.(pending := |b.requests|))
    case _ => (b, n)
  }

  ghost predicate Local(env: Env, b: Board, i: nat, n: Node, a: Action, b': Board, n': Node) {
    match a
    case Ask(_) =>
      && b' == b
      && Wanted(n.ctl.at).Some?
      && !n.busy
      && DriverGate.Sends(n.gate, Wanted(n.ctl.at).value, true)
      && SameTicket(n)
      && n' == n.(busy := true, pipe := Wanted(n.ctl.at), answer := None)
    case Drive(_, mapOk) =>
      && b' == b
      && n.pipe.Some?
      && 0 <= Reading(env, i, b.now) <= U64_MAX
      && var (d, line) := Handle(n.driver, Input(n.pipe.value, Reading(env, i, b.now), mapOk));
         n' == n.(driver := d, pipe := None, answer := line,
                  capturedAt := if n.busy && n.pipe == Some(Capture) then b.now else n.capturedAt)
    case Answered(_, inTime) =>
      && b' == b
      && Wanted(n.ctl.at).Some? && n.busy && n.answer.Some?
      && var (gate, ok) := DriverGate.Exchange(n.gate, Wanted(n.ctl.at).value, DriverGate.Talk(true, n.answer, true));
         && ok
         && (!inTime ==> n.ctl.at.Starting? || n.ctl.at.Quarantining? || n.ctl.at.Failing?)
         && var s := Next(n.ctl, env.cfg(i), GateEvent(n.ctl.at, gate, inTime));
            s.Some? && n' == Moved(n.(gate := gate, busy := false, answer := None), s.value, b.now)
    case Lost(_) =>
      && b' == b
      && Wanted(n.ctl.at).Some?
      && var s := Next(n.ctl, env.cfg(i), GateEvent(n.ctl.at, n.gate, false));
         s.Some? && n' == Moved(n.(gate := DriverGate.Poison(n.gate), busy := false), s.value, b.now)
    case Exchange(_, e) =>
      && Wanted(n.ctl.at).None?
      && Plausible(env, b, i, n, e)
      && var s := Next(n.ctl, env.cfg(i), e);
         s.Some? && (b', n') == Sent(b, i, Moved(n, s.value, b.now))
    case Close(_, sent) =>
      && b' == b
      && n.ctl.at.Idle?
      && (sent ==> !n.busy && !n.gate.poisoned)
      && n' == n.(gate := DriverGate.Poison(n.gate), pipe := if sent then Some(Deny) else n.pipe, answer := None)
    case _ => false
  }

  ghost predicate Step(env: Env, g: Global, a: Action, g': Global) {
    var b := g.board;
    match a
    case Pass(until) =>
      b.now <= until && g' == g.(board := b.(now := until))
    case Foreign(rec) =>
      FreshRV(b, rec.rv) && g' == g.(board := b.(history := b.history + [Write(rec, b.now, None)]))
    case Execute(k, rv) =>
      && k < |b.requests| && Current(b, b.requests[k].from) && FreshRV(b, rv)
      && g' == g.(board := b.(history := b.history + [Write(b.requests[k].to.(rv := rv), b.now, Some(k))]))
    case _ =>
      && a.i < |g.nodes| == |g'.nodes|
      && g'.nodes == g.nodes[a.i := g'.nodes[a.i]]
      && Local(env, b, a.i, g.nodes[a.i], a, g'.board, g'.nodes[a.i])
  }

  const NEWBORN: Node := Node(START, DriverGate.FRESH, false, None, None, Fresh(false), 0, 0.0, 0.0)

  /** A provisioned Lease with any past, and controllers that have not stepped yet. */
  ghost predicate Init(env: Env, g: Global) {
    var b := g.board;
    && |g.nodes| == env.nodes
    && (forall i: nat :: i < env.nodes ==> Accepted(env.cfg(i)))
    && (forall i :: 0 <= i < |g.nodes| ==> g.nodes[i] == NEWBORN || g.nodes[i] == NEWBORN.(driver := Fresh(true)))
    && b.requests == []
    && (forall j :: 0 <= j < |b.history| ==> b.history[j].request == None && b.history[j].at <= b.now)
    && (forall j, k :: 0 <= j < k < |b.history| ==>
          b.history[j].at <= b.history[k].at && b.history[j].rec.rv != b.history[k].rec.rv)
  }

  ghost predicate Run(env: Env, gs: seq<Global>, acts: seq<Action>) {
    && |gs| == |acts| + 1
    && Init(env, gs[0])
    && forall k {:trigger acts[k]} :: 0 <= k < |acts| ==> Step(env, gs[k], acts[k], gs[k + 1])
  }

  /** Node `i`'s kernel gate lets packets out. */
  predicate Open(env: Env, g: Global, i: nat)
    requires i < |g.nodes|
  {
    var reading := Reading(env, i, g.board.now);
    0 <= reading <= U64_MAX && Allows(g.nodes[i].driver.slot, reading)
  }
}
