/** The margin condition is exact: where it fails, two gates can be open at once. */
module LeaseTightness {
  import opened Common
  import opened Fence
  import DriverGate
  import opened Controller
  import opened LeaseProtocol
  import LeaseSafety

  ghost predicate Reached(env: Env, g: Global) {
    exists gs, acts :: Run(env, gs, acts) && gs[|acts|] == g
  }

  lemma ReachStep(env: Env, g: Global, a: Action, g': Global)
    requires Reached(env, g) && Step(env, g, a, g')
    ensures Reached(env, g')
  {
    var gs, acts :| Run(env, gs, acts) && gs[|acts|] == g;
    var gs', acts' := gs + [g'], acts + [a];
    forall k | 0 <= k < |acts'|
      ensures Step(env, gs'[k], acts'[k], gs'[k + 1])
    {
      if k < |acts| {
        assert acts'[k] == acts[k];
      }
    }
    assert Run(env, gs', acts') && gs'[|acts'|] == g';
  }

  function Put(g: Global, i: nat, n: Node): Global
    requires i < |g.nodes|
  {
    g.(nodes := g.nodes[i := n])
  }

  lemma ReachLocal(env: Env, g: Global, i: nat, a: Action, b: Board, n: Node)
    requires Reached(env, g) && i < |g.nodes| && !a.Pass? && !a.Foreign? && !a.Execute? && a.i == i
             && Local(env, g.board, i, g.nodes[i], a, b, n)
    ensures Reached(env, Put(g.(board := b), i, n))
  {
    ReachStep(env, g, a, Put(g.(board := b), i, n));
  }

  /** A node between exchanges whose gate and driver agree, with nothing armed. */
  predicate Rested(n: Node) {
    && !n.busy && n.pipe == None && n.answer == None && !n.gate.poisoned
    && n.driver.running && n.driver.slot == None && n.gate.ticket == NO_TICKET && n.driver.ticket == NO_TICKET
  }

  lemma Exchanged(env: Env, g: Global, i: nat, e: Event, s: State)
    requires Reached(env, g) && i < |g.nodes| && Wanted(g.nodes[i].ctl.at).None?
    requires Plausible(env, g.board, i, g.nodes[i], e)
    requires Next(g.nodes[i].ctl, env.cfg(i), e) == Some(s) && !s.at.Swapping?
    ensures Reached(env, Put(g, i, Moved(g.nodes[i], s, g.board.now)))
  {
    ReachLocal(env, g, i, Exchange(i, e), g.board, Moved(g.nodes[i], s, g.board.now));
  }

  lemma Denied(env: Env, g: Global, i: nat, s: State)
    requires Reached(env, g) && i < |g.nodes| && Rested(g.nodes[i]) && Wanted(g.nodes[i].ctl.at) == Some(Deny)
    requires 0 <= Reading(env, i, g.board.now) <= U64_MAX
    requires Next(g.nodes[i].ctl, env.cfg(i), DenyAsked(true)) == Some(s)
    ensures Reached(env, Put(g, i, Moved(g.nodes[i], s, g.board.now)))
  {
    var n, b := g.nodes[i], g.board;
    var n1 := n.(busy := true, pipe := Some(Deny));
    ReachLocal(env, g, i, Ask(i), b, n1);
    var n2 := n1.(pipe := None, answer := Some(Line.Denied));
    ReachLocal(env, Put(g, i, n1), i, Drive(i, true), b, n2);
    assert Put(Put(g, i, n1), i, n2) == Put(g, i, n2);
    ReachLocal(env, Put(g, i, n2), i, Answered(i, true), b, Moved(n, s, b.now));
    assert Put(Put(g, i, n2), i, Moved(n, s, b.now)) == Put(g, i, Moved(n, s, b.now));
  }

  /** The vars of a controller that read `r` at boottime `n` for the first time. */
  function Quarantined(r: Record, n: u64): Vars {
    Vars(n, n, r.uid, r.rv, NO_RECORD, r, false, true, false)
  }

  /** A controller's first Step: deny, read, quarantine. */
  lemma FirstStep(env: Env, g: Global, i: nat, r: Record)
    requires Reached(env, g) && i < |g.nodes| && g.nodes[i] == NEWBORN
    requires Written(g.board, r) && Valid(r) && 0 < Reading(env, i, g.board.now) <= U64_MAX
    ensures var n := Reading(env, i, g.board.now);
            Reached(env, Put(g, i, NEWBORN.(ctl := State(Quarantined(r, n), Idle(Quiet)), sinceAt := g.board.now)))
  {
    var t := Reading(env, i, g.board.now);
    var at := (v: Vars, p: Phase) => NEWBORN.(ctl := State(v, p));
    var v0 := NEW.(started := true);
    Exchanged(env, g, i, Begin, State(v0, Starting));
    var g1 := Put(g, i, at(v0, Starting));
    Denied(env, g1, i, State(v0, Opening));
    var g2 := Put(g, i, at(v0, Opening));
    assert g2 == Put(g1, i, at(v0, Opening));
    var v1 := v0.(last := t);
    Exchanged(env, g2, i, Clock(t), State(v1, Getting));
    var g3 := Put(g, i, at(v1, Getting));
    assert g3 == Put(g2, i, at(v1, Getting));
    FirstVerdict(env, g, g3, i, r, v1);
  }

  lemma FirstVerdict(env: Env, g: Global, g3: Global, i: nat, r: Record, v1: Vars)
    requires i < |g.nodes| && g3 == Put(g, i, NEWBORN.(ctl := State(v1, Getting))) && Reached(env, g3)
    requires Written(g.board, r) && Valid(r) && 0 < Reading(env, i, g.board.now) <= U64_MAX
    requires v1 == NEW.(started := true, last := Reading(env, i, g.board.now))
    ensures var n := Reading(env, i, g.board.now);
            Reached(env, Put(g, i, NEWBORN.(ctl := State(Quarantined(r, n), Idle(Quiet)), sinceAt := g.board.now)))
  {
    var t := Reading(env, i, g.board.now);
    var at := (v: Vars, p: Phase) => NEWBORN.(ctl := State(v, p));
    Exchanged(env, g3, i, Got(Ok(r)), State(v1, GotContext(r)));
    var g4 := Put(g, i, at(v1, GotContext(r)));
    assert g4 == Put(g3, i, at(v1, GotContext(r)));
    Exchanged(env, g4, i, Context(true), State(v1, GotClock(r)));
    var g5 := Put(g, i, at(v1, GotClock(r)));
    assert g5 == Put(g4, i, at(v1, GotClock(r)));
    var q := Quarantined(r, t);
    Exchanged(env, g5, i, Clock(t), State(q, Quarantining));
    var n6 := NEWBORN.(ctl := State(q, Quarantining), sinceAt := g.board.now);
    var g6 := Put(g, i, n6);
    assert g6 == Put(g5, i, n6);
    Denied(env, g6, i, State(q, Idle(Quiet)));
    assert Put(g6, i, n6.(ctl := State(q, Idle(Quiet)))) == Put(g, i, n6.(ctl := State(q, Idle(Quiet))));
  }

  /** Node `i`'s second Step: `r` has been quarantined since `since` (read at `sinceAt`), its clock
      reads `t`, and it will write `nonce` and be given `rv`. */
  datatype Bid = Bid(i: nat, r: Record, since: u64, sinceAt: real, nonce: string, rv: string, t: u64)

  function Waiting(bid: Bid): Node {
    NEWBORN.(ctl := State(Quarantined(bid.r, bid.since), Idle(Quiet)), sinceAt := bid.sinceAt)
  }

  function VarsOf(bid: Bid): Vars { Quarantined(bid.r, bid.since).(last := bid.t) }

  /** The bid is due: the quarantine has passed and `r` is current. */
  ghost predicate Due(env: Env, b: Board, bid: Bid) {
    && bid.t == Reading(env, bid.i, b.now) && Accepted(env.cfg(bid.i))
    && Written(b, bid.r) && Current(b, bid.r) && Valid(bid.r) && bid.r.epoch < U64_MAX
    && Strong(bid.nonce) && bid.nonce != bid.r.nonce
    && FreshRV(b, bid.rv) && 0 < |bid.rv| <= 256 && bid.rv != bid.r.rv
    && 0 < bid.since && bid.since + HORIZON + env.cfg(bid.i).margin <= bid.t && bid.t + HORIZON <= U64_MAX
  }

  ghost predicate At(env: Env, g: Global, bid: Bid, n: Node) {
    bid.i < |g.nodes| && Reached(env, Put(g, bid.i, n))
  }

  lemma BidExchange(env: Env, g: Global, bid: Bid, n: Node, e: Event, p: Phase)
    requires At(env, g, bid, n) && Wanted(n.ctl.at).None? && Plausible(env, g.board, bid.i, n, e)
    requires Next(n.ctl, env.cfg(bid.i), e) == Some(State(VarsOf(bid), p)) && !p.Swapping? && !p.Quarantining?
    ensures At(env, g, bid, n.(ctl := State(VarsOf(bid), p)))
  {
    Exchanged(env, Put(g, bid.i, n), bid.i, e, State(VarsOf(bid), p));
    var n' := n.(ctl := State(VarsOf(bid), p));
    assert Put(Put(g, bid.i, n), bid.i, n') == Put(g, bid.i, n');
  }

  lemma BidLocal(env: Env, g: Global, bid: Bid, n: Node, a: Action, n': Node)
    requires At(env, g, bid, n) && !a.Pass? && !a.Foreign? && !a.Execute? && a.i == bid.i
    requires Local(env, g.board, bid.i, n, a, g.board, n')
    ensures At(env, g, bid, n')
  {
    ReachLocal(env, Put(g, bid.i, n), bid.i, a, g.board, n');
    assert Put(Put(g, bid.i, n), bid.i, n') == Put(g, bid.i, n');
  }

  /** The second Step up to its read. */
  lemma SecondBegin(env: Env, g: Global, bid: Bid)
    requires Due(env, g.board, bid) && At(env, g, bid, Waiting(bid))
    ensures At(env, g, bid, Waiting(bid).(ctl := State(VarsOf(bid), Getting)))
  {
    var w := Waiting(bid);
    Exchanged(env, Put(g, bid.i, w), bid.i, Begin, State(w.ctl.v, Opening));
    var n := w.(ctl := State(w.ctl.v, Opening));
    assert Put(Put(g, bid.i, w), bid.i, n) == Put(g, bid.i, n);
    BidExchange(env, g, bid, n, Clock(bid.t), Getting);
  }

  /** The second Step up to the nonce: the same revision, a full quarantine later. */
  lemma SecondVerdict(env: Env, g: Global, bid: Bid)
    requires Due(env, g.board, bid) && At(env, g, bid, Waiting(bid))
    ensures At(env, g, bid, Waiting(bid).(ctl := State(VarsOf(bid), Naming(bid.r))))
  {
    var w, r, v := Waiting(bid), bid.r, VarsOf(bid);
    SecondBegin(env, g, bid);
    BidExchange(env, g, bid, w.(ctl := State(v, Getting)), Got(Ok(r)), GotContext(r));
    BidExchange(env, g, bid, w.(ctl := State(v, GotContext(r))), Context(true), GotClock(r));
    BidExchange(env, g, bid, w.(ctl := State(v, GotClock(r))), Clock(bid.t), Naming(r));
  }

  function TicketOf(bid: Bid): Window
    requires bid.t + HORIZON <= U64_MAX
  {
    Window(bid.t, bid.t + HORIZON)
  }

  /** The node once its ticket has been read back. */
  function Ticketed(bid: Bid, p: Phase, now: real): Node
    requires bid.t + HORIZON <= U64_MAX
  {
    Waiting(bid).(ctl := State(VarsOf(bid), p), gate := DriverGate.Gate(TicketOf(bid), bid.t, false),
                  driver := Fresh(false).(ticket := TicketOf(bid)), capturedAt := now)
  }

  lemma TicketTaken(env: Env, g: Global, bid: Bid)
    requires Due(env, g.board, bid)
             && At(env, g, bid, Waiting(bid).(ctl := State(VarsOf(bid), Capturing(bid.r, bid.nonce, bid.t))))
    ensures At(env, g, bid, Ticketed(bid, CapturedContext(bid.r, bid.nonce, bid.t, TicketOf(bid)), g.board.now))
  {
    var b, tk := g.board, TicketOf(bid);
    var n1 := Waiting(bid).(ctl := State(VarsOf(bid), Capturing(bid.r, bid.nonce, bid.t)));
    var n2 := n1.(busy := true, pipe := Some(Capture));
    BidLocal(env, g, bid, n1, Ask(bid.i), n2);
    var n3 := n2.(pipe := None, answer := Some(Line.Ticket(tk.captured, tk.deadline)),
                  driver := Fresh(false).(ticket := tk), capturedAt := b.now);
    BidLocal(env, g, bid, n2, Drive(bid.i, true), n3);
    BidLocal(env, g, bid, n3, Answered(bid.i, true),
             Ticketed(bid, CapturedContext(bid.r, bid.nonce, bid.t, tk), b.now));
  }

  function ToWrite(env: Env, bid: Bid): Record { Proposal(bid.r, env.cfg(bid.i), bid.nonce) }

  function Successor(env: Env, bid: Bid): Record { ToWrite(env, bid).(rv := bid.rv) }

  function Requested(env: Env, b: Board, bid: Bid): Board
    requires bid.t + HORIZON <= U64_MAX
  {
    b.(requests := b.requests + [Request(bid.i, bid.r, ToWrite(env, bid), TicketOf(bid), b.now, false)])
  }

  function Replaced(env: Env, b: Board, bid: Bid): Board
    requires bid.t + HORIZON <= U64_MAX
  {
    Requested(env, b, bid).(history := b.history + [Write(Successor(env, bid), b.now, Some(|b.requests|))])
  }

  /** The CAS is sent and executed at once. */
  lemma Executed(env: Env, g: Global, bid: Bid)
    requires Due(env, g.board, bid)
    requires At(env, g, bid, Ticketed(bid, CapturedClock(bid.r, bid.nonce, bid.t, TicketOf(bid)), g.board.now))
    ensures var n := Ticketed(bid, Swapping(bid.r, ToWrite(env, bid), TicketOf(bid)), g.board.now);
            At(env, g.(board := Replaced(env, g.board, bid)), bid, n.(pending := |g.board.requests|))
  {
    var b, tk := g.board, TicketOf(bid);
    var n0 := Ticketed(bid, CapturedClock(bid.r, bid.nonce, bid.t, tk), b.now);
    var n := Ticketed(bid, Swapping(bid.r, ToWrite(env, bid), tk), b.now).(pending := |b.requests|);
    var g0 := Put(g, bid.i, n0);
    ReachLocal(env, g0, bid.i, Exchange(bid.i, Clock(bid.t)), Requested(env, b, bid), n);
    var g1 := Put(g.(board := Requested(env, b, bid)), bid.i, n);
    assert Put(g0.(board := Requested(env, b, bid)), bid.i, n) == g1;
    ReachStep(env, g1, Execute(|b.requests|, bid.rv), g1.(board := Replaced(env, b, bid)));
    assert g1.(board := Replaced(env, b, bid)) == Put(g.(board := Replaced(env, b, bid)), bid.i, n);
  }

  /** What the last part of a takeover relies on. */
  ghost predicate Granted(env: Env, g: Global, bid: Bid, pending: nat) {
    && bid.t + HORIZON <= U64_MAX && 0 < bid.t == Reading(env, bid.i, g.board.now) && Accepted(env.cfg(bid.i))
    && Valid(bid.r) && Strong(bid.nonce) && 0 < |bid.rv| <= 256 && bid.rv != bid.r.rv && bid.since <= bid.t
    && exists j :: DoneAt(g.board, pending, Successor(env, bid), j)
  }

  /** The CAS is acknowledged. */
  lemma Acknowledges(env: Env, g: Global, bid: Bid, pending: nat)
    requires Granted(env, g, bid, pending)
    requires At(env, g, bid,
                Ticketed(bid, Swapping(bid.r, ToWrite(env, bid), TicketOf(bid)), g.board.now).(pending := pending))
    ensures At(env, g, bid, Ticketed(bid, Arming(TicketOf(bid), Successor(env, bid)), g.board.now).(pending := pending))
  {
    var b, tk, out, to := g.board, TicketOf(bid), Successor(env, bid), ToWrite(env, bid);
    var at := (p: Phase) => Ticketed(bid, p, b.now).(pending := pending);
    BidExchange(env, g, bid, at(Swapping(bid.r, to, tk)), Event.Swapped(bid.r, to, Ok(out)),
                SwappedClock(bid.r, to, tk, out));
    BidExchange(env, g, bid, at(SwappedClock(bid.r, to, tk, out)), Clock(bid.t), SwappedContext(tk, out));
    BidExchange(env, g, bid, at(SwappedContext(tk, out)), Context(true), Arming(tk, out));
  }

  /** The CAS is acknowledged and the ticket armed. */
  lemma Arms(env: Env, g: Global, bid: Bid, pending: nat)
    requires Granted(env, g, bid, pending)
    requires At(env, g, bid,
                Ticketed(bid, Swapping(bid.r, ToWrite(env, bid), TicketOf(bid)), g.board.now).(pending := pending))
    ensures bid.i < |g.nodes| && exists n: Node :: n.driver.slot == Some(TicketOf(bid)) && At(env, g, bid, n)
  {
    var b, tk, out := g.board, TicketOf(bid), Successor(env, bid);
    Acknowledges(env, g, bid, pending);
    var n0 := Ticketed(bid, Arming(tk, out), b.now).(pending := pending);
    var n1 := n0.(busy := true, pipe := Some(Arm(tk.captured)));
    BidLocal(env, g, bid, n0, Ask(bid.i), n1);
    var n2 := n1.(pipe := None, answer := Some(Line.Armed),
                  driver := Fresh(false).(slot := Some(tk), armed := [tk.captured]));
    BidLocal(env, g, bid, n1, Drive(bid.i, true), n2);
  }

  /** A node whose quarantine has passed can take the Lease over and open its gate in no time. */
  lemma TakesOver(env: Env, g: Global, bid: Bid) returns (n: Node)
    requires Due(env, g.board, bid) && At(env, g, bid, Waiting(bid))
    ensures At(env, g.(board := Replaced(env, g.board, bid)), bid, n) && n.driver.slot == Some(TicketOf(bid))
  {
    var w, v, tk := Waiting(bid), VarsOf(bid), TicketOf(bid);
    SecondVerdict(env, g, bid);
    BidExchange(env, g, bid, w.(ctl := State(v, Naming(bid.r))), Nonce(Some(bid.nonce)), Before(bid.r, bid.nonce));
    BidExchange(env, g, bid, w.(ctl := State(v, Before(bid.r, bid.nonce))), Clock(bid.t),
                Capturing(bid.r, bid.nonce, bid.t));
    TicketTaken(env, g, bid);
    BidExchange(env, g, bid, Ticketed(bid, CapturedContext(bid.r, bid.nonce, bid.t, tk), g.board.now), Context(true),
                CapturedClock(bid.r, bid.nonce, bid.t, tk));
    Executed(env, g, bid);
    var b := Replaced(env, g.board, bid);
    assert DoneAt(b, |g.board.requests|, Successor(env, bid), |g.board.history|);
    Arms(env, g.(board := b), bid, |g.board.requests|);
    n :| n.driver.slot == Some(tk) && At(env, g.(board := b), bid, n);
  }

  // ----- two nodes whose readings let the second in too early

  /** Some holder identity or nonce. */
  function Hex(c: char): (s: string)
    requires 'a' <= c <= 'f'
    ensures Strong(s) && s[0] == c
  {
    seq(64, (_: int) => c)
  }

  const PROVISIONED: Record := Record("u", "1", "", Hex('a'), PROTOCOL, 0)

  const LEASE: Global := Global(Board(0.0, [Write(PROVISIONED, 0.0, None)], []), [NEWBORN, NEWBORN])

  /** Node 0 captures at `t1` and is still inside its window at `t2`, when node 1's quarantine,
      begun at `t1`, has passed. */
  ghost predicate TooEarly(env: Env, t1: real, t2: real) {
    && env.nodes == 2 && 0.0 <= t1 <= t2 && Accepted(env.cfg(0)) && Accepted(env.cfg(1))
    && 0 < Reading(env, 0, 0.0) && 0 < Reading(env, 1, t1)
    && Reading(env, 0, 0.0) + HORIZON + env.cfg(0).margin <= Reading(env, 0, t1)
    && Reading(env, 0, t1) <= Reading(env, 0, t2) < Reading(env, 0, t1) + HORIZON <= U64_MAX
    && Reading(env, 1, t1) + HORIZON + env.cfg(1).margin <= Reading(env, 1, t2) <= U64_MAX - HORIZON
  }

  lemma LeaseReached(env: Env)
    requires env.nodes == 2 && Accepted(env.cfg(0)) && Accepted(env.cfg(1))
    ensures Reached(env, LEASE)
  {
    forall i: nat | i < env.nodes
      ensures Accepted(env.cfg(i))
    {
      assert i == 0 || i == 1;
    }
    assert Init(env, LEASE);
    var gs, acts: seq<Action> := [LEASE], [];
    assert Run(env, gs, acts) && gs[|acts|] == LEASE;
  }

  lemma Waits(env: Env, g: Global, i: nat, r: Record, until: real)
    requires Reached(env, g) && i < |g.nodes| && g.nodes[i] == NEWBORN && g.board.now <= until
    requires Written(g.board, r) && Valid(r) && 0 < Reading(env, i, g.board.now) <= U64_MAX
    ensures var w := NEWBORN.(ctl := State(Quarantined(r, Reading(env, i, g.board.now)), Idle(Quiet)),
                              sinceAt := g.board.now);
            Reached(env, Put(g.(board := g.board.(now := until)), i, w))
  {
    var w := NEWBORN.(ctl := State(Quarantined(r, Reading(env, i, g.board.now)), Idle(Quiet)), sinceAt := g.board.now);
    FirstStep(env, g, i, r);
    var g1 := Put(g, i, w);
    ReachStep(env, g1, Pass(until), g1.(board := g.board.(now := until)));
    assert g1.(board := g.board.(now := until)) == Put(g.(board := g.board.(now := until)), i, w);
  }

  /** Node 0's bid on the provisioned Lease, and node 1's on what node 0 wrote. */
  function Bid0(env: Env, t1: real): Bid
    requires 0 < Reading(env, 0, 0.0) <= Reading(env, 0, t1) <= U64_MAX
  {
    Bid(0, PROVISIONED, Reading(env, 0, 0.0), 0.0, Hex('b'), "2", Reading(env, 0, t1))
  }

  lemma FirstOwner(env: Env, t1: real, t2: real) returns (n: Node)
    requires TooEarly(env, t1, t2)
    ensures var g := LEASE.(board := LEASE.board.(now := t1));
            && Reached(env, Put(g.(board := Replaced(env, g.board, Bid0(env, t1))), 0, n))
            && n.driver.slot == Some(TicketOf(Bid0(env, t1)))
  {
    LeaseReached(env);
    assert WrittenAt(LEASE.board, PROVISIONED, 0);
    Waits(env, LEASE, 0, PROVISIONED, t1);
    var g := LEASE.(board := LEASE.board.(now := t1));
    assert WrittenAt(g.board, PROVISIONED, 0);
    n := TakesOver(env, g, Bid0(env, t1));
  }

  /** The board with node 0's write on it, at time `t`. */
  function Taken(env: Env, t1: real, t: real): Board
    requires 0 < Reading(env, 0, 0.0) <= Reading(env, 0, t1) <= U64_MAX - HORIZON
  {
    Replaced(env, LEASE.board.(now := t1), Bid0(env, t1)).(now := t)
  }

  function Bid1(env: Env, t1: real, t2: real): Bid
    requires 0 < Reading(env, 0, 0.0) <= Reading(env, 0, t1) <= U64_MAX
    requires 0 <= Reading(env, 1, t1) <= U64_MAX && 0 <= Reading(env, 1, t2) <= U64_MAX
  {
    Bid(1, Successor(env, Bid0(env, t1)), Reading(env, 1, t1), t1, Hex('c'), "3", Reading(env, 1, t2))
  }

  lemma Bid1Due(env: Env, t1: real, t2: real)
    requires TooEarly(env, t1, t2)
    ensures Due(env, Taken(env, t1, t2), Bid1(env, t1, t2))
    ensures Valid(Bid1(env, t1, t2).r) && Written(Taken(env, t1, t1), Bid1(env, t1, t2).r)
  {
    var r := Bid1(env, t1, t2).r;
    assert WrittenAt(Taken(env, t1, t1), r, 1) && WrittenAt(Taken(env, t1, t2), r, 1);
    assert r.nonce[0] == 'b' && Hex('c')[0] == 'c';
  }

  lemma SecondOwner(env: Env, t1: real, t2: real) returns (g: Global)
    requires TooEarly(env, t1, t2)
    ensures Reached(env, g) && |g.nodes| == 2 && Open(env, g, 0) && Open(env, g, 1)
  {
    var n0 := FirstOwner(env, t1, t2);
    var b0, b1, bid := Taken(env, t1, t1), Taken(env, t1, t2), Bid1(env, t1, t2);
    var g0 := Global(b0, [n0, NEWBORN]);
    assert g0 == Put(LEASE.(board := b0), 0, n0);
    Bid1Due(env, t1, t2);
    Waits(env, g0, 1, bid.r, t2);
    var n1 := TakesOver(env, g0.(board := b1), bid);
    g := Global(Replaced(env, b1, bid), [n0, n1]);
    assert g == Put(g0.(board := Replaced(env, b1, bid)), 1, n1);
  }

  function DriftClock(rho: real, t1: real, b1: real, i: nat, t: real): real {
    if i == 0 then 1.0 + (1.0 - rho) * t else b1 + (1.0 + rho) * (t - t1)
  }

  /** Two controllers with identities of their own. */
  function Incarnation(i: nat, margin: u64): (c: Config)
    ensures Strong(c.holder) && c.holder[0] == (if i == 0 then 'd' else 'e') && c.margin == margin
  {
    Config(if i == 0 then Hex('d') else Hex('e'), margin)
  }

  /** No two nodes share a holder identity. */
  ghost predicate DistinctHolders(env: Env) {
    forall i: nat, j: nat :: i < j < env.nodes ==> env.cfg(i).holder != env.cfg(j).holder
  }

  /** Clocks of rates `1 - rho` and `1 + rho` that read whole nanoseconds where it matters. */
  function Drifting(rho: real, margin: u64, t1: real, b1: real): Env {
    Env(2, (i: nat, t: real) => DriftClock(rho, t1, b1, i, t), (i: nat) => Incarnation(i, margin))
  }

  lemma DriftsWithin(rho: real, t1: real, b1: real, i: nat, s: real, t: real)
    requires 0.0 <= rho < 1.0 && s <= t
    ensures (1.0 - rho) * (t - s) <= DriftClock(rho, t1, b1, i, t) - DriftClock(rho, t1, b1, i, s)
            <= (1.0 + rho) * (t - s)
  {
    var d := t - s;
    assert 0.0 <= rho * d;
    assert (1.0 - rho) * d == d - rho * d && (1.0 + rho) * d == d + rho * d;
    assert (1.0 - rho) * t - (1.0 - rho) * s == (1.0 - rho) * d;
    assert (1.0 + rho) * (t - t1) - (1.0 + rho) * (s - t1) == (1.0 + rho) * d;
  }

  lemma DriftingRates(rho: real, margin: u64, t1: real, b1: real)
    requires 0.0 <= rho < 1.0
    ensures LeaseSafety.RatesWithin(Drifting(rho, margin, t1, b1), rho)
  {
    var env := Drifting(rho, margin, t1, b1);
    forall i: nat, s: real, t: real | s <= t
      ensures (1.0 - rho) * (t - s) <= env.clock(i, t) - env.clock(i, s) <= (1.0 + rho) * (t - s)
    {
      DriftingRate(rho, t1, b1, env, i, s, t);
    }
  }

  lemma DriftingRate(rho: real, t1: real, b1: real, env: Env, i: nat, s: real, t: real)
    requires 0.0 <= rho < 1.0 && s <= t
    requires env.clock(i, s) == DriftClock(rho, t1, b1, i, s) && env.clock(i, t) == DriftClock(rho, t1, b1, i, t)
    ensures (1.0 - rho) * (t - s) <= env.clock(i, t) - env.clock(i, s) <= (1.0 + rho) * (t - s)
  {
    DriftsWithin(rho, t1, b1, i, s, t);
  }

  lemma Product(x: real, y: real)
    requires 0.0 <= x && 0.0 <= y
    ensures 0.0 <= x * y
  {
  }

  lemma Quotient(x: real, c: real) returns (q: real)
    requires 0.0 <= x && 0.0 < c
    ensures c * q == x && 0.0 <= q
  {
    q := x / c;
  }

  lemma FloorOf(x: real, n: int, f: real)
    requires x == n as real + f && 0.0 <= f < 1.0
    ensures x.Floor == n
  {
  }

  /** Where a slow window outlasts a fast quarantine by however little, some run opens both gates. */
  lemma DriftingTooEarly(rho: real, margin: u64, t1: real, span: real)
    requires 0.0 <= rho < 1.0 && 0 < margin <= 0x7FFF_FFFF_FFFF_FFFF - HORIZON
    requires (1.0 - rho) * t1 == (HORIZON + margin) as real && 0.0 <= t1 && 0.0 <= span
    requires (HORIZON + margin - 1) as real < (1.0 + rho) * span <= (HORIZON + margin) as real
    requires (1.0 - rho) * span < HORIZON as real
    ensures TooEarly(Drifting(rho, margin, t1, 1.0 + ((HORIZON + margin) as real - (1.0 + rho) * span)), t1, t1 + span)
  {
    var wait := HORIZON + margin;
    var x := (1.0 + rho) * span;
    var b1 := 1.0 + (wait as real - x);
    var env := Drifting(rho, margin, t1, b1);
    FloorOf(env.clock(0, 0.0), 1, 0.0);
    FloorOf(env.clock(0, t1), 1 + wait, 0.0);
    FloorOf(env.clock(1, t1), 1, wait as real - x);
    assert env.clock(1, t1 + span) == (1 + wait) as real;
    FloorOf(env.clock(1, t1 + span), 1 + wait, 0.0);
    assert env.clock(0, t1 + span) == (1 + wait) as real + (1.0 - rho) * span;
    Product(1.0 - rho, span);
  }

  /** A real span between a fast quarantine, short of its last nanosecond, and a slow window. */
  lemma SpanBetween(slow: real, fast: real, wait: real, window: real) returns (span: real)
    requires 0.0 < slow <= fast && 0.0 <= wait && slow * wait < fast * window
    ensures 0.0 <= span && wait < fast * span <= wait + 1.0 && slow * span < window
  {
    var high := fast * window / slow;
    assert slow * high == fast * window;
    assert wait < high;
    var x := if high <= wait + 1.0 then (wait + high) / 2.0 else wait + 0.5;
    span := x / fast;
    assert fast * span == x;
    assert fast * (slow * span) == slow * x < slow * high;
  }

  lemma EarlyClocks(rho: real, margin: u64) returns (env: Env, t1: real, t2: real)
    requires 0.0 <= rho < 1.0 && 0 < margin <= 0x7FFF_FFFF_FFFF_FFFF - HORIZON
    requires (1.0 - rho) * (HORIZON + margin - 1) as real < (1.0 + rho) * HORIZON as real
    ensures env.cfg(0).margin == env.cfg(1).margin == margin && DistinctHolders(env)
    ensures LeaseSafety.RatesWithin(env, rho) && TooEarly(env, t1, t2)
  {
    var span := SpanBetween(1.0 - rho, 1.0 + rho, (HORIZON + margin - 1) as real, HORIZON as real);
    t1 := Quotient((HORIZON + margin) as real, 1.0 - rho);
    t2 := t1 + span;
    DriftingTooEarly(rho, margin, t1, span);
    var b1 := 1.0 + ((HORIZON + margin) as real - (1.0 + rho) * span);
    DriftingRates(rho, margin, t1, b1);
    env := Drifting(rho, margin, t1, b1);
    assert env.cfg(0).holder[0] == 'd' && env.cfg(1).holder[0] == 'e';
  }

  /** The margin condition is necessary: whenever it fails, some run of two nodes with different holder
      identities and clock rates within `rho` has both gates open at once. */
  lemma MarginIsNecessary(rho: real, margin: u64) returns (env: Env, gs: seq<Global>, acts: seq<Action>)
    requires 0.0 <= rho < 1.0 && 0 < margin <= 0x7FFF_FFFF_FFFF_FFFF - HORIZON
    requires (1.0 - rho) * (HORIZON + margin - 1) as real < (1.0 + rho) * HORIZON as real
    ensures env.nodes == 2 && env.cfg(0).margin == env.cfg(1).margin == margin && DistinctHolders(env)
    ensures LeaseSafety.RatesWithin(env, rho)
    ensures Run(env, gs, acts) && |gs[|acts|].nodes| == 2
    ensures Open(env, gs[|acts|], 0) && Open(env, gs[|acts|], 1)
  {
    var t1, t2;
    env, t1, t2 := EarlyClocks(rho, margin);
    var g := SecondOwner(env, t1, t2);
    gs, acts :| Run(env, gs, acts) && gs[|acts|] == g;
  }

  /** No run of any number of nodes with this margin, these clock rates and identities of their own ever
      has two open gates. */
  ghost predicate Exclusive(rho: real, margin: u64) {
    forall env: Env, gs: seq<Global>, acts: seq<Action>, k: nat, a: nat, c: nat
      {:trigger Run(env, gs, acts), Open(env, gs[k], a), Open(env, gs[k], c)} ::
      && LeaseSafety.RatesWithin(env, rho) && DistinctHolders(env)
      && (forall i: nat :: i < env.nodes ==> env.cfg(i).margin == margin)
      && Run(env, gs, acts) && k <= |acts| && a < |gs[k].nodes| && c < |gs[k].nodes|
      && Open(env, gs[k], a) && Open(env, gs[k], c)
      ==> a == c
  }

  /** The margin rule, exactly: every run is exclusive if and only if the quarantine on the fastest clock
      outlasts the window on the slowest. */
  lemma MarginExact(rho: real, margin: u64)
    requires 0.0 <= rho < 1.0 && 0 < margin <= 0x7FFF_FFFF_FFFF_FFFF - HORIZON
    ensures Exclusive(rho, margin) <==> (1.0 - rho) * (HORIZON + margin - 1) as real >= (1.0 + rho) * HORIZON as real
  {
    if (1.0 - rho) * (HORIZON + margin - 1) as real >= (1.0 + rho) * HORIZON as real {
      forall env: Env, gs: seq<Global>, acts: seq<Action>, k: nat, a: nat, c: nat |
        && LeaseSafety.RatesWithin(env, rho) && DistinctHolders(env)
        && (forall i: nat :: i < env.nodes ==> env.cfg(i).margin == margin)
        && Run(env, gs, acts) && k <= |acts| && a < |gs[k].nodes| && c < |gs[k].nodes|
        && Open(env, gs[k], a) && Open(env, gs[k], c)
        ensures a == c
      {
        PaidIsExclusive(rho, margin, env, gs, acts, k, a, c);
      }
    } else {
      var env, gs, acts := MarginIsNecessary(rho, margin);
      assert Open(env, gs[|acts|], 0) && Open(env, gs[|acts|], 1);
    }
  }

  lemma PaidIsExclusive(rho: real, margin: u64, env: Env, gs: seq<Global>, acts: seq<Action>, k: nat, a: nat, c: nat)
    requires (1.0 - rho) * (HORIZON + margin - 1) as real >= (1.0 + rho) * HORIZON as real
    requires LeaseSafety.RatesWithin(env, rho) && forall i: nat :: i < env.nodes ==> env.cfg(i).margin == margin
    requires Run(env, gs, acts) && k <= |acts| && a < |gs[k].nodes| && c < |gs[k].nodes|
    requires Open(env, gs[k], a) && Open(env, gs[k], c)
    ensures a == c
  {
    assert LeaseSafety.MarginPays(env, rho, 0.0);
    if a != c {
      LeaseSafety.RatedGatesSeparated(env, rho, gs, acts, k, k, a, c, 0.0);
    }
  }
}
