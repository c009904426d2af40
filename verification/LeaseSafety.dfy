/** No two gates are open at once: the invariant of the Lease protocol and its consequences. */
module LeaseSafety {
  import opened Common
  import opened Fence
  import DriverGate
  import opened Controller
  import opened LeaseProtocol

  // ----- what the shared board keeps

  /** Bounds on real time: five seconds of any node's clock pass in less than `window`, and a
      quarantine counted on node `i`'s clock takes more than `quarantine(i)`. */
  datatype Timing = Timing(env: Env, window: real, quarantine: nat -> real)

  ghost predicate Clocks(d: Timing) {
    && (forall i, s, t :: s <= t && d.env.clock(i, t) - d.env.clock(i, s) < HORIZON as real ==> t - s < d.window)
    && (forall i, s, t ::
          s <= t && d.env.clock(i, t) - d.env.clock(i, s) > (HORIZON + d.env.cfg(i).margin - 1) as real ==>
          t - s > d.quarantine(i))
  }

  /** Node `i`'s quarantine spanned from `s` to `t`. */
  predicate Waited(d: Timing, i: nat, s: real, t: real) {
    t - s > d.quarantine(i)
  }

  /** Write `j` is by node `i`, under a ticket captured no later than `t`. */
  predicate Ours(b: Board, i: nat, t: real, j: int)
    requires 0 <= j < |b.history|
  {
    && b.history[j].request.Some? && b.history[j].request.value < |b.requests|
    && b.requests[b.history[j].request.value].author == i
    && b.requests[b.history[j].request.value].capturedAt <= t
  }

  /** A ticket of node `i` captured at `t` may replace revision `rv`: to renew it is the node's own,
      otherwise, whoever wrote it, the quarantine has passed since. */
  ghost predicate Cleared(d: Timing, b: Board, i: nat, rv: string, t: real, renewal: bool) {
    forall j {:trigger b.history[j]} :: 0 <= j < |b.history| && b.history[j].rec.rv == rv ==>
      if renewal then Ours(b, i, t, j) else Waited(d, i, b.history[j].at, t)
  }

  predicate HasRVAt(b: Board, rv: string, j: int) {
    0 <= j < |b.history| && b.history[j].rec.rv == rv
  }

  ghost predicate HasRV(b: Board, rv: string) {
    exists j :: HasRVAt(b, rv, j)
  }

  ghost predicate Ordered(b: Board) {
    && (forall j {:trigger b.history[j]} :: 0 <= j < |b.history| ==> b.history[j].at <= b.now)
    && (forall j, k {:trigger b.history[j], b.history[k]} :: 0 <= j < k < |b.history| ==>
          b.history[j].at <= b.history[k].at && b.history[j].rec.rv != b.history[k].rec.rv)
  }

  ghost predicate RequestOk(d: Timing, b: Board, q: Request) {
    && q.capturedAt <= b.now
    && q.ticket.captured == Reading(d.env, q.author, q.capturedAt)
    && q.ticket.deadline == q.ticket.captured + HORIZON
    && HasRV(b, q.from.rv)
    && Cleared(d, b, q.author, q.from.rv, q.capturedAt, q.renewal)
  }

  /** A controller's write replaced exactly the revision it had read, after capturing its ticket. */
  predicate LinkOk(b: Board, j: int)
    requires 0 <= j < |b.history|
  {
    b.history[j].request.Some? ==>
      && 0 < j && b.history[j].request.value < |b.requests|
      && b.history[j - 1].rec.rv == b.requests[b.history[j].request.value].from.rv
      && b.requests[b.history[j].request.value].capturedAt <= b.history[j].at
  }

  ghost predicate BoardOk(d: Timing, b: Board) {
    && Ordered(b)
    && (forall k {:trigger b.requests[k]} :: 0 <= k < |b.requests| ==> RequestOk(d, b, b.requests[k]))
    && (forall j {:trigger b.history[j]} :: 0 <= j < |b.history| ==> LinkOk(b, j))
  }

  // ----- what each node keeps

  /** Some write of node `i` was made under a ticket captured at `captured`. */
  predicate GrantedAt(b: Board, i: nat, captured: int, j: int) {
    && 0 <= j < |b.history| && b.history[j].request.Some? && b.history[j].request.value < |b.requests|
    && b.requests[b.history[j].request.value].author == i
    && b.requests[b.history[j].request.value].ticket.captured == captured
  }

  ghost predicate Granted(b: Board, i: nat, captured: int) {
    exists j :: GrantedAt(b, i, captured, j)
  }

  predicate OwnAt(b: Board, i: nat, out: Record, captured: Option<u64>, j: int) {
    && WrittenAt(b, out, j)
    && b.history[j].request.Some? && b.history[j].request.value < |b.requests|
    && b.requests[b.history[j].request.value].author == i
    && (captured.Some? ==> b.requests[b.history[j].request.value].ticket.captured == captured.value)
  }

  /** `out` is the record of a write of node `i`, under the ticket captured at `captured` if given. */
  ghost predicate Own(b: Board, i: nat, out: Record, captured: Option<u64>) {
    exists j :: OwnAt(b, i, out, captured, j)
  }

  ghost predicate Stamped(d: Timing, b: Board, i: nat, n: Node) {
    n.ctl.v.stableRV != "" ==>
      && n.sinceAt <= b.now
      && n.ctl.v.since == Reading(d.env, i, n.sinceAt)
      && HasRV(b, n.ctl.v.stableRV)
      && forall j {:trigger b.history[j]} :: 0 <= j < |b.history| && b.history[j].rec.rv == n.ctl.v.stableRV ==>
           b.history[j].at <= n.sinceAt
  }

  /** `line` is the ticket the driver captured at `n.capturedAt` for a CAS on `rv`. */
  ghost predicate FreshTicket(d: Timing, b: Board, i: nat, n: Node, rv: string, captured: int) {
    && n.capturedAt <= b.now
    && captured == Reading(d.env, i, n.capturedAt)
    && Cleared(d, b, i, rv, n.capturedAt, n.ctl.v.ack)
  }

  ghost predicate PhaseOk(d: Timing, b: Board, i: nat, n: Node) {
    match n.ctl.at
    case GotContext(r) => Written(b, r)
    case GotClock(r) => Written(b, r)
    case Naming(r) => Written(b, r) && Cleared(d, b, i, r.rv, b.now, n.ctl.v.ack)
    case Before(r, _) => Written(b, r) && Cleared(d, b, i, r.rv, b.now, n.ctl.v.ack)
    case Capturing(r, _, _) =>
      && Written(b, r) && Cleared(d, b, i, r.rv, b.now, n.ctl.v.ack)
      && (n.busy && n.answer.Some? && n.answer.value.Ticket? ==> FreshTicket(d, b, i, n, r.rv, n.answer.value.captured))
    case CapturedContext(r, _, _, t) =>
      Written(b, r) && FreshTicket(d, b, i, n, r.rv, t.captured) && t.deadline == t.captured + HORIZON
    case CapturedClock(r, _, _, t) =>
      Written(b, r) && FreshTicket(d, b, i, n, r.rv, t.captured) && t.deadline == t.captured + HORIZON
    case Swapping(r, next, t) =>
      && n.pending < |b.requests| && b.requests[n.pending].author == i
      && b.requests[n.pending].ticket == t
    case SwappedClock(_, _, t, out) => Own(b, i, out, Some(t.captured))
    case SwappedContext(t, out) => Own(b, i, out, Some(t.captured))
    case Arming(t, out) => Own(b, i, out, Some(t.captured))
    case ArmedContext(t, out) => Own(b, i, out, Some(t.captured))
    case ArmedClock(t, out) => Own(b, i, out, Some(t.captured))
    case _ => true
  }

  /** An exchange in progress is the one the controller waits for. */
  predicate BusyOk(n: Node) {
    n.busy ==> Wanted(n.ctl.at).Some? && (n.pipe.Some? ==> n.pipe == Wanted(n.ctl.at))
  }

  ghost predicate NodeOk(d: Timing, b: Board, i: nat, n: Node) {
    && BusyOk(n)
    && Stamped(d, b, i, n)
    && (n.ctl.v.ack ==> Own(b, i, n.ctl.v.own, None))
    && PhaseOk(d, b, i, n)
    && (n.pipe.Some? && n.pipe.value.Arm? ==> Granted(b, i, n.pipe.value.requested))
    && SlotCaptured(n.driver)
    && (n.driver.slot.Some? ==> Granted(b, i, n.driver.slot.value.captured))
  }

  ghost predicate Inv(d: Timing, g: Global) {
    && Clocks(d)
    && BoardOk(d, g.board)
    && forall i {:trigger g.nodes[i]} :: 0 <= i < |g.nodes| ==> NodeOk(d, g.board, i, g.nodes[i])
  }

  // ----- preservation

  /** The board only ever gains time, revisions under new resourceVersions, and requests. */
  ghost predicate Grows(b: Board, b': Board) {
    && b.now <= b'.now
    && b.history <= b'.history
    && b.requests <= b'.requests
    && forall j {:trigger b'.history[j]} :: |b.history| <= j < |b'.history| ==> FreshRV(b, b'.history[j].rec.rv)
  }

  lemma WaitedLater(d: Timing, i: nat, s: real, s': real, t: real, t': real)
    requires s' <= s && t <= t' && Waited(d, i, s, t)
    ensures Waited(d, i, s', t')
  {
  }

  lemma ClearedKept(d: Timing, b: Board, b': Board, i: nat, rv: string, t: real, t': real,
                    renewal: bool)
    requires Grows(b, b') && t <= t' && HasRV(b, rv) && Cleared(d, b, i, rv, t, renewal)
    ensures Cleared(d, b', i, rv, t', renewal)
  {
    forall j | 0 <= j < |b'.history| && b'.history[j].rec.rv == rv
      ensures if renewal then Ours(b', i, t', j) else Waited(d, i, b'.history[j].at, t')
    {
      var k :| HasRVAt(b, rv, k);
      assert j < |b.history|;
      assert b.history[j] == b'.history[j];
      if !renewal {
        WaitedLater(d, i, b.history[j].at, b.history[j].at, t, t');
      }
    }
  }

  lemma WitnessesKept(b: Board, b': Board)
    requires Grows(b, b')
    ensures forall rv :: HasRV(b, rv) ==> HasRV(b', rv)
    ensures forall r :: Written(b, r) ==> Written(b', r) && HasRV(b', r.rv)
    ensures forall i, c :: Granted(b, i, c) ==> Granted(b', i, c)
    ensures forall i, out, c :: Own(b, i, out, c) ==> Own(b', i, out, c)
  {
    forall rv | HasRV(b, rv)
      ensures HasRV(b', rv)
    {
      var j :| HasRVAt(b, rv, j);
      assert HasRVAt(b', rv, j);
    }
    forall r | Written(b, r)
      ensures Written(b', r) && HasRV(b', r.rv)
    {
      var j :| WrittenAt(b, r, j);
      assert WrittenAt(b', r, j) && HasRVAt(b', r.rv, j);
    }
    forall i, c | Granted(b, i, c)
      ensures Granted(b', i, c)
    {
      var j :| GrantedAt(b, i, c, j);
      assert GrantedAt(b', i, c, j);
    }
    forall i, out, c | Own(b, i, out, c)
      ensures Own(b', i, out, c)
    {
      var j :| OwnAt(b, i, out, c, j);
      assert OwnAt(b', i, out, c, j);
    }
  }

  lemma WrittenHasRV(b: Board, r: Record)
    requires Written(b, r)
    ensures HasRV(b, r.rv)
  {
    var j :| WrittenAt(b, r, j);
    assert HasRVAt(b, r.rv, j);
  }

  lemma StampedKept(d: Timing, b: Board, b': Board, i: nat, n: Node)
    requires Grows(b, b') && Stamped(d, b, i, n)
    ensures Stamped(d, b', i, n)
  {
    WitnessesKept(b, b');
    var rv := n.ctl.v.stableRV;
    if rv != "" {
      forall j | 0 <= j < |b'.history| && b'.history[j].rec.rv == rv
        ensures b'.history[j].at <= n.sinceAt
      {
        var k :| HasRVAt(b, rv, k);
        assert j < |b.history|;
        assert b.history[j] == b'.history[j];
      }
    }
  }

  lemma PhaseKept(d: Timing, b: Board, b': Board, i: nat, n: Node)
    requires Grows(b, b') && PhaseOk(d, b, i, n)
    ensures PhaseOk(d, b', i, n)
  {
    WitnessesKept(b, b');
    match n.ctl.at {
      case Naming(r) => ClearedKept(d, b, b', i, r.rv, b.now, b'.now, n.ctl.v.ack) by { WrittenHasRV(b, r); }
      case Before(r, _) => ClearedKept(d, b, b', i, r.rv, b.now, b'.now, n.ctl.v.ack) by { WrittenHasRV(b, r); }
      case Capturing(r, _, _) =>
        WrittenHasRV(b, r);
        ClearedKept(d, b, b', i, r.rv, b.now, b'.now, n.ctl.v.ack);
        if n.busy && n.answer.Some? && n.answer.value.Ticket? {
          ClearedKept(d, b, b', i, r.rv, n.capturedAt, n.capturedAt, n.ctl.v.ack);
        }
      case CapturedContext(r, _, _, t) =>
        ClearedKept(d, b, b', i, r.rv, n.capturedAt, n.capturedAt, n.ctl.v.ack) by { WrittenHasRV(b, r); }
      case CapturedClock(r, _, _, t) =>
        ClearedKept(d, b, b', i, r.rv, n.capturedAt, n.capturedAt, n.ctl.v.ack) by { WrittenHasRV(b, r); }
      case _ =>
    }
  }

  lemma NodeKept(d: Timing, b: Board, b': Board, i: nat, n: Node)
    requires Grows(b, b') && NodeOk(d, b, i, n)
    ensures NodeOk(d, b', i, n)
  {
    WitnessesKept(b, b');
    StampedKept(d, b, b', i, n);
    PhaseKept(d, b, b', i, n);
  }

  lemma RequestsKept(d: Timing, b: Board, b': Board, k: int)
    requires Grows(b, b') && 0 <= k < |b.requests| && RequestOk(d, b, b.requests[k])
    ensures RequestOk(d, b', b'.requests[k])
  {
    var q := b.requests[k];
    assert b'.requests[k] == q;
    WitnessesKept(b, b');
    ClearedKept(d, b, b', q.author, q.from.rv, q.capturedAt, q.capturedAt, q.renewal);
  }

  /** A new revision keeps the board in order; a controller's must replace what it had read. */
  lemma AppendKeepsBoard(d: Timing, b: Board, w: Write)
    requires BoardOk(d, b) && FreshRV(b, w.rec.rv) && w.at == b.now
    requires w.request.Some? ==> w.request.value < |b.requests| && Current(b, b.requests[w.request.value].from)
    ensures BoardOk(d, b.(history := b.history + [w])) && Grows(b, b.(history := b.history + [w]))
  {
    var b' := b.(history := b.history + [w]);
    assert Grows(b, b');
    forall k | 0 <= k < |b'.requests|
      ensures RequestOk(d, b', b'.requests[k])
    {
      RequestsKept(d, b, b', k);
    }
    forall j | 0 <= j < |b'.history|
      ensures LinkOk(b', j)
    {
      if j < |b.history| {
        assert LinkOk(b, j);
        assert b'.history[j] == b.history[j];
        if 0 < j { assert b'.history[j - 1] == b.history[j - 1]; }
      } else if w.request.Some? {
        assert b'.history[j - 1] == b.history[|b.history| - 1];
        assert RequestOk(d, b, b.requests[w.request.value]);
      }
    }
  }

  // ----- each local step

  lemma AskKeeps(d: Timing, b: Board, i: nat, n: Node, b': Board, n': Node)
    requires NodeOk(d, b, i, n) && Local(d.env, b, i, n, Ask(i), b', n')
    ensures NodeOk(d, b, i, n')
  {
    if n.ctl.at.Arming? {
      var j :| OwnAt(b, i, n.ctl.at.out, Some(n.ctl.at.t.captured), j);
      assert GrantedAt(b, i, n.ctl.at.t.captured, j);
    }
  }

  lemma DriveKeeps(d: Timing, b: Board, i: nat, n: Node, mapOk: bool, b': Board, n': Node)
    requires NodeOk(d, b, i, n) && Local(d.env, b, i, n, Drive(i, mapOk), b', n')
    ensures NodeOk(d, b, i, n')
  {
    HandleKeepsSlotCaptured(n.driver, Input(n.pipe.value, Reading(d.env, i, b.now), mapOk));
  }

  lemma AnsweredKeeps(d: Timing, b: Board, i: nat, n: Node, inTime: bool, b': Board, n': Node)
    requires NodeOk(d, b, i, n) && Local(d.env, b, i, n, Answered(i, inTime), b', n')
    ensures NodeOk(d, b, i, n')
  {
  }

  /** A gate operation that fails only gives up. */
  lemma LostOutcome(s: State, cfg: Config, gate: DriverGate.Gate)
    requires Wanted(s.at).Some? && Next(s, cfg, GateEvent(s.at, gate, false)).Some?
    ensures var r := Next(s, cfg, GateEvent(s.at, gate, false)).value;
            && (r.at.Failing? || r.at == Idle(Failure)) && (r.v.ack ==> s.v.ack && r.v.own == s.v.own)
            && (r.v.stableRV == "" || (r.v.stableRV == s.v.stableRV && r.v.since == s.v.since))
  {
  }

  lemma LostKeeps(d: Timing, b: Board, i: nat, n: Node, b': Board, n': Node)
    requires NodeOk(d, b, i, n) && Local(d.env, b, i, n, Lost(i), b', n')
    ensures NodeOk(d, b, i, n')
  {
    LostOutcome(n.ctl, d.env.cfg(i), n.gate);
  }

  lemma CloseKeeps(d: Timing, b: Board, i: nat, n: Node, sent: bool, b': Board, n': Node)
    requires NodeOk(d, b, i, n) && Local(d.env, b, i, n, Close(i, sent), b', n')
    ensures NodeOk(d, b, i, n')
  {
  }

  /** Readings a full window plus margin apart bound the real time between them. */
  lemma QuarantineWaits(d: Timing, i: nat, s: real, t: real)
    requires Clocks(d) && s <= t
    requires Reading(d.env, i, t) - Reading(d.env, i, s) >= HORIZON + d.env.cfg(i).margin
    ensures Waited(d, i, s, t)
  {
    var span := d.env.clock(i, t) - d.env.clock(i, s);
    assert span > (HORIZON + d.env.cfg(i).margin - 1) as real;
  }

  lemma RenewalCleared(d: Timing, b: Board, i: nat, own: Record)
    requires BoardOk(d, b) && Own(b, i, own, None)
    ensures Cleared(d, b, i, own.rv, b.now, true)
  {
    var k :| OwnAt(b, i, own, None, k);
    assert RequestOk(d, b, b.requests[b.history[k].request.value]);
    forall j | 0 <= j < |b.history| && b.history[j].rec.rv == own.rv
      ensures Ours(b, i, b.now, j)
    {
      assert j == k;
    }
  }

  lemma QuarantineCleared(d: Timing, b: Board, i: nat, n: Node, reading: int)
    requires Clocks(d) && Stamped(d, b, i, n) && n.ctl.v.stableRV != ""
    requires reading == Reading(d.env, i, b.now) && reading - n.ctl.v.since >= HORIZON + d.env.cfg(i).margin
    ensures Cleared(d, b, i, n.ctl.v.stableRV, b.now, false)
  {
    QuarantineWaits(d, i, n.sinceAt, b.now);
    forall j | 0 <= j < |b.history| && b.history[j].rec.rv == n.ctl.v.stableRV
      ensures Waited(d, i, b.history[j].at, b.now)
    {
      WaitedLater(d, i, n.sinceAt, b.history[j].at, b.now, b.now);
    }
  }

  lemma JudgeKeeps(d: Timing, b: Board, i: nat, n: Node, r: Record, reading: u64, s: State)
    requires Clocks(d) && BoardOk(d, b) && NodeOk(d, b, i, n)
    requires n.ctl.at == GotClock(r) && Tick(n.ctl.v, reading) && reading == Reading(d.env, i, b.now)
    requires s == Judge(n.ctl.v, d.env.cfg(i), r, reading)
    ensures NodeOk(d, b, i, Moved(n, s, b.now))
  {
    WrittenHasRV(b, r);
    JudgeOutcomes(n.ctl.v, d.env.cfg(i), r, reading);
    if s.at.Naming? {
      ClaimCleared(d, b, i, n, r, reading);
    }
    assert PhaseOk(d, b, i, Moved(n, s, b.now));
  }

  /** The record read may be replaced: it is the node's own, or its quarantine is over. */
  lemma ClaimCleared(d: Timing, b: Board, i: nat, n: Node, r: Record, reading: u64)
    requires Clocks(d) && BoardOk(d, b) && Stamped(d, b, i, n) && (n.ctl.v.ack ==> Own(b, i, n.ctl.v.own, None))
    requires reading == Reading(d.env, i, b.now)
    requires || Renews(n.ctl.v, d.env.cfg(i), r)
             || (n.ctl.v.stableRV == r.rv != "" && reading - n.ctl.v.since >= HORIZON + d.env.cfg(i).margin)
    ensures Cleared(d, b, i, r.rv, b.now, Renews(n.ctl.v, d.env.cfg(i), r))
  {
    if Renews(n.ctl.v, d.env.cfg(i), r) {
      RenewalCleared(d, b, i, n.ctl.v.own);
    } else {
      QuarantineCleared(d, b, i, n, reading);
    }
  }

  /** What a reading after a GET leads to: failure, a new quarantine, waiting on, or a CAS that is
      a renewal or follows a full quarantine of the revision just read. */
  lemma JudgeOutcomes(v: Vars, cfg: Config, r: Record, n: u64)
    ensures var s := Judge(v, cfg, r, n);
            || (s.at == Failing && !s.v.ack && s.v.stableRV == "")
            || (s.at == Quarantining && s.v.stableRV == r.rv && s.v.since == n && !s.v.ack)
            || (s.at == Idle(Quiet) && s.v.stableRV == v.stableRV && s.v.since == v.since && !s.v.ack)
            || (&& s.at == Naming(r) && s.v.stableRV == v.stableRV && s.v.since == v.since && s.v.own == v.own
                && s.v.ack == Renews(v, cfg, r) && r.epoch < U64_MAX
                && (Renews(v, cfg, r) || (v.stableRV == r.rv && r.rv != "" && n - v.since >= HORIZON + cfg.margin)))
  {
  }

  /** Exchanges other than the verdict on a GET: `since` survives or is dropped, and an
      acknowledged own record is kept or newly obtained. */
  lemma ExchangeVars(s: State, cfg: Config, e: Event)
    requires Next(s, cfg, e).Some? && Wanted(s.at).None? && !(s.at.GotClock? && Tick(s.v, e.n))
    ensures var t := Next(s, cfg, e).value;
            && !t.at.Quarantining?
            && (t.v.stableRV == "" || (t.v.stableRV == s.v.stableRV && t.v.since == s.v.since))
            && (t.v.ack ==> (s.v.ack && t.v.own == s.v.own) || (s.at.ArmedClock? && t.v.own == s.at.out))
            && (!t.at.Failing? && !t.at.Idle? ==> t.v.ack == s.v.ack)
  {
  }

  /** Exchanges other than the verdict on a GET and the CAS itself: what the next phase knows is
      what this one knew, or a revision just read. */
  lemma ExchangePhase(s: State, cfg: Config, e: Event)
    requires Next(s, cfg, e).Some? && Wanted(s.at).None? && !s.at.GotClock?
    ensures var t := Next(s, cfg, e).value;
            match t.at
            case GotContext(r) => e == Got(Ok(r))
            case GotClock(r) => s.at == GotContext(r)
            case Naming(_) => false
            case Before(r, _) => s.at == Naming(r)
            case Capturing(r, nonce, _) => s.at == Before(r, nonce)
            case CapturedContext(_, _, _, _) => false
            case CapturedClock(r, nonce, before, t) => s.at == CapturedContext(r, nonce, before, t)
            case Swapping(r, _, t) => s.at.CapturedClock? && s.at.r == r && s.at.t == t
            case SwappedClock(r, next, t, out) => s.at == Swapping(r, next, t) && e == Swapped(r, next, Ok(out))
            case SwappedContext(t, out) => s.at.SwappedClock? && s.at.t == t && s.at.out == out
            case Arming(t, out) => s.at == SwappedContext(t, out)
            case ArmedContext(t, out) => false
            case ArmedClock(t, out) => s.at == ArmedContext(t, out)
            case _ => true
  {
  }

  lemma OwnUnticketed(b: Board, i: nat, out: Record, captured: Option<u64>)
    requires Own(b, i, out, captured)
    ensures Own(b, i, out, None)
  {
    var j :| OwnAt(b, i, out, captured, j);
    assert OwnAt(b, i, out, None, j);
  }

  /** The fields after such an exchange. */
  lemma ExchangeFields(d: Timing, b: Board, i: nat, n: Node, e: Event, s: State)
    requires NodeOk(d, b, i, n) && Wanted(n.ctl.at).None? && Next(n.ctl, d.env.cfg(i), e) == Some(s)
    requires !(n.ctl.at.GotClock? && Tick(n.ctl.v, e.n))
    ensures Stamped(d, b, i, Moved(n, s, b.now)) && (s.v.ack ==> Own(b, i, s.v.own, None))
    ensures !s.at.Failing? && !s.at.Idle? ==> s.v.ack == n.ctl.v.ack
  {
    ExchangeVars(n.ctl, d.env.cfg(i), e);
    if n.ctl.at.ArmedClock? {
      OwnUnticketed(b, i, n.ctl.at.out, Some(n.ctl.at.t.captured));
    }
  }

  /** The phase after it, given that `ack` is what it was. */
  lemma ExchangePhaseOk(d: Timing, b: Board, i: nat, n: Node, e: Event, s: State)
    requires NodeOk(d, b, i, n) && Wanted(n.ctl.at).None? && Plausible(d.env, b, i, n, e) && !n.ctl.at.GotClock?
    requires Next(n.ctl, d.env.cfg(i), e) == Some(s) && !s.at.Swapping?
    requires !s.at.Failing? && !s.at.Idle? ==> s.v.ack == n.ctl.v.ack
    ensures PhaseOk(d, b, i, Moved(n, s, b.now))
  {
    ExchangePhase(n.ctl, d.env.cfg(i), e);
    if s.at.SwappedClock? {
      var j :| DoneAt(b, n.pending, s.at.out, j);
      assert OwnAt(b, i, s.at.out, Some(s.at.t.captured), j);
    }
  }

  lemma ExchangeKeeps(d: Timing, b: Board, i: nat, n: Node, e: Event, s: State)
    requires Clocks(d) && BoardOk(d, b) && NodeOk(d, b, i, n)
    requires Wanted(n.ctl.at).None? && Plausible(d.env, b, i, n, e)
    requires Next(n.ctl, d.env.cfg(i), e) == Some(s) && !s.at.Swapping?
    ensures NodeOk(d, b, i, Moved(n, s, b.now))
  {
    if n.ctl.at.GotClock? && Tick(n.ctl.v, e.n) {
      JudgeKeeps(d, b, i, n, n.ctl.at.r, e.n, s);
      return;
    }
    ExchangeFields(d, b, i, n, e, s);
    if n.ctl.at.GotClock? {
      assert s.at == Failing;
      return;
    }
    ExchangePhaseOk(d, b, i, n, e, s);
  }

  lemma RequestKeepsBoard(d: Timing, b: Board, q: Request)
    requires BoardOk(d, b) && RequestOk(d, b, q)
    ensures BoardOk(d, b.(requests := b.requests + [q])) && Grows(b, b.(requests := b.requests + [q]))
  {
    var b' := b.(requests := b.requests + [q]);
    assert Grows(b, b');
    forall k | 0 <= k < |b'.requests|
      ensures RequestOk(d, b', b'.requests[k])
    {
      if k < |b.requests| {
        RequestsKept(d, b, b', k);
      } else {
        WitnessesKept(b, b');
        ClearedKept(d, b, b', q.author, q.from.rv, q.capturedAt, q.capturedAt, q.renewal);
      }
    }
    forall j | 0 <= j < |b'.history|
      ensures LinkOk(b', j)
    {
      assert LinkOk(b, j);
    }
  }

  lemma SendsRequest(d: Timing, b: Board, i: nat, n: Node, e: Event, s: State) returns (q: Request)
    requires NodeOk(d, b, i, n) && Wanted(n.ctl.at).None?
    requires Next(n.ctl, d.env.cfg(i), e) == Some(s) && s.at.Swapping?
    ensures q == Request(i, s.at.r, s.at.next, s.at.t, n.capturedAt, s.v.ack) && RequestOk(d, b, q)
  {
    SwappingIsNotJudged(n.ctl, d.env.cfg(i), e);
    ExchangePhase(n.ctl, d.env.cfg(i), e);
    ExchangeVars(n.ctl, d.env.cfg(i), e);
    WrittenHasRV(b, s.at.r);
    q := Request(i, s.at.r, s.at.next, s.at.t, n.capturedAt, s.v.ack);
  }

  lemma SendKeeps(d: Timing, b: Board, i: nat, n: Node, e: Event, s: State)
    requires Clocks(d) && BoardOk(d, b) && NodeOk(d, b, i, n)
    requires Wanted(n.ctl.at).None? && Plausible(d.env, b, i, n, e)
    requires Next(n.ctl, d.env.cfg(i), e) == Some(s) && s.at.Swapping?
    ensures var (b', n') := Sent(b, i, Moved(n, s, b.now));
            BoardOk(d, b') && Grows(b, b') && NodeOk(d, b', i, n')
  {
    var q := SendsRequest(d, b, i, n, e, s);
    RequestKeepsBoard(d, b, q);
    ExchangeFields(d, b, i, n, e, s) by { SwappingIsNotJudged(n.ctl, d.env.cfg(i), e); }
    SentNode(d, b, i, n, Moved(n, s, b.now), q);
  }

  /** The sender, while its request is under way. */
  lemma SentNode(d: Timing, b: Board, i: nat, n: Node, m: Node, q: Request)
    requires NodeOk(d, b, i, n) && !n.busy && m.ctl.at.Swapping? && m == n.(ctl := m.ctl) && q.author == i
    requires Stamped(d, b, i, m) && (m.ctl.v.ack ==> Own(b, i, m.ctl.v.own, None)) && q.ticket == m.ctl.at.t
    requires Grows(b, b.(requests := b.requests + [q]))
    ensures NodeOk(d, b.(requests := b.requests + [q]), i, m.(pending := |b.requests|))
  {
    var b' := b.(requests := b.requests + [q]);
    WitnessesKept(b, b');
    StampedKept(d, b, b', i, m);
  }

  lemma SwappingIsNotJudged(s: State, cfg: Config, e: Event)
    requires Next(s, cfg, e).Some? && Next(s, cfg, e).value.at.Swapping?
    ensures !s.at.GotClock?
  {
    if s.at.GotClock? && Tick(s.v, e.n) {
      JudgeOutcomes(s.v, cfg, s.at.r, e.n);
    }
  }

  lemma LocalKeeps(d: Timing, b: Board, i: nat, n: Node, a: Action, b': Board, n': Node)
    requires Clocks(d) && BoardOk(d, b) && NodeOk(d, b, i, n)
    requires Local(d.env, b, i, n, a, b', n')
    ensures BoardOk(d, b') && Grows(b, b') && NodeOk(d, b', i, n')
  {
    match a {
      case Ask(_) => AskKeeps(d, b, i, n, b', n');
      case Drive(_, mapOk) => DriveKeeps(d, b, i, n, mapOk, b', n');
      case Answered(_, inTime) => AnsweredKeeps(d, b, i, n, inTime, b', n');
      case Lost(_) => LostKeeps(d, b, i, n, b', n');
      case Close(_, sent) => CloseKeeps(d, b, i, n, sent, b', n');
      case Exchange(_, e) =>
        var s := Next(n.ctl, d.env.cfg(i), e).value;
        if s.at.Swapping? {
          SendKeeps(d, b, i, n, e, s);
        } else {
          ExchangeKeeps(d, b, i, n, e, s);
        }
    }
  }

  lemma TimeKeepsBoard(d: Timing, b: Board, until: real)
    requires BoardOk(d, b) && b.now <= until
    ensures BoardOk(d, b.(now := until)) && Grows(b, b.(now := until))
  {
    var b' := b.(now := until);
    assert Grows(b, b');
    forall k | 0 <= k < |b'.requests|
      ensures RequestOk(d, b', b'.requests[k])
    {
      RequestsKept(d, b, b', k);
    }
    forall j | 0 <= j < |b'.history|
      ensures LinkOk(b', j)
    {
      assert LinkOk(b, j);
    }
  }

  /** Every step of every node, of the authority, of foreign writers and of time keeps the invariant. */
  /** What an action does to the board and to the node that acts. */
  lemma StepKeepsBoard(d: Timing, g: Global, a: Action, g': Global)
    requires Inv(d, g) && Step(d.env, g, a, g')
    ensures BoardOk(d, g'.board) && Grows(g.board, g'.board) && |g'.nodes| == |g.nodes|
    ensures forall i :: 0 <= i < |g.nodes| && g'.nodes[i] != g.nodes[i] ==> NodeOk(d, g'.board, i, g'.nodes[i])
  {
    var b := g.board;
    match a {
      case Pass(until) => TimeKeepsBoard(d, b, until);
      case Foreign(rec) => AppendKeepsBoard(d, b, Write(rec, b.now, None));
      case Execute(k, rv) => AppendKeepsBoard(d, b, Write(b.requests[k].to.(rv := rv), b.now, Some(k)));
      case _ => LocalKeeps(d, b, a.i, g.nodes[a.i], a, g'.board, g'.nodes[a.i]);
    }
  }

  lemma StepKeeps(d: Timing, g: Global, a: Action, g': Global)
    requires Inv(d, g) && Step(d.env, g, a, g')
    ensures Inv(d, g') && Grows(g.board, g'.board) && |g'.nodes| == |g.nodes|
  {
    StepKeepsBoard(d, g, a, g');
    forall i | 0 <= i < |g'.nodes|
      ensures NodeOk(d, g'.board, i, g'.nodes[i])
    {
      if g'.nodes[i] == g.nodes[i] {
        NodeKept(d, g.board, g'.board, i, g.nodes[i]);
      }
    }
  }

  lemma InitInv(d: Timing, g: Global)
    requires Clocks(d) && Init(d.env, g)
    ensures Inv(d, g)
  {
    forall j | 0 <= j < |g.board.history|
      ensures LinkOk(g.board, j)
    {
      assert g.board.history[j].request == None;
    }
    forall i | 0 <= i < |g.nodes|
      ensures NodeOk(d, g.board, i, g.nodes[i])
    {
      assert g.nodes[i].(driver := Fresh(false)) == NEWBORN;
    }
  }

  lemma {:induction false} RunInv(d: Timing, gs: seq<Global>, acts: seq<Action>, k: nat)
    requires Clocks(d) && Run(d.env, gs, acts) && k <= |acts|
    ensures Inv(d, gs[k]) && |gs[k].nodes| == d.env.nodes
  {
    if k == 0 {
      InitInv(d, gs[0]);
    } else {
      RunInv(d, gs, acts, k - 1);
      StepKeeps(d, gs[k - 1], acts[k - 1], gs[k]);
    }
  }

  lemma {:induction false} RunGrows(d: Timing, gs: seq<Global>, acts: seq<Action>, k: nat, m: nat)
    requires Clocks(d) && Run(d.env, gs, acts) && k <= m <= |acts|
    ensures gs[k].board.now <= gs[m].board.now
    ensures gs[k].board.history <= gs[m].board.history && gs[k].board.requests <= gs[m].board.requests
  {
    if k < m {
      RunGrows(d, gs, acts, k, m - 1);
      StepGrows(d, gs, acts, m - 1);
    }
  }

  lemma StepGrows(d: Timing, gs: seq<Global>, acts: seq<Action>, k: nat)
    requires Clocks(d) && Run(d.env, gs, acts) && k < |acts|
    ensures Grows(gs[k].board, gs[k + 1].board)
  {
    RunInv(d, gs, acts, k);
    StepKeeps(d, gs[k], acts[k], gs[k + 1]);
  }

  // ----- consequences

  /** A write that renews none of its author's own, be the record it replaces the author's or not, was
      made under a ticket captured a full quarantine after every write before it. */
  lemma NewClaimsWaited(d: Timing, b: Board, j: nat, k: nat)
    requires BoardOk(d, b) && j < k < |b.history| && b.history[k].request.Some?
    requires !b.requests[b.history[k].request.value].renewal
    ensures var later := b.requests[b.history[k].request.value];
            Waited(d, later.author, b.history[j].at, later.capturedAt)
  {
    var later := b.requests[b.history[k].request.value];
    assert LinkOk(b, k) && RequestOk(d, b, later);
    assert b.history[k - 1].rec.rv == later.from.rv;
    WaitedLater(d, later.author, b.history[k - 1].at, b.history[j].at, later.capturedAt, later.capturedAt);
  }

  /** A renewal directly follows a write of its own author, under a ticket captured before. */
  lemma RenewalsFollowOwn(d: Timing, b: Board, k: nat)
    requires BoardOk(d, b) && k < |b.history| && b.history[k].request.Some?
    requires b.requests[b.history[k].request.value].renewal
    ensures var q := b.requests[b.history[k].request.value];
            0 < k && Ours(b, q.author, q.capturedAt, k - 1)
  {
    assert LinkOk(b, k) && RequestOk(d, b, b.requests[b.history[k].request.value]);
    assert b.history[k - 1].rec.rv == b.requests[b.history[k].request.value].from.rv;
  }

  /** The history of the Lease: a write by another node than write `j`'s, anywhere after it, was
      made under a ticket captured a full quarantine after write `j`. */
  lemma {:induction false} LaterOwnersWaited(d: Timing, b: Board, j: nat, k: nat)
    requires BoardOk(d, b) && j < k < |b.history|
    requires b.history[j].request.Some? && b.history[k].request.Some?
    requires b.requests[b.history[j].request.value].author != b.requests[b.history[k].request.value].author
    ensures var later := b.requests[b.history[k].request.value];
            Waited(d, later.author, b.history[j].at, later.capturedAt)
    decreases k
  {
    var later := b.requests[b.history[k].request.value];
    if !later.renewal {
      NewClaimsWaited(d, b, j, k);
    } else {
      RenewalsFollowOwn(d, b, k);
      var earlier := b.requests[b.history[k - 1].request.value];
      LaterOwnersWaited(d, b, j, k - 1);
      WaitedLater(d, later.author, b.history[j].at, b.history[j].at, earlier.capturedAt, later.capturedAt);
    }
  }

  /** A quarantine outlasts a window by `drain`, the time packets past the gate are still under way. */
  ghost predicate Budget(d: Timing, drain: real) {
    0.0 <= drain && forall i: nat :: i < d.env.nodes ==> d.quarantine(i) >= d.window + drain
  }

  /** An open gate's ticket was captured less than a slow clock's window ago, for a write made since. */
  lemma OpenMeansRecent(d: Timing, g: Global, i: nat) returns (j: nat, q: Request)
    requires Inv(d, g) && i < |g.nodes| && Open(d.env, g, i)
    ensures WriteOf(g.board, j, q) && q.author == i && q.capturedAt <= g.board.now
    ensures g.board.now - q.capturedAt < d.window
  {
    var b := g.board;
    assert NodeOk(d, b, i, g.nodes[i]);
    var w := g.nodes[i].driver.slot.value;
    j :| GrantedAt(b, i, w.captured, j);
    assert LinkOk(b, j);
    q := b.requests[b.history[j].request.value];
    assert RequestOk(d, b, q);
    WindowIsShort(d, i, q.capturedAt, b.now);
  }

  lemma WindowIsShort(d: Timing, i: nat, s: real, t: real)
    requires Clocks(d) && s <= t && Reading(d.env, i, t) < Reading(d.env, i, s) + HORIZON
    ensures t - s < d.window
  {
    assert d.env.clock(i, t) - d.env.clock(i, s) < HORIZON as real;
  }

  /** Windows of different owners are ordered like their writes, `drain` or more apart: while the
      earlier ticket can still open its gate, the later one has not been captured. */
  lemma WindowsOrdered(d: Timing, b: Board, j: nat, k: nat, p: Request, q: Request, t: real, drain: real)
    requires BoardOk(d, b) && Budget(d, drain) && j < k < |b.history|
    requires WriteOf(b, j, p) && WriteOf(b, k, q)
    requires p.author != q.author && q.author < d.env.nodes && t - p.capturedAt < d.window
    ensures q.capturedAt > t + drain
  {
    LaterOwnersWaited(d, b, j, k);
  }

  /** Write `j` is the effect of request `q`, captured before. */
  predicate WriteOf(b: Board, j: nat, q: Request) {
    && j < |b.history| && b.history[j].request.Some? && b.history[j].request.value < |b.requests|
    && b.requests[b.history[j].request.value] == q && q.capturedAt <= b.history[j].at
  }

  /** Two gates of one run are never open at times less than `drain` apart, whichever opens first;
      in particular never at the same time. */
  lemma GatesSeparated(d: Timing, gs: seq<Global>, acts: seq<Action>, k: nat, m: nat, a: nat, c: nat, drain: real)
    requires Clocks(d) && Run(d.env, gs, acts) && k <= m <= |acts|
    requires a < |gs[k].nodes| && c < |gs[m].nodes| && a != c
    requires Open(d.env, gs[k], a) && Open(d.env, gs[m], c)
    requires Budget(d, drain)
    ensures gs[m].board.now - gs[k].board.now > drain
  {
    RunInv(d, gs, acts, k);
    RunInv(d, gs, acts, m);
    RunGrows(d, gs, acts, k, m);
    var first, p := OpenMeansRecent(d, gs[k], a);
    var second, q := OpenMeansRecent(d, gs[m], c);
    WriteOfKept(gs[k].board, gs[m].board, first, p);
    OneOfTwo(d, gs[m].board, first, second, p, q, gs[k].board.now, drain);
  }

  lemma WriteOfKept(b: Board, b': Board, j: nat, q: Request)
    requires b.history <= b'.history && b.requests <= b'.requests && WriteOf(b, j, q)
    ensures WriteOf(b', j, q)
  {
  }

  lemma OneOfTwo(d: Timing, b: Board, first: nat, second: nat, p: Request, q: Request, t: real, drain: real)
    requires BoardOk(d, b) && Budget(d, drain)
    requires WriteOf(b, first, p) && WriteOf(b, second, q)
    requires p.author != q.author && p.author < d.env.nodes && q.author < d.env.nodes
    requires p.capturedAt <= t <= b.now && q.capturedAt <= b.now
    requires t - p.capturedAt < d.window
    requires b.now - q.capturedAt < d.window
    ensures b.now - t > drain
  {
    if first < second {
      WindowsOrdered(d, b, first, second, p, q, t, drain);
    } else {
      WindowsOrdered(d, b, second, first, q, p, b.now, drain);
    }
  }

  /** Mutual exclusion over every run: at most one gate is open at a time. */
  lemma MutualExclusion(d: Timing, gs: seq<Global>, acts: seq<Action>, k: nat, a: nat, c: nat)
    requires Clocks(d) && Run(d.env, gs, acts) && k <= |acts| && Budget(d, 0.0)
    requires a < |gs[k].nodes| && c < |gs[k].nodes| && Open(d.env, gs[k], a) && Open(d.env, gs[k], c)
    ensures a == c
  {
    if a != c {
      GatesSeparated(d, gs, acts, k, k, a, c, 0.0);
    }
  }

  // ----- clocks of bounded rate

  /** Every clock runs within a rate error `rho` of real time. */
  ghost predicate RatesWithin(env: Env, rho: real) {
    && 0.0 <= rho < 1.0
    && forall i, s, t :: s <= t ==>
         (1.0 - rho) * (t - s) <= env.clock(i, t) - env.clock(i, s) <= (1.0 + rho) * (t - s)
  }

  /** The margin of every node pays for the rate error and for `drain`. */
  ghost predicate MarginPays(env: Env, rho: real, drain: real) {
    && 0.0 <= drain
    && forall i: nat :: i < env.nodes ==>
         (1.0 - rho) * (HORIZON + env.cfg(i).margin - 1) as real
         >= (1.0 + rho) * (HORIZON as real + (1.0 - rho) * drain)
  }

  function TimingOf(env: Env, rho: real): Timing
    requires 0.0 <= rho < 1.0
  {
    Timing(env, HORIZON as real / (1.0 - rho), (i: nat) => (HORIZON + env.cfg(i).margin - 1) as real / (1.0 + rho))
  }

  lemma QuotientAbove(x: real, y: real, c: real)
    requires 0.0 < c && c * x < y
    ensures x < y / c
  {
  }

  lemma QuotientBelow(x: real, y: real, c: real)
    requires 0.0 < c && y < c * x
    ensures y / c < x
  {
  }

  lemma RatesBoundTiming(env: Env, rho: real)
    requires RatesWithin(env, rho)
    ensures Clocks(TimingOf(env, rho))
  {
    var d := TimingOf(env, rho);
    forall i, s, t | s <= t && env.clock(i, t) - env.clock(i, s) < HORIZON as real
      ensures t - s < d.window
    {
      QuotientAbove(t - s, HORIZON as real, 1.0 - rho);
    }
    forall i, s, t | s <= t && env.clock(i, t) - env.clock(i, s) > (HORIZON + env.cfg(i).margin - 1) as real
      ensures t - s > d.quarantine(i)
    {
      QuotientBelow(t - s, (HORIZON + env.cfg(i).margin - 1) as real, 1.0 + rho);
    }
  }

  /** `window / slow + drain <= quarantine / fast` without division. */
  lemma RatesAfford(window: real, quarantine: real, drain: real, slow: real, fast: real)
    requires 0.0 < slow && 0.0 < fast && slow * quarantine >= fast * (window + slow * drain)
    ensures quarantine / fast >= window / slow + drain
  {
    var q, w := quarantine / fast, window / slow;
    assert fast * q == quarantine && slow * w == window;
    assert fast * (slow * q) >= fast * (slow * (w + drain));
  }

  lemma MarginAffords(env: Env, rho: real, drain: real)
    requires 0.0 <= rho < 1.0 && MarginPays(env, rho, drain)
    ensures Budget(TimingOf(env, rho), drain)
  {
    forall i: nat | i < env.nodes
      ensures TimingOf(env, rho).quarantine(i) >= TimingOf(env, rho).window + drain
    {
      RatesAfford(HORIZON as real, (HORIZON + env.cfg(i).margin - 1) as real, drain, 1.0 - rho, 1.0 + rho);
    }
  }

  /** With clock rates within `rho` and margins that pay for it, the gates of any two nodes are
      open only at times more than `drain` apart, in every run. */
  lemma RatedGatesSeparated(env: Env, rho: real, gs: seq<Global>, acts: seq<Action>, k: nat, m: nat, a: nat, c: nat,
                            drain: real)
    requires RatesWithin(env, rho) && MarginPays(env, rho, drain)
    requires Run(env, gs, acts) && k <= m <= |acts|
    requires a < |gs[k].nodes| && c < |gs[m].nodes| && a != c
    requires Open(env, gs[k], a) && Open(env, gs[m], c)
    ensures gs[m].board.now - gs[k].board.now > drain
  {
    RatesBoundTiming(env, rho);
    MarginAffords(env, rho, drain);
    GatesSeparated(TimingOf(env, rho), gs, acts, k, m, a, c, drain);
  }

  /** With clocks of equal rate every margin that `New` accepts pays: what it has beyond one
      nanosecond, the granularity of the readings, is left for the drain. */
  lemma EqualRatesSuffice(env: Env, gs: seq<Global>, acts: seq<Action>, k: nat, m: nat, a: nat, c: nat, margin: nat)
    requires RatesWithin(env, 0.0)
    requires 0 < margin && forall i: nat :: i < env.nodes ==> margin <= env.cfg(i).margin
    requires Run(env, gs, acts) && k <= m <= |acts|
    requires a < |gs[k].nodes| && c < |gs[m].nodes| && a != c
    requires Open(env, gs[k], a) && Open(env, gs[m], c)
    ensures k != m && gs[m].board.now - gs[k].board.now > (margin - 1) as real
  {
    RatedGatesSeparated(env, 0.0, gs, acts, k, m, a, c, (margin - 1) as real);
  }
}
