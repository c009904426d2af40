/** The two halves of the ticket protocol agree in every run of the Lease protocol. */
module DriverLockstep {
  import opened Common
  import opened Fence
  import opened Controller
  import opened LeaseProtocol
  import LeaseSafety

  /** While the gate is not poisoned it holds the driver's ticket, except between the driver's
      handling of a command and the gate's reading of the answer, which then tells the difference. */
  predicate Agrees(n: Node) {
    !n.gate.poisoned ==>
      && (!n.busy ==> n.pipe.None? && n.gate.ticket == n.driver.ticket)
      && (n.busy && n.pipe.Some? ==> n.answer.None? && n.gate.ticket == n.driver.ticket)
      && (n.busy && n.pipe.None? && n.answer.Some? ==>
            match n.answer.value
            case Ticket(c, d) => n.driver.ticket == Window(c, d)
            case Armed => n.driver.ticket == NO_TICKET
            case Denied => n.driver.ticket == NO_TICKET
            case Rejected => true)
  }

  predicate Increasing(s: seq<u64>) {
    forall i, j :: 0 <= i < j < |s| ==> s[i] < s[j]
  }

  predicate Above(s: seq<u64>, c: u64) {
    forall i :: 0 <= i < |s| ==> s[i] < c
  }

  /** Armed capture times strictly increase, and a ticket still to be armed lies above them all. */
  predicate ArmsOnce(n: Node) {
    && Increasing(n.driver.armed)
    && (forall i :: 0 <= i < |n.driver.armed| ==> n.driver.armed[i] <= n.gate.lastCapture)
    && (!n.gate.poisoned && !n.busy && n.gate.ticket.captured != 0 ==>
          n.gate.ticket.captured == n.gate.lastCapture && Above(n.driver.armed, n.gate.lastCapture))
    && (n.pipe.Some? && n.pipe.value.Arm? ==>
          n.pipe.value.requested == n.gate.lastCapture && Above(n.driver.armed, n.gate.lastCapture))
  }

  predicate Lockstep(n: Node) {
    LeaseSafety.BusyOk(n) && Agrees(n) && ArmsOnce(n)
  }

  lemma AskKeeps(env: Env, b: Board, i: nat, n: Node, b': Board, n': Node)
    requires Lockstep(n) && Local(env, b, i, n, Ask(i), b', n')
    ensures Lockstep(n')
  {
  }

  lemma DriveKeeps(env: Env, b: Board, i: nat, n: Node, mapOk: bool, b': Board, n': Node)
    requires Lockstep(n) && Local(env, b, i, n, Drive(i, mapOk), b', n')
    ensures Lockstep(n')
  {
  }

  lemma AnsweredKeeps(env: Env, b: Board, i: nat, n: Node, inTime: bool, b': Board, n': Node)
    requires Lockstep(n) && Local(env, b, i, n, Answered(i, inTime), b', n')
    ensures Lockstep(n')
  {
  }

  lemma ExchangeKeeps(env: Env, b: Board, i: nat, n: Node, e: Event, b': Board, n': Node)
    requires Lockstep(n) && Local(env, b, i, n, Exchange(i, e), b', n')
    ensures Lockstep(n')
  {
    assert !n.busy && !n'.busy;
    assert n'.gate == n.gate && n'.driver == n.driver && n'.pipe == n.pipe;
  }

  lemma LocalKeeps(env: Env, b: Board, i: nat, n: Node, a: Action, b': Board, n': Node)
    requires Lockstep(n) && Local(env, b, i, n, a, b', n')
    ensures Lockstep(n')
  {
    match a {
      case Ask(_) => AskKeeps(env, b, i, n, b', n');
      case Drive(_, mapOk) => DriveKeeps(env, b, i, n, mapOk, b', n');
      case Answered(_, inTime) => AnsweredKeeps(env, b, i, n, inTime, b', n');
      case Lost(_) =>
      case Close(_, sent) =>
      case Exchange(_, e) => ExchangeKeeps(env, b, i, n, e, b', n');
    }
  }

  /** In every run the gate and its driver stay in lockstep, and no ticket is armed twice. */
  lemma {:induction false} RunLockstep(env: Env, gs: seq<Global>, acts: seq<Action>, k: nat, i: nat)
    requires Run(env, gs, acts) && k <= |acts| && i < |gs[k].nodes|
    ensures Lockstep(gs[k].nodes[i])
  {
    if k > 0 {
      assert Step(env, gs[k - 1], acts[k - 1], gs[k]);
      RunLockstep(env, gs, acts, k - 1, i);
      if gs[k].nodes[i] != gs[k - 1].nodes[i] {
        LocalKeeps(env, gs[k - 1].board, i, gs[k - 1].nodes[i], acts[k - 1], gs[k].board, gs[k].nodes[i]);
      }
    }
  }

  /** A poisoned gate stays poisoned and writes nothing more to its driver. */
  lemma {:induction false} PoisonedIsSilent(env: Env, gs: seq<Global>, acts: seq<Action>, k: nat, m: nat, i: nat)
    requires Run(env, gs, acts) && k <= m <= |acts| && i < |gs[k].nodes| && gs[k].nodes[i].gate.poisoned
    ensures i < |gs[m].nodes| && gs[m].nodes[i].gate.poisoned
    ensures gs[m].nodes[i].pipe == gs[k].nodes[i].pipe || gs[m].nodes[i].pipe == None
  {
    if k < m {
      PoisonedIsSilent(env, gs, acts, k, m - 1, i);
      assert Step(env, gs[m - 1], acts[m - 1], gs[m]);
    }
  }
}
