/** What the acknowledgements of a gate mean for the kernel map, in every run of the Lease protocol. */
module GateEffects {
  import opened Common
  import opened Fence
  import opened Controller
  import opened LeaseProtocol
  import FailClosed
  import LeaseSafety
  import DriverLockstep

  predicate ArmUnderWay(n: Node) {
    n.pipe.Some? && n.pipe.value.Arm?
  }

  /** A window in the map, or an ARM on its way to it, belongs to a controller that may have armed or is
      asking to; an answer just read off the driver is true of the map. */
  predicate Shut(n: Node) {
    && (n.driver.slot.Some? || ArmUnderWay(n) ==> FailClosed.Accounted(n.ctl) || n.ctl.at.Arming?)
    && (n.busy && n.pipe.None? && n.answer == Some(Denied) ==> n.driver.slot.None?)
    && (n.busy && n.pipe.None? && n.answer == Some(Armed) && !n.gate.poisoned ==> n.driver.slot == Some(n.gate.ticket))
    && (n.busy && n.ctl.at.Arming? && !n.gate.poisoned ==> n.gate.ticket == n.ctl.at.t)
  }

  predicate Sound(n: Node) {
    DriverLockstep.Lockstep(n) && Shut(n) && SlotCaptured(n.driver)
  }

  lemma AskKeeps(env: Env, b: Board, i: nat, n: Node, b': Board, n': Node)
    requires Sound(n) && Local(env, b, i, n, Ask(i), b', n')
    ensures Shut(n')
  {
  }

  lemma DriveKeeps(env: Env, b: Board, i: nat, n: Node, mapOk: bool, b': Board, n': Node)
    requires Sound(n) && Local(env, b, i, n, Drive(i, mapOk), b', n')
    ensures Shut(n')
  {
  }

  /** What the controller learns accounts for the map. */
  lemma AnsweredKeeps(env: Env, b: Board, i: nat, n: Node, inTime: bool, b': Board, n': Node)
    requires Sound(n) && Local(env, b, i, n, Answered(i, inTime), b', n')
    ensures Shut(n')
  {
  }

  lemma LostKeeps(env: Env, b: Board, i: nat, n: Node, b': Board, n': Node)
    requires Sound(n) && Local(env, b, i, n, Lost(i), b', n')
    ensures Shut(n')
  {
  }

  lemma ExchangeKeeps(env: Env, b: Board, i: nat, n: Node, e: Event, b': Board, n': Node)
    requires Sound(n) && Local(env, b, i, n, Exchange(i, e), b', n')
    ensures Shut(n')
  {
    FailClosed.NextAccounts(n.ctl, env.cfg(i), e, n.driver.slot.Some? || ArmUnderWay(n));
  }

  lemma SlotKeeps(env: Env, b: Board, i: nat, n: Node, a: Action, b': Board, n': Node)
    requires SlotCaptured(n.driver) && Local(env, b, i, n, a, b', n')
    ensures SlotCaptured(n'.driver) && (!a.Drive? ==> n'.driver == n.driver)
  {
    if a.Drive? {
      HandleKeepsSlotCaptured(n.driver, Input(n.pipe.value, Reading(env, i, b.now), a.mapOk));
    }
  }

  lemma LocalKeeps(env: Env, b: Board, i: nat, n: Node, a: Action, b': Board, n': Node)
    requires Sound(n) && Local(env, b, i, n, a, b', n')
    ensures Sound(n')
  {
    DriverLockstep.LocalKeeps(env, b, i, n, a, b', n');
    SlotKeeps(env, b, i, n, a, b', n');
    match a {
      case Ask(_) => AskKeeps(env, b, i, n, b', n');
      case Drive(_, mapOk) => DriveKeeps(env, b, i, n, mapOk, b', n');
      case Answered(_, inTime) => AnsweredKeeps(env, b, i, n, inTime, b', n');
      case Lost(_) => LostKeeps(env, b, i, n, b', n');
      case Close(_, sent) =>
      case Exchange(_, e) => ExchangeKeeps(env, b, i, n, e, b', n');
    }
  }

  lemma {:induction false} RunSound(env: Env, gs: seq<Global>, acts: seq<Action>, k: nat, i: nat)
    requires Run(env, gs, acts) && k <= |acts| && i < |gs[k].nodes|
    ensures Sound(gs[k].nodes[i])
  {
    if k > 0 {
      assert Step(env, gs[k - 1], acts[k - 1], gs[k]);
      RunSound(env, gs, acts, k - 1, i);
      if gs[k].nodes[i] != gs[k - 1].nodes[i] {
        LocalKeeps(env, gs[k - 1].board, i, gs[k - 1].nodes[i], acts[k - 1], gs[k].board, gs[k].nodes[i]);
      }
    }
  }

  /** In every run, the gate of a controller that is between Steps, not terminal and without an
      acknowledged grant is shut, and no ARM is on its way to it. */
  lemma IdleGateIsShut(env: Env, gs: seq<Global>, acts: seq<Action>, k: nat, i: nat)
    requires Run(env, gs, acts) && k <= |acts| && i < |gs[k].nodes|
    requires var s := gs[k].nodes[i].ctl; s.at.Idle? && !s.v.terminal && !s.v.ack
    ensures gs[k].nodes[i].driver.slot == None && !ArmUnderWay(gs[k].nodes[i]) && !Open(env, gs[k], i)
  {
    RunSound(env, gs, acts, k, i);
  }

  /** The DENY that node `i` was waiting for is acknowledged in action `k`. */
  predicate DenyAcknowledged(gs: seq<Global>, acts: seq<Action>, k: nat, i: nat)
    requires k < |acts| < |gs| && i < |gs[k].nodes|
  {
    acts[k].Answered? && acts[k].i == i && Wanted(gs[k].nodes[i].ctl.at) == Some(Deny)
  }

  /** Node `i` asks for no ARM after action `k` and before state `m`. */
  ghost predicate NoArmAsked(gs: seq<Global>, acts: seq<Action>, k: nat, m: nat, i: nat)
    requires m <= |acts| < |gs|
  {
    forall j {:trigger acts[j]} :: k < j < m && acts[j] == Ask(i) ==>
      i < |gs[j].nodes| && !gs[j].nodes[i].ctl.at.Arming?
  }

  lemma DenyEmpties(env: Env, b: Board, i: nat, n: Node, inTime: bool, b': Board, n': Node)
    requires Sound(n) && Local(env, b, i, n, Answered(i, inTime), b', n') && Wanted(n.ctl.at) == Some(Deny)
    ensures n'.driver.slot == None && n'.pipe == None
  {
  }

  lemma StaysEmpty(env: Env, b: Board, i: nat, n: Node, a: Action, b': Board, n': Node)
    requires Local(env, b, i, n, a, b', n') && n.driver.slot == None && !ArmUnderWay(n)
    requires a.Ask? ==> !n.ctl.at.Arming?
    ensures n'.driver.slot == None && !ArmUnderWay(n')
  {
  }

  /** Once a DENY is acknowledged the map is empty, and it stays so until an ARM is asked for, whatever
      is lost, late or repeated meanwhile. */
  lemma {:induction false} DeniedStaysShut(env: Env, gs: seq<Global>, acts: seq<Action>, k: nat, m: nat, i: nat)
    requires Run(env, gs, acts) && k < m <= |acts| && i < |gs[k].nodes|
    requires DenyAcknowledged(gs, acts, k, i) && NoArmAsked(gs, acts, k, m, i)
    ensures i < |gs[m].nodes| && gs[m].nodes[i].driver.slot == None && !ArmUnderWay(gs[m].nodes[i])
    ensures !Open(env, gs[m], i)
    decreases m
  {
    assert Step(env, gs[m - 1], acts[m - 1], gs[m]);
    var a := acts[m - 1];
    if m == k + 1 {
      RunSound(env, gs, acts, k, i);
      DenyEmpties(env, gs[k].board, i, gs[k].nodes[i], a.inTime, gs[m].board, gs[m].nodes[i]);
    } else {
      DeniedStaysShut(env, gs, acts, k, m - 1, i);
      if gs[m].nodes[i] != gs[m - 1].nodes[i] {
        StaysEmpty(env, gs[m - 1].board, i, gs[m - 1].nodes[i], a, gs[m].board, gs[m].nodes[i]);
      }
    }
  }

  /** The ARM of ticket `t` that node `i` was waiting for is acknowledged in action `k`. */
  predicate ArmAcknowledged(gs: seq<Global>, acts: seq<Action>, k: nat, i: nat, t: Window)
    requires k < |acts| < |gs| && i < |gs[k].nodes|
  {
    acts[k].Answered? && acts[k].i == i && gs[k].nodes[i].ctl.at.Arming? && gs[k].nodes[i].ctl.at.t == t
  }

  lemma ArmFills(env: Env, b: Board, i: nat, n: Node, inTime: bool, b': Board, n': Node)
    requires Sound(n) && Local(env, b, i, n, Answered(i, inTime), b', n') && n.ctl.at.Arming?
    ensures n'.driver.slot == Some(n.ctl.at.t)
  {
  }

  /** Once an ARM is acknowledged, and until the driver is given another command, the gate is open
      exactly during the five seconds from the ticket's capture. */
  lemma {:induction false} ArmedStaysOpen(env: Env, gs: seq<Global>, acts: seq<Action>, k: nat, m: nat, i: nat,
                                          t: Window)
    requires Run(env, gs, acts) && k < m <= |acts| && i < |gs[k].nodes| && ArmAcknowledged(gs, acts, k, i, t)
    requires forall j {:trigger acts[j]} :: k < j < m ==> !(acts[j].Drive? && acts[j].i == i)
    ensures i < |gs[m].nodes| && gs[m].nodes[i].driver.slot == Some(t)
    ensures var now := Reading(env, i, gs[m].board.now);
            0 <= now <= U64_MAX ==> (Open(env, gs[m], i) <==> t.captured <= now < t.captured + 5_000_000_000)
    decreases m
  {
    assert Step(env, gs[m - 1], acts[m - 1], gs[m]);
    var a := acts[m - 1];
    if m == k + 1 {
      RunSound(env, gs, acts, k, i);
      ArmFills(env, gs[k].board, i, gs[k].nodes[i], a.inTime, gs[m].board, gs[m].nodes[i]);
    } else {
      ArmedStaysOpen(env, gs, acts, k, m - 1, i, t);
    }
    RunSound(env, gs, acts, m, i);
  }
}
