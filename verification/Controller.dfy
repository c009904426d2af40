/** The CAS ownership controller (`controller.go`): its event machine and the `Step` method. */
module Controller {
  import opened Common
  import opened Fence

  const PROTOCOL: string := "nexora-kernel-ticket-v1"

  datatype Record = Record(uid: string, rv: string, holder: string, nonce: string, protocol: string, epoch: u64)

  const NO_RECORD: Record := Record("", "", "", "", "", 0)

  /** 32 bytes in canonical lowercase hexadecimal. */
  predicate Strong(s: string) {
    |s| == 64 && forall i :: 0 <= i < |s| ==> '0' <= s[i] <= '9' || 'a' <= s[i] <= 'f'
  }

  predicate Valid(r: Record) {
    && r.protocol == PROTOCOL
    && 0 < |r.uid| <= 256
    && 0 < |r.rv| <= 256
    && (r.holder == "" || Strong(r.holder))
    && Strong(r.nonce)
  }

  datatype Config = Config(holder: string, margin: u64)

  /** What `New` accepts: the kernel window plus the margin fits a signed 64-bit duration. */
  predicate Accepted(cfg: Config) {
    Strong(cfg.holder) && 0 < cfg.margin <= 0x7FFF_FFFF_FFFF_FFFF - HORIZON
  }

  datatype Reply = Ok(record: Record) | Gone | Failed

  /** Everything a `Step` exchanges with the clock, the authority, the gate and its context. */
  datatype Event =
    | Begin
    | Clock(n: u64)
    | DenyAsked(ok: bool)
    | Got(reply: Reply)
    | Context(live: bool)
    | Nonce(nonce: Option<string>)
    | CaptureAsked(capture: Option<Window>)
    | Swapped(from: Record, to: Record, reply: Reply)
    | ArmAsked(ticket: Window, ok: bool)

  datatype Outcome = Failure | Quiet | Acknowledged(ticket: Window)

  /** Where a `Step` stands between two exchanges, with the locals it still needs. */
  datatype Phase =
    | Idle(outcome: Outcome)
    | Starting
    | Opening
    | Getting
    | GotContext(r: Record)
    | GotClock(r: Record)
    | Quarantining
    | Naming(r: Record)
    | Before(r: Record, nonce: string)
    | Capturing(r: Record, nonce: string, before: u64)
    | CapturedContext(r: Record, nonce: string, before: u64, t: Window)
    | CapturedClock(r: Record, nonce: string, before: u64, t: Window)
    | Swapping(r: Record, next: Record, t: Window)
    | SwappedClock(r: Record, next: Record, t: Window, out: Record)
    | SwappedContext(t: Window, out: Record)
    | Arming(t: Window, out: Record)
    | ArmedContext(t: Window, out: Record)
    | ArmedClock(t: Window, out: Record)
    | Failing

  /** The fields of the Go `Controller`. */
  datatype Vars = Vars(
    last: u64, since: u64, pinned: string, stableRV: string,
    own: Record, observed: Record, ack: bool, started: bool, terminal: bool)

  const NEW: Vars := Vars(0, 0, "", "", NO_RECORD, NO_RECORD, false, false, false)

  datatype State = State(v: Vars, at: Phase)

  const START: State := State(NEW, Idle(Quiet))

  predicate Tick(v: Vars, n: u64) { n != 0 && v.last <= n }

  function FailAs(v: Vars, terminal: bool): State {
    State(v.(ack := false, stableRV := "", since := 0, terminal := v.terminal || terminal), Failing)
  }

  predicate Renews(v: Vars, cfg: Config, r: Record) {
    && v.ack
    && r.uid == v.own.uid && r.rv == v.own.rv && r.holder == cfg.holder
    && r.nonce == v.own.nonce && r.epoch == v.own.epoch
  }

  /** A record that changed under an unchanged resourceVersion. */
  predicate Inconsistent(seen: Record, r: Record) {
    && seen.uid == r.uid && seen.rv == r.rv
    && (seen.holder != r.holder || seen.nonce != r.nonce || seen.epoch != r.epoch)
  }

  predicate GoodTicket(t: Window, before: u64, after: u64) {
    && t.captured != 0 && before <= t.captured <= after
    && t.captured < t.deadline && t.deadline - t.captured <= HORIZON
    && after < t.deadline
  }

  function Proposal(r: Record, cfg: Config, nonce: string): Record {
    r.(holder := cfg.holder, nonce := nonce, epoch := (r.epoch + 1) % (U64_MAX + 1))
  }

  predicate Confirms(out: Record, r: Record, next: Record) {
    && Valid(out) && out.uid == r.uid && out.rv != r.rv
    && out.holder == next.holder && out.nonce == next.nonce && out.epoch == next.epoch
  }

  /** What follows the clock reading after a GET: identity checks, then renewal or quarantine. */
  function Judge(v0: Vars, cfg: Config, r: Record, n: u64): State {
    var v := v0.(last := n);
    if !Valid(r) then FailAs(v, false) else
    var v := v.(pinned := if v.pinned == "" then r.uid else v.pinned);
    if r.uid != v.pinned then FailAs(v, true)
    else if Inconsistent(v.observed, r) then FailAs(v, false)
    else
      Wait(v.(observed := r), cfg, r, n)
  }

  function Wait(v: Vars, cfg: Config, r: Record, n: u64): State {
    if Renews(v, cfg, r) then Propose(v, r)
    else
      var v := v.(ack := false);
      if v.stableRV != r.rv then State(v.(stableRV := r.rv, since := n), Quarantining)
      else if n - v.since < HORIZON + cfg.margin then State(v, Idle(Quiet))
      else Propose(v, r)
  }

  function Propose(v: Vars, r: Record): State {
    if r.epoch == U64_MAX then FailAs(v, false) else State(v, Naming(r))
  }

  /** The controller as a machine: the state after one exchange, `None` if it does not make it. */
  function Next(s: State, cfg: Config, e: Event): Option<State> {
    var v := s.v;
    match s.at
    case Idle(_) => if !e.Begin? then None else
      Some(if v.terminal then State(v, Idle(Failure))
           else if !v.started then State(v.(started := true), Starting)
           else State(v, Opening))
    case Starting => if !e.DenyAsked? then None else
      Some(if e.ok then State(v, Opening) else State(v.(terminal := true), Idle(Failure)))
    case Opening => if !e.Clock? then None else
      Some(if Tick(v, e.n) then State(v.(last := e.n), Getting) else FailAs(v, true))
    case Getting => if !e.Got? then None else
      Some(match e.reply
           case Ok(r) => State(v, GotContext(r))
           case Gone => FailAs(v, true)
           case Failed => FailAs(v, false))
    case GotContext(r) => if !e.Context? then None else
      Some(if e.live then State(v, GotClock(r)) else FailAs(v, false))
    case GotClock(r) => if !e.Clock? then None else
      Some(if Tick(v, e.n) then Judge(v, cfg, r, e.n) else FailAs(v, true))
    case Quarantining => if !e.DenyAsked? then None else
      Some(if e.ok then State(v, Idle(Quiet)) else State(v.(terminal := true), Idle(Failure)))
    case Naming(r) => if !e.Nonce? then None else
      Some(if e.nonce.None? || e.nonce.value == r.nonce then FailAs(v, false) else State(v, Before(r, e.nonce.value)))
    case Before(r, nonce) => if !e.Clock? then None else
      Some(if Tick(v, e.n) then State(v.(last := e.n), Capturing(r, nonce, e.n)) else FailAs(v, true))
    case Capturing(r, nonce, before) => if !e.CaptureAsked? then None else
      Some(if e.capture.None? then FailAs(v, true) else State(v, CapturedContext(r, nonce, before, e.capture.value)))
    case CapturedContext(r, nonce, before, t) => if !e.Context? then None else
      Some(if e.live then State(v, CapturedClock(r, nonce, before, t)) else FailAs(v, true))
    case CapturedClock(r, nonce, before, t) => if !e.Clock? then None else
      Some(if !Tick(v, e.n) then FailAs(v, true)
           else if !GoodTicket(t, before, e.n) then FailAs(v.(last := e.n), true)
           else State(v.(last := e.n), Swapping(r, Proposal(r, cfg, nonce), t)))
    case Swapping(r, next, t) => if !e.Swapped? then None else
      if e.from != r || e.to != next then None else
      Some(match e.reply
           case Ok(out) => State(v, SwappedClock(r, next, t, out))
           case Gone => FailAs(v, true)
           case Failed => FailAs(v, false))
    case SwappedClock(r, next, t, out) => if !e.Clock? then None else
      Some(if !Tick(v, e.n) then FailAs(v, true)
           else if !Confirms(out, r, next) || t.deadline <= e.n then FailAs(v.(last := e.n), false)
           else State(v.(last := e.n), SwappedContext(t, out)))
    case SwappedContext(t, out) => if !e.Context? then None else
      Some(if e.live then State(v, Arming(t, out)) else FailAs(v, false))
    case Arming(t, out) => if !e.ArmAsked? then None else
      if e.ticket != t then None else
      Some(if e.ok then State(v, ArmedContext(t, out)) else FailAs(v, true))
    case ArmedContext(t, out) => if !e.Context? then None else
      Some(if e.live then State(v, ArmedClock(t, out)) else FailAs(v, true))
    case ArmedClock(t, out) => if !e.Clock? then None else
      Some(if !Tick(v, e.n) then FailAs(v, true)
           else if t.deadline <= e.n then FailAs(v.(last := e.n), false)
           else State(v.(last := e.n, own := out, ack := true, stableRV := "", since := 0), Idle(Acknowledged(t))))
    case Failing => if !e.DenyAsked? then None else
      Some(State(v.(terminal := v.terminal || !e.ok), Idle(Failure)))
  }

  function Advance(s: Option<State>, cfg: Config, e: Event): Option<State> {
    match s
    case None => None
    case Some(t) => Next(t, cfg, e)
  }

  /** `states` is the run of the machine along `log`, from a newly built controller. */
  predicate Runs(cfg: Config, log: seq<Event>, states: seq<Option<State>>) {
    && |states| == |log| + 1
    && states[0] == Some(START)
    && forall i {:trigger log[i]} :: 0 <= i < |log| ==> states[i + 1] == Advance(states[i], cfg, log[i])
  }

  // ----- what one Step asks for

  /** How often a Step read and wrote the Lease, the last record it read, and the tickets it asked to arm. */
  datatype Trail = Trail(gets: nat, base: Record, swaps: nat, arms: seq<Window>)

  const NO_TRAIL: Trail := Trail(0, NO_RECORD, 0, [])

  function Noted(tr: Trail, e: Event): Trail {
    if e.Got? then tr.(gets := tr.gets + 1, base := if e.reply.Ok? then e.reply.record else tr.base)
    else if e.Swapped? then tr.(swaps := tr.swaps + 1)
    else if e.ArmAsked? then tr.(arms := tr.arms + [e.ticket])
    else tr
  }

  function TrailOf(es: seq<Event>): Trail {
    if es == [] then NO_TRAIL else Noted(TrailOf(es[..|es| - 1]), es[|es| - 1])
  }

  /** A write may replace `r`: the controller's own last write, or one whose quarantine an earlier Step began. */
  predicate MayClaim(v: Vars, cfg: Config, r: Record) {
    Renews(v, cfg, r) || v.stableRV == r.rv != ""
  }

  /** `out` is a record of `holder` that directly succeeds `r`. */
  predicate Succeeds(out: Record, r: Record, holder: string) {
    out.uid == r.uid && out.rv != r.rv && out.epoch == r.epoch + 1 && out.holder == holder
  }

  /** What a whole Step from `v` did: at most one GET, one CAS and one ARM, the last two only over a
      record it may claim; acknowledged, it armed exactly its ticket and owns that record's successor. */
  predicate StepDone(v: Vars, cfg: Config, tr: Trail, s: State)
    requires s.at.Idle?
  {
    && tr.gets <= 1 && |tr.arms| <= tr.swaps <= tr.gets && (tr.swaps > 0 ==> MayClaim(v, cfg, tr.base))
    && (s.at.outcome.Quiet? ==> tr.swaps == 0)
    && (s.at.outcome.Acknowledged? ==>
          && tr.arms == [s.at.outcome.ticket] && Succeeds(s.v.own, tr.base, cfg.holder)
          && s.v.ack && s.v.stableRV == "")
  }

  /** What a Step from `v` did so far, phase by phase. */
  predicate StepInv(v: Vars, cfg: Config, tr: Trail, s: State) {
    var at := s.at;
    if at.Idle? then StepDone(v, cfg, tr, s)
    else if at.Starting? || at.Opening? || at.Getting? then
      tr == NO_TRAIL && s.v.own == v.own && s.v.ack == v.ack && s.v.stableRV == v.stableRV
    else if at.GotContext? || at.GotClock? then
      tr == Trail(1, at.r, 0, []) && s.v.own == v.own && s.v.ack == v.ack && s.v.stableRV == v.stableRV
    else if at.Quarantining? then tr.gets == 1 && tr.swaps == 0 && tr.arms == []
    else if at.Failing? then
      tr.gets <= 1 && |tr.arms| <= tr.swaps <= tr.gets && (tr.swaps > 0 ==> MayClaim(v, cfg, tr.base))
    else if at.Naming? || at.Before? || at.Capturing? || at.CapturedContext? || at.CapturedClock? then
      tr == Trail(1, at.r, 0, []) && MayClaim(v, cfg, at.r) && at.r.epoch < U64_MAX
    else if at.Swapping? then
      && tr == Trail(1, at.r, 0, []) && MayClaim(v, cfg, at.r)
      && at.next.holder == cfg.holder && at.next.epoch == at.r.epoch + 1
    else if at.SwappedClock? then
      && tr == Trail(1, at.r, 1, []) && MayClaim(v, cfg, at.r)
      && at.next.holder == cfg.holder && at.next.epoch == at.r.epoch + 1
    else
      && tr == Trail(1, tr.base, 1, if at.SwappedContext? || at.Arming? then [] else [at.t])
      && MayClaim(v, cfg, tr.base) && Succeeds(at.out, tr.base, cfg.holder)
  }

  /** Up to the judgement of the record read. */
  lemma ReadingKeeps(v: Vars, cfg: Config, tr: Trail, s: State, e: Event)
    requires StepInv(v, cfg, tr, s) && Next(s, cfg, e).Some?
    requires s.at.Starting? || s.at.Opening? || s.at.Getting? || s.at.GotContext? || s.at.Quarantining?
    ensures StepInv(v, cfg, Noted(tr, e), Next(s, cfg, e).value)
  {
  }

  lemma JudgingKeeps(v: Vars, cfg: Config, tr: Trail, s: State, e: Event)
    requires StepInv(v, cfg, tr, s) && Next(s, cfg, e).Some? && s.at.GotClock?
    ensures StepInv(v, cfg, Noted(tr, e), Next(s, cfg, e).value)
  {
  }

  /** Up to the CAS. */
  lemma ClaimingKeeps(v: Vars, cfg: Config, tr: Trail, s: State, e: Event)
    requires StepInv(v, cfg, tr, s) && Next(s, cfg, e).Some?
    requires s.at.Naming? || s.at.Before? || s.at.Capturing? || s.at.CapturedContext? || s.at.CapturedClock?
    ensures StepInv(v, cfg, Noted(tr, e), Next(s, cfg, e).value)
  {
  }

  /** From the CAS on. */
  lemma ArmingKeeps(v: Vars, cfg: Config, tr: Trail, s: State, e: Event)
    requires StepInv(v, cfg, tr, s) && Next(s, cfg, e).Some?
    requires s.at.Swapping? || s.at.SwappedClock? || s.at.SwappedContext? || s.at.Arming? || s.at.ArmedContext?
             || s.at.ArmedClock? || s.at.Failing?
    ensures StepInv(v, cfg, Noted(tr, e), Next(s, cfg, e).value)
  {
  }

  lemma NextKeepsInv(v: Vars, cfg: Config, tr: Trail, s: State, e: Event)
    requires StepInv(v, cfg, tr, s) && !s.at.Idle? && Next(s, cfg, e).Some?
    ensures StepInv(v, cfg, Noted(tr, e), Next(s, cfg, e).value)
  {
    if s.at.Starting? || s.at.Opening? || s.at.Getting? || s.at.GotContext? || s.at.Quarantining? {
      ReadingKeeps(v, cfg, tr, s, e);
    } else if s.at.GotClock? {
      JudgingKeeps(v, cfg, tr, s, e);
    } else if s.at.Naming? || s.at.Before? || s.at.Capturing? || s.at.CapturedContext? || s.at.CapturedClock? {
      ClaimingKeeps(v, cfg, tr, s, e);
    } else {
      ArmingKeeps(v, cfg, tr, s, e);
    }
  }

  /** One exchange of a Step that began in `first`, told by the events so far. */
  lemma AdvanceKeeps(first: State, cfg: Config, tr: Trail, s: Option<State>, e: Event)
    requires first.at.Idle? && Advance(s, cfg, e).Some?
    requires if e.Begin? then s == Some(first) && tr == NO_TRAIL else s.Some? ==> StepInv(first.v, cfg, tr, s.value)
    ensures s.Some? && StepInv(first.v, cfg, Noted(tr, e), Advance(s, cfg, e).value)
  {
    if !e.Begin? {
      NextKeepsInv(first.v, cfg, tr, s.value, e);
    }
  }

  /** `b` ends a Step that began at `a`. */
  predicate OneStep(log: seq<Event>, a: nat, b: nat) {
    a < b <= |log| && log[a].Begin? && forall k :: a < k < b ==> !log[k].Begin?
  }

  lemma TrailGrows(log: seq<Event>, a: nat, b: nat)
    requires a < b <= |log|
    ensures TrailOf(log[a..b]) == Noted(TrailOf(log[a..b - 1]), log[b - 1])
  {
    assert log[a..b][..b - 1 - a] == log[a..b - 1] && log[a..b][b - 1 - a] == log[b - 1];
  }

  /** What a Step did is told by its events and where it stands. */
  lemma {:induction false} StepTold(cfg: Config, log: seq<Event>, states: seq<Option<State>>, a: nat, b: nat)
    requires Runs(cfg, log, states) && OneStep(log, a, b)
    requires states[a].Some? && states[a].value.at.Idle? && states[b].Some?
    ensures StepInv(states[a].value.v, cfg, TrailOf(log[a..b]), states[b].value)
    decreases b
  {
    TrailGrows(log, a, b);
    assert states[b] == Advance(states[b - 1], cfg, log[b - 1]);
    if b - 1 > a && states[b - 1].Some? {
      StepTold(cfg, log, states, a, b - 1);
    }
    AdvanceKeeps(states[a].value, cfg, TrailOf(log[a..b - 1]), states[b - 1], log[b - 1]);
  }

  /** The run along a log is determined by it. */
  lemma {:induction false} SameRun(cfg: Config, log: seq<Event>, states: seq<Option<State>>, more: seq<Event>,
                                   states': seq<Option<State>>, k: nat)
    requires Runs(cfg, log, states) && Runs(cfg, more, states') && log <= more && k < |states|
    ensures states[k] == states'[k]
  {
    if k > 0 {
      SameRun(cfg, log, states, more, states', k - 1);
      var e := log[k - 1];
      assert more[k - 1] == e;
    }
  }

  /** The controller's surroundings: every answer is arbitrary, and is written down. `machine` is
      where the record so far leads the machine, `begun` the place of the last `Begin`. */
  class World {
    const cfg: Config
    var log: seq<Event>
    ghost var states: seq<Option<State>>
    ghost var machine: Option<State>
    ghost var begun: nat

    constructor (cfg: Config)
      ensures this.cfg == cfg && log == [] && Replays() && machine == Some(START)
    {
      this.cfg := cfg;
      log, states, machine, begun := [], [Some(START)], Some(START), 0;
    }

    ghost predicate Replays()
      reads this
    {
      Runs(cfg, log, states) && machine == states[|log|] && forall k :: begun < k < |log| ==> !log[k].Begin?
    }

    method Record(e: Event)
      requires Replays()
      modifies this
      ensures Replays()
      ensures log == old(log) + [e] && states == old(states) + [machine]
      ensures machine == Advance(old(machine), cfg, e) && begun == if e.Begin? then |old(log)| else old(begun)
    {
      begun := if e.Begin? then |log| else begun;
      log := log + [e];
      machine := Advance(machine, cfg, e);
      states := states + [machine];
    }

    method Now() returns (n: u64)
      requires Replays()
      modifies this
      ensures Replays() && begun == old(begun)
      ensures log == old(log) + [Clock(n)] && machine == Advance(old(machine), cfg, Clock(n))
    {
      n := *;
      Record(Clock(n));
    }

    method Deny() returns (ok: bool)
      requires Replays()
      modifies this
      ensures Replays() && begun == old(begun)
      ensures log == old(log) + [DenyAsked(ok)] && machine == Advance(old(machine), cfg, DenyAsked(ok))
    {
      ok := *;
      Record(DenyAsked(ok));
    }

    method Get() returns (reply: Reply)
      requires Replays()
      modifies this
      ensures Replays() && begun == old(begun)
      ensures log == old(log) + [Got(reply)] && machine == Advance(old(machine), cfg, Got(reply))
    {
      reply := *;
      Record(Got(reply));
    }

    method Live() returns (live: bool)
      requires Replays()
      modifies this
      ensures Replays() && begun == old(begun)
      ensures log == old(log) + [Context(live)] && machine == Advance(old(machine), cfg, Context(live))
    {
      live := *;
      Record(Context(live));
    }

    method NewNonce() returns (nonce: Option<string>)
      requires Replays()
      modifies this
      ensures Replays() && begun == old(begun)
      ensures log == old(log) + [Nonce(nonce)] && machine == Advance(old(machine), cfg, Nonce(nonce))
    {
      nonce := *;
      Record(Nonce(nonce));
    }

    method Capture() returns (ticket: Option<Window>)
      requires Replays()
      modifies this
      ensures Replays() && begun == old(begun)
      ensures log == old(log) + [CaptureAsked(ticket)] && machine == Advance(old(machine), cfg, CaptureAsked(ticket))
    {
      ticket := *;
      Record(CaptureAsked(ticket));
    }

    method CAS(from: Record, to: Record) returns (reply: Reply)
      requires Replays()
      modifies this
      ensures Replays() && begun == old(begun)
      ensures log == old(log) + [Swapped(from, to, reply)]
              && machine == Advance(old(machine), cfg, Swapped(from, to, reply))
    {
      reply := *;
      Record(Swapped(from, to, reply));
    }

    method Arm(ticket: Window) returns (ok: bool)
      requires Replays()
      modifies this
      ensures Replays() && begun == old(begun)
      ensures log == old(log) + [ArmAsked(ticket, ok)] && machine == Advance(old(machine), cfg, ArmAsked(ticket, ok))
    {
      ok := *;
      Record(ArmAsked(ticket, ok));
    }
  }

  /** The controller in its own form: fields updated step by step, every failure denying. */
  class Controller {
    const cfg: Config
    var last: u64
    var since: u64
    var pinned: string
    var stableRV: string
    var own: Record
    var observed: Record
    var ack: bool
    var started: bool
    var terminal: bool

    constructor (cfg: Config)
      requires Accepted(cfg)
      ensures this.cfg == cfg && View() == NEW
    {
      this.cfg := cfg;
      last, since, pinned, stableRV, own, observed := 0, 0, "", "", NO_RECORD, NO_RECORD;
      ack, started, terminal := false, false, false;
    }

    ghost function View(): Vars
      reads this
    {
      Vars(last, since, pinned, stableRV, own, observed, ack, started, terminal)
    }

    /** The world's record is a run of the machine that stands at these fields and this phase. */
    ghost predicate Follows(w: World, at: Phase)
      reads this, w
    {
      w.cfg == cfg && w.Replays() && w.machine == Some(State(View(), at))
    }

    /** The controller's own record is the direct successor of `base`. */
    ghost predicate Holds(base: Record)
      reads this
    {
      && own.uid == base.uid && own.rv != base.rv && own.epoch == base.epoch + 1 && own.holder == cfg.holder
      && ack && stableRV == ""
    }

    method Now(w: World) returns (n: u64, ok: bool)
      requires w.Replays()
      modifies this`last, w
      ensures w.Replays() && w.begun == old(w.begun)
      ensures w.log == old(w.log) + [Clock(n)] && w.machine == Advance(old(w.machine), w.cfg, Clock(n))
      ensures ok == Tick(old(View()), n)
      ensures last == if ok then n else old(last)
    {
      n := w.Now();
      ok := n != 0 && last <= n;
      if ok {
        last := n;
      }
    }

    method Fail(w: World, terminal: bool) returns (r: Outcome)
      requires w.cfg == cfg && w.Replays() && w.machine == Some(FailAs(View(), terminal))
      modifies this, w
      ensures r == Failure
      ensures old(w.log) <= w.log && w.begun == old(w.begun)
      ensures Follows(w, Idle(Failure))
    {
      ack, stableRV, since := false, "", 0;
      this.terminal := this.terminal || terminal;
      var ok := w.Deny();
      if !ok {
        this.terminal := true;
      }
      r := Failure;
    }

    /** The exchanges it makes are one Step of the machine, which ends where the fields end: at most one
        GET, one CAS and one ARM. An acknowledged grant replaced the revision read, which was the
        controller's own last write or one whose quarantine an earlier Step had begun. */
    method Step(w: World) returns (r: Outcome)
      requires exists last :: Follows(w, Idle(last))
      modifies this, w
      ensures old(w.log) + [Begin] <= w.log && OneStep(w.log, |old(w.log)|, |w.log|)
      ensures StepDone(old(View()), cfg, TrailOf(w.log[|old(w.log)|..]), State(View(), Idle(r)))
      ensures Follows(w, Idle(r))
    {
      r := Proceed(w);
      ghost var a, b := |old(w.log)|, |w.log|;
      SameRun(cfg, old(w.log), old(w.states), w.log, w.states, a);
      StepTold(cfg, w.log, w.states, a, b);
      assert w.log[a..] == w.log[a..b];
    }

    /** The Step up to its GET, which the first one precedes by a DENY. */
    method Proceed(w: World) returns (r: Outcome)
      requires exists last :: Follows(w, Idle(last))
      modifies this, w
      ensures old(w.log) + [Begin] <= w.log && w.begun == |old(w.log)|
      ensures Follows(w, Idle(r))
    {
      w.Record(Begin);
      if terminal {
        return Failure;
      }
      if !started {
        started := true;
        var ok := w.Deny();
        if !ok {
          terminal := true;
          return Failure;
        }
      }
      ghost var base;
      r, base := Observe(w);
    }

    /** The GET, between two clock readings. */
    method Observe(w: World) returns (r: Outcome, ghost base: Record)
      requires Follows(w, Opening)
      modifies this, w
      ensures old(w.log) <= w.log && w.begun == old(w.begun)
      ensures r.Acknowledged? ==> Holds(base) && (Renews(old(View()), cfg, base) || old(stableRV) == base.rv != "")
      ensures Follows(w, Idle(r))
    {
      base := NO_RECORD;
      var n, ok := Now(w);
      if !ok {
        r := Fail(w, true);
        return;
      }
      var reply := w.Get();
      if !reply.Ok? {
        r := Fail(w, reply.Gone?);
        return;
      }
      base := reply.record;
      r := Receive(w, reply.record);
    }

    /** The context and the clock after the GET. */
    method Receive(w: World, rec: Record) returns (r: Outcome)
      requires Follows(w, GotContext(rec))
      modifies this, w
      ensures old(w.log) <= w.log && w.begun == old(w.begun)
      ensures r.Acknowledged? ==> Holds(rec) && (Renews(old(View()), cfg, rec) || old(stableRV) == rec.rv != "")
      ensures Follows(w, Idle(r))
    {
      var live := w.Live();
      if !live {
        r := Fail(w, false);
        return;
      }
      var n, ok := Now(w);
      if !ok {
        r := Fail(w, true);
        return;
      }
      r := Decide(w, rec, n);
    }

    /** The part of `Step` after the GET: identity checks. */
    method Decide(w: World, rec: Record, n: u64) returns (r: Outcome)
      requires w.cfg == cfg && w.Replays() && last == n && w.machine == Some(Judge(View(), cfg, rec, n))
      modifies this, w
      ensures old(w.log) <= w.log && w.begun == old(w.begun)
      ensures r.Acknowledged? ==> Holds(rec) && (Renews(old(View()), cfg, rec) || old(stableRV) == rec.rv != "")
      ensures Follows(w, Idle(r))
    {
      if !Valid(rec) {
        r := Fail(w, false);
        return;
      }
      if pinned == "" {
        pinned := rec.uid;
      }
      if rec.uid != pinned {
        r := Fail(w, true);
        return;
      }
      if Inconsistent(observed, rec) {
        r := Fail(w, false);
        return;
      }
      observed := rec;
      r := Quarantine(w, rec, n);
    }

    /** Renewal of the controller's own last write, or the wait of a full window plus margin. */
    method Quarantine(w: World, rec: Record, n: u64) returns (r: Outcome)
      requires w.cfg == cfg && w.Replays() && last == n && Valid(rec) && w.machine == Some(Wait(View(), cfg, rec, n))
      modifies this, w
      ensures old(w.log) <= w.log && w.begun == old(w.begun)
      ensures r.Acknowledged? ==> Holds(rec) && (Renews(old(View()), cfg, rec) || old(stableRV) == rec.rv != "")
      ensures Follows(w, Idle(r))
    {
      var renew := && ack && rec.uid == own.uid && rec.rv == own.rv && rec.holder == cfg.holder
                   && rec.nonce == own.nonce && rec.epoch == own.epoch;
      if !renew {
        ack := false;
        if stableRV != rec.rv {
          stableRV := rec.rv;
          since := n;
          var denied := w.Deny();
          if !denied {
            terminal := true;
            return Failure;
          }
          return Quiet;
        }
        if n - since < HORIZON + cfg.margin {
          return Quiet;
        }
      }
      if rec.epoch == U64_MAX {
        r := Fail(w, false);
        return;
      }
      r := Prepare(w, rec);
    }

    /** A fresh nonce, and the clock reading before the ticket. */
    method Prepare(w: World, rec: Record) returns (r: Outcome)
      requires Follows(w, Naming(rec))
      modifies this, w
      ensures old(w.log) <= w.log && w.begun == old(w.begun)
      ensures r.Acknowledged? && rec.epoch < U64_MAX ==> Holds(rec)
      ensures Follows(w, Idle(r))
    {
      var nonce := w.NewNonce();
      if nonce.None? || nonce.value == rec.nonce {
        r := Fail(w, false);
        return;
      }
      var before, ok := Now(w);
      if !ok {
        r := Fail(w, true);
        return;
      }
      r := Ticket(w, rec, nonce.value, before);
    }

    /** CAPTURE between two clock readings, and the checks on the ticket. */
    method Ticket(w: World, rec: Record, nonce: string, before: u64) returns (r: Outcome)
      requires Follows(w, Capturing(rec, nonce, before))
      modifies this, w
      ensures old(w.log) <= w.log && w.begun == old(w.begun)
      ensures r.Acknowledged? && rec.epoch < U64_MAX ==> Holds(rec)
      ensures Follows(w, Idle(r))
    {
      var t := w.Capture();
      if t.None? {
        r := Fail(w, true);
        return;
      }
      var live := w.Live();
      if !live {
        r := Fail(w, true);
        return;
      }
      var after, ok := Now(w);
      if !ok || !GoodTicket(t.value, before, after) {
        r := Fail(w, true);
        return;
      }
      r := Swap(w, rec, nonce, t.value);
    }

    /** The CAS of the proposed successor over the record read. */
    method Swap(w: World, rec: Record, nonce: string, t: Window) returns (r: Outcome)
      requires Follows(w, Swapping(rec, Proposal(rec, cfg, nonce), t))
      modifies this, w
      ensures old(w.log) <= w.log && w.begun == old(w.begun)
      ensures r.Acknowledged? && rec.epoch < U64_MAX ==> Holds(rec)
      ensures Follows(w, Idle(r))
    {
      var next := rec.(holder := cfg.holder, nonce := nonce, epoch := (rec.epoch + 1) % (U64_MAX + 1));
      var reply := w.CAS(rec, next);
      if !reply.Ok? {
        r := Fail(w, reply.Gone?);
        return;
      }
      r := Confirm(w, rec, next, t, reply.record);
    }

    /** The clock, the verification and the context after an acknowledged CAS. */
    method Confirm(w: World, rec: Record, next: Record, t: Window, out: Record) returns (r: Outcome)
      requires Follows(w, SwappedClock(rec, next, t, out))
      modifies this, w
      ensures old(w.log) <= w.log && w.begun == old(w.begun)
      ensures r.Acknowledged? ==> Confirms(own, rec, next) && own == out && r.ticket == t && ack && stableRV == ""
      ensures Follows(w, Idle(r))
    {
      var n, ok := Now(w);
      if !ok {
        r := Fail(w, true);
        return;
      }
      if !Confirms(out, rec, next) || t.deadline <= n {
        r := Fail(w, false);
        return;
      }
      var live := w.Live();
      if !live {
        r := Fail(w, false);
        return;
      }
      r := Grant(w, t, out);
    }

    /** ARM of the ticket captured before the acknowledged write. */
    method Grant(w: World, t: Window, out: Record) returns (r: Outcome)
      requires Follows(w, Arming(t, out))
      modifies this, w
      ensures old(w.log) <= w.log && w.begun == old(w.begun)
      ensures r.Acknowledged? ==> r.ticket == t && own == out && ack && stableRV == ""
      ensures Follows(w, Idle(r))
    {
      var armed := w.Arm(t);
      if !armed {
        r := Fail(w, true);
        return;
      }
      r := Settle(w, t, out);
    }

    /** The context and the clock after the ARM. */
    method Settle(w: World, t: Window, out: Record) returns (r: Outcome)
      requires Follows(w, ArmedContext(t, out))
      modifies this, w
      ensures old(w.log) <= w.log && w.begun == old(w.begun)
      ensures r.Acknowledged? ==> r.ticket == t && own == out && ack && stableRV == ""
      ensures Follows(w, Idle(r))
    {
      var live := w.Live();
      if !live {
        r := Fail(w, true);
        return;
      }
      var n, ok := Now(w);
      if !ok {
        r := Fail(w, true);
        return;
      }
      if t.deadline <= n {
        r := Fail(w, false);
        return;
      }
      own, ack, stableRV, since := out, true, "", 0;
      r := Acknowledged(t);
    }
  }
}
