/** Exactly when a Step acquires or renews, waits, or fails, and which failures are terminal, told by
    the answers it got (`controller.go`). */
module StepExact {
  import opened Common
  import opened Fence
  import opened Controller

  /** What a Step has been answered so far: clock readings, record, nonce, ticket and written record. */
  datatype Answers = Answers(
    n1: u64, r: Record, n2: u64, nonce: string, n3: u64, t: Window, n4: u64, out: Record, n5: u64)

  const NOTHING: Answers := Answers(0, NO_RECORD, 0, "", 0, NO_TICKET, 0, NO_RECORD, 0)

  /** The number of answers a Step needs to grant. */
  const ALL: nat := 15

  predicate Hex(s: string) {
    |s| == 64 && forall i :: 0 <= i < 64 ==> s[i] in "0123456789abcdef"
  }

  predicate RecordOk(r: Record) {
    && r.protocol == "nexora-kernel-ticket-v1" && 1 <= |r.uid| <= 256 && 1 <= |r.rv| <= 256
    && (r.holder != "" ==> Hex(r.holder)) && Hex(r.nonce)
  }

  /** `r` is the record of the controller's last acknowledged write. */
  predicate Mine(v: Vars, cfg: Config, r: Record) {
    && v.ack && r.uid == v.own.uid && r.rv == v.own.rv && r.nonce == v.own.nonce && r.epoch == v.own.epoch
    && r.holder == cfg.holder
  }

  /** Its revision has been watched for five seconds and the margin. */
  predicate Watched(v: Vars, cfg: Config, r: Record, n: u64) {
    v.stableRV == r.rv && n >= v.since + 5_000_000_000 + cfg.margin
  }

  predicate SameLease(v: Vars, r: Record) {
    v.pinned == "" || v.pinned == r.uid
  }

  /** The record under a resourceVersion seen before is the one seen then. */
  predicate Consistent(v: Vars, r: Record) {
    v.observed.uid == r.uid && v.observed.rv == r.rv ==>
      v.observed.holder == r.holder && v.observed.nonce == r.nonce && v.observed.epoch == r.epoch
  }

  /** The record to be written. */
  function ToWrite(cfg: Config, x: Answers): Record
    requires x.r.epoch < U64_MAX
  {
    Record(x.r.uid, x.r.rv, cfg.holder, x.nonce, x.r.protocol, x.r.epoch + 1)
  }

  predicate Late(v: Vars, x: Answers, k: nat, n: u64) {
    n != 0 && n >= if k == 0 then v.last else if k == 3 then x.n1 else if k == 5 then x.n2
                   else if k == 8 then x.n3 else if k == 10 then x.n4 else x.n5
  }

  /** The answer number `k`, after the answers `x`, is one to go on with. */
  predicate Good(v: Vars, cfg: Config, x: Answers, k: nat, e: Event) {
    if k == 0 || k == 5 then e.Clock? && Late(v, x, k, e.n)
    else if k == 1 then e.Got? && e.reply.Ok?
    else if k in {2, 7, 11, 13} then e == Context(true)
    else if k == 3 then
      && e.Clock? && Late(v, x, k, e.n) && RecordOk(x.r) && SameLease(v, x.r) && Consistent(v, x.r)
      && (Mine(v, cfg, x.r) || Watched(v, cfg, x.r, e.n)) && x.r.epoch < 0xFFFF_FFFF_FFFF_FFFF
    else if k == 4 then e.Nonce? && e.nonce.Some? && e.nonce.value != x.r.nonce
    else if k == 6 then e.CaptureAsked? && e.capture.Some?
    else if k == 8 then
      && e.Clock? && Late(v, x, k, e.n) && x.t.captured > 0 && x.n3 <= x.t.captured <= e.n < x.t.deadline
      && x.t.deadline - x.t.captured <= 5_000_000_000
    else if k == 9 then
      x.r.epoch < U64_MAX && e.Swapped? && e.from == x.r && e.to == ToWrite(cfg, x) && e.reply.Ok?
    else if k == 10 then
      && e.Clock? && Late(v, x, k, e.n) && e.n < x.t.deadline
      && RecordOk(x.out) && x.out.uid == x.r.uid && x.out.rv != x.r.rv && x.out.holder == cfg.holder
      && x.out.nonce == x.nonce && x.out.epoch == x.r.epoch + 1
    else if k == 12 then e == ArmAsked(x.t, true)
    else k == 14 && e.Clock? && Late(v, x, k, e.n) && e.n < x.t.deadline
  }

  /** The answers with one more. */
  function With(x: Answers, k: nat, e: Event): Answers {
    if k == 0 && e.Clock? then x.(n1 := e.n)
    else if k == 1 && e.Got? && e.reply.Ok? then x.(r := e.reply.record)
    else if k == 3 && e.Clock? then x.(n2 := e.n)
    else if k == 4 && e.Nonce? && e.nonce.Some? then x.(nonce := e.nonce.value)
    else if k == 5 && e.Clock? then x.(n3 := e.n)
    else if k == 6 && e.CaptureAsked? && e.capture.Some? then x.(t := e.capture.value)
    else if k == 8 && e.Clock? then x.(n4 := e.n)
    else if k == 9 && e.Swapped? && e.reply.Ok? then x.(out := e.reply.record)
    else if k == 10 && e.Clock? then x.(n5 := e.n)
    else x
  }

  function Heard(es: seq<Event>, k: nat): Answers
    requires k <= |es|
  {
    if k == 0 then NOTHING else With(Heard(es, k - 1), k - 1, es[k - 1])
  }

  /** The first `k` answers were all good. */
  predicate GoodUpTo(v: Vars, cfg: Config, es: seq<Event>, k: nat)
    requires k <= |es|
  {
    k == 0 || (GoodUpTo(v, cfg, es, k - 1) && Good(v, cfg, Heard(es, k - 1), k - 1, es[k - 1]))
  }

  /** Failures after which enforcement is uncertain or the Lease is gone: the controller never steps again. */
  predicate Fatal(v: Vars, x: Answers, k: nat, e: Event) {
    if k in {0, 3, 5, 8, 10, 14} && e.Clock? && !Late(v, x, k, e.n) then true
    else if k == 1 || k == 9 then (e.Got? && e.reply.Gone?) || (e.Swapped? && e.reply.Gone?)
    else if k == 3 then RecordOk(x.r) && !SameLease(v, x.r)
    else k in {6, 7, 8, 12, 13}
  }

  /** A record of this Lease that may not be replaced yet. */
  predicate Waits(v: Vars, cfg: Config, x: Answers, e: Event) {
    && e.Clock? && Late(v, x, 3, e.n) && RecordOk(x.r) && SameLease(v, x.r) && Consistent(v, x.r)
    && !Mine(v, cfg, x.r) && !Watched(v, cfg, x.r, e.n)
  }

  // ----- the machine along good answers

  function Newest(v: Vars, x: Answers, k: nat): u64 {
    if k == 0 then v.last else if k <= 3 then x.n1 else if k <= 5 then x.n2 else if k <= 8 then x.n3
    else if k <= 10 then x.n4 else x.n5
  }

  function PhaseAt(cfg: Config, x: Answers, k: nat): Phase
    requires k < ALL && (k == 9 || k == 10 ==> x.r.epoch < U64_MAX)
  {
    if k == 0 then Opening else if k == 1 then Getting else if k == 2 then GotContext(x.r)
    else if k == 3 then GotClock(x.r) else if k == 4 then Naming(x.r) else if k == 5 then Before(x.r, x.nonce)
    else if k == 6 then Capturing(x.r, x.nonce, x.n3)
    else if k == 7 then CapturedContext(x.r, x.nonce, x.n3, x.t)
    else if k == 8 then CapturedClock(x.r, x.nonce, x.n3, x.t)
    else if k == 9 then Swapping(x.r, ToWrite(cfg, x), x.t)
    else if k == 10 then SwappedClock(x.r, ToWrite(cfg, x), x.t, x.out)
    else if k == 11 then SwappedContext(x.t, x.out) else if k == 12 then Arming(x.t, x.out)
    else if k == 13 then ArmedContext(x.t, x.out) else ArmedClock(x.t, x.out)
  }

  function VarsAt(v: Vars, cfg: Config, x: Answers, k: nat): Vars {
    var u := v.(last := Newest(v, x, k), started := true);
    if k <= 3 then u else u.(pinned := x.r.uid, observed := x.r, ack := Mine(v, cfg, x.r))
  }

  function StateAt(v: Vars, cfg: Config, x: Answers, k: nat): State
    requires k < ALL && (k == 9 || k == 10 ==> x.r.epoch < U64_MAX)
  {
    State(VarsAt(v, cfg, x, k), PhaseAt(cfg, x, k))
  }

  lemma HexDigit(c: char)
    ensures c in "0123456789abcdef" <==> '0' <= c <= '9' || 'a' <= c <= 'f'
  {
    var all := "0123456789abcdef";
    assert all[0] == '0' && all[1] == '1' && all[2] == '2' && all[3] == '3' && all[4] == '4' && all[5] == '5';
    assert all[6] == '6' && all[7] == '7' && all[8] == '8' && all[9] == '9' && all[10] == 'a' && all[11] == 'b';
    assert all[12] == 'c' && all[13] == 'd' && all[14] == 'e' && all[15] == 'f';
  }

  lemma HexIsStrong(s: string)
    ensures Hex(s) <==> Strong(s)
  {
    forall i | 0 <= i < |s|
      ensures s[i] in "0123456789abcdef" <==> '0' <= s[i] <= '9' || 'a' <= s[i] <= 'f'
    {
      HexDigit(s[i]);
    }
  }

  lemma RecordOkIsValid(r: Record)
    ensures RecordOk(r) <==> Valid(r)
  {
    HexIsStrong(r.holder);
    HexIsStrong(r.nonce);
  }

  /** What holds of the record once it was judged. */
  predicate Judged(v: Vars, x: Answers, k: nat) {
    k > 3 ==> x.r.epoch < U64_MAX && SameLease(v, x.r)
  }

  lemma GoodReading(v: Vars, cfg: Config, x: Answers, k: nat, e: Event)
    requires k <= 2 && Good(v, cfg, x, k, e) && !v.terminal
    ensures Next(StateAt(v, cfg, x, k), cfg, e) == Some(StateAt(v, cfg, With(x, k, e), k + 1))
  {
  }

  lemma GoodJudgement(v: Vars, cfg: Config, x: Answers, e: Event)
    requires Good(v, cfg, x, 3, e) && !v.terminal
    ensures Next(StateAt(v, cfg, x, 3), cfg, e) == Some(StateAt(v, cfg, With(x, 3, e), 4))
  {
    RecordOkIsValid(x.r);
  }

  lemma GoodTicketed(v: Vars, cfg: Config, x: Answers, k: nat, e: Event)
    requires 4 <= k <= 8 && Judged(v, x, k) && Good(v, cfg, x, k, e) && !v.terminal
    ensures Next(StateAt(v, cfg, x, k), cfg, e) == Some(StateAt(v, cfg, With(x, k, e), k + 1))
  {
  }

  lemma GoodWritten(v: Vars, cfg: Config, x: Answers, k: nat, e: Event)
    requires 9 <= k <= 13 && Judged(v, x, k) && Good(v, cfg, x, k, e) && !v.terminal
    ensures Next(StateAt(v, cfg, x, k), cfg, e) == Some(StateAt(v, cfg, With(x, k, e), k + 1))
  {
    RecordOkIsValid(x.out);
  }

  /** A good answer leads on. */
  lemma GoodLeadsOn(v: Vars, cfg: Config, x: Answers, k: nat, e: Event)
    requires k < 14 && Judged(v, x, k) && Good(v, cfg, x, k, e) && !v.terminal
    ensures Judged(v, With(x, k, e), k + 1)
    ensures Next(StateAt(v, cfg, x, k), cfg, e) == Some(StateAt(v, cfg, With(x, k, e), k + 1))
  {
    if k <= 2 {
      GoodReading(v, cfg, x, k, e);
    } else if k == 3 {
      GoodJudgement(v, cfg, x, e);
    } else if k <= 8 {
      GoodTicketed(v, cfg, x, k, e);
    } else {
      GoodWritten(v, cfg, x, k, e);
    }
  }

  /** The grant: the written record is the controller's own, nothing is watched any more. */
  function Granted(v: Vars, x: Answers, n: u64): Vars {
    Vars(n, 0, x.r.uid, "", x.out, x.r, true, true, false)
  }

  lemma GoodGrants(v: Vars, cfg: Config, x: Answers, e: Event)
    requires Judged(v, x, 14) && Good(v, cfg, x, 14, e) && !v.terminal
    ensures Next(StateAt(v, cfg, x, 14), cfg, e) == Some(State(Granted(v, x, e.n), Idle(Acknowledged(x.t))))
  {
  }

  /** Nothing is held or watched any more. */
  predicate Dropped(u: Vars) {
    !u.ack && u.stableRV == "" && u.since == 0
  }

  lemma BadReading(v: Vars, cfg: Config, x: Answers, k: nat, e: Event)
    requires k <= 2 && !Good(v, cfg, x, k, e) && !v.terminal && Next(StateAt(v, cfg, x, k), cfg, e).Some?
    ensures var s := Next(StateAt(v, cfg, x, k), cfg, e).value;
            s.at == Failing && Dropped(s.v) && s.v.terminal == Fatal(v, x, k, e)
  {
  }

  lemma BadJudgement(v: Vars, cfg: Config, x: Answers, e: Event)
    requires !Good(v, cfg, x, 3, e) && !Waits(v, cfg, x, e) && !v.terminal
    requires Next(StateAt(v, cfg, x, 3), cfg, e).Some?
    ensures var s := Next(StateAt(v, cfg, x, 3), cfg, e).value;
            s.at == Failing && Dropped(s.v) && s.v.terminal == Fatal(v, x, 3, e)
  {
    RecordOkIsValid(x.r);
  }

  /** A record that may not be replaced yet is watched from now on, or watched on. */
  function Watching(v: Vars, x: Answers, n: u64): Vars {
    v.(last := n, started := true, pinned := x.r.uid, observed := x.r, ack := false, stableRV := x.r.rv,
       since := if v.stableRV == x.r.rv then v.since else n)
  }

  lemma Waiting(v: Vars, cfg: Config, x: Answers, e: Event)
    requires Waits(v, cfg, x, e) && !v.terminal
    ensures Next(StateAt(v, cfg, x, 3), cfg, e)
            == Some(State(Watching(v, x, e.n), if v.stableRV == x.r.rv then Idle(Quiet) else Quarantining))
  {
    RecordOkIsValid(x.r);
  }

  lemma BadTicketed(v: Vars, cfg: Config, x: Answers, k: nat, e: Event)
    requires 4 <= k <= 8 && !Good(v, cfg, x, k, e) && !v.terminal && Next(StateAt(v, cfg, x, k), cfg, e).Some?
    ensures var s := Next(StateAt(v, cfg, x, k), cfg, e).value;
            s.at == Failing && Dropped(s.v) && s.v.terminal == Fatal(v, x, k, e)
  {
  }

  lemma BadWritten(v: Vars, cfg: Config, x: Answers, k: nat, e: Event)
    requires 9 <= k <= 14 && Judged(v, x, k) && !Good(v, cfg, x, k, e) && !v.terminal
    requires Next(StateAt(v, cfg, x, k), cfg, e).Some?
    ensures var s := Next(StateAt(v, cfg, x, k), cfg, e).value;
            s.at == Failing && Dropped(s.v) && s.v.terminal == Fatal(v, x, k, e)
  {
    RecordOkIsValid(x.out);
  }

  /** Any other answer that the machine takes fails the Step. */
  lemma BadFails(v: Vars, cfg: Config, x: Answers, k: nat, e: Event)
    requires k < ALL && Judged(v, x, k) && !Good(v, cfg, x, k, e) && !(k == 3 && Waits(v, cfg, x, e)) && !v.terminal
    requires Next(StateAt(v, cfg, x, k), cfg, e).Some?
    ensures var s := Next(StateAt(v, cfg, x, k), cfg, e).value;
            s.at == Failing && Dropped(s.v) && s.v.terminal == Fatal(v, x, k, e)
  {
    if k <= 2 {
      BadReading(v, cfg, x, k, e);
    } else if k == 3 {
      BadJudgement(v, cfg, x, e);
    } else if k <= 8 {
      BadTicketed(v, cfg, x, k, e);
    } else {
      BadWritten(v, cfg, x, k, e);
    }
  }

  // ----- whole Steps

  /** How many events precede the answers: the first Step of all denies first. */
  function Lead(v: Vars): nat { if v.started then 1 else 2 }

  predicate Link(cfg: Config, log: seq<Event>, states: seq<Option<State>>, i: nat)
    requires i < |log| && |states| == |log| + 1
  {
    states[i + 1] == Advance(states[i], cfg, log[i])
  }

  /** `states` follow one another along `log`. */
  predicate Linked(cfg: Config, log: seq<Event>, states: seq<Option<State>>) {
    |states| == |log| + 1 && forall i :: 0 <= i < |log| ==> Link(cfg, log, states, i)
  }

  lemma RunsLinked(cfg: Config, log: seq<Event>, states: seq<Option<State>>)
    requires Runs(cfg, log, states)
    ensures Linked(cfg, log, states)
  {
    forall i | 0 <= i < |log|
      ensures Link(cfg, log, states, i)
    {
      var e := log[i];
    }
  }

  /** A Step begins at `a`, of a controller between Steps that is not terminal, and gets past its first DENY. */
  predicate Starts(cfg: Config, log: seq<Event>, states: seq<Option<State>>, a: nat) {
    && Linked(cfg, log, states) && a < |log| && log[a].Begin?
    && states[a].Some? && states[a].value.at.Idle? && !states[a].value.v.terminal
    && a + Lead(states[a].value.v) <= |log|
    && (!states[a].value.v.started ==> log[a + 1] == DenyAsked(true))
  }

  lemma Opened(cfg: Config, log: seq<Event>, states: seq<Option<State>>, a: nat)
    requires Starts(cfg, log, states, a)
    ensures var v := states[a].value.v; states[a + Lead(v)] == Some(State(v.(started := true), Opening))
  {
    assert Link(cfg, log, states, a);
    if !states[a].value.v.started {
      assert Link(cfg, log, states, a + 1);
    }
  }

  /** `es` are answers of the Step that begins at `a` in `v`. */
  predicate Answered(cfg: Config, log: seq<Event>, states: seq<Option<State>>, a: nat, v: Vars, es: seq<Event>) {
    && Starts(cfg, log, states, a) && v == states[a].value.v
    && a + Lead(v) + |es| <= |log| && es == log[a + Lead(v)..a + Lead(v) + |es|]
  }

  /** After `k` good answers the machine stands where they put it. */
  lemma {:induction false} Along(cfg: Config, log: seq<Event>, states: seq<Option<State>>, a: nat, v: Vars,
                                 es: seq<Event>, k: nat)
    requires Answered(cfg, log, states, a, v, es) && k < ALL && k <= |es| && GoodUpTo(v, cfg, es, k)
    ensures Judged(v, Heard(es, k), k) && states[a + Lead(v) + k] == Some(StateAt(v, cfg, Heard(es, k), k))
    decreases k
  {
    if k == 0 {
      Opened(cfg, log, states, a);
    } else {
      Along(cfg, log, states, a, v, es, k - 1);
      LinkOn(v, cfg, es, k - 1, log, states, a + Lead(v) + k - 1);
    }
  }

  lemma LinkOn(v: Vars, cfg: Config, es: seq<Event>, k: nat, log: seq<Event>, states: seq<Option<State>>, i: nat)
    requires k < 14 && k < |es| && !v.terminal && Good(v, cfg, Heard(es, k), k, es[k]) && Judged(v, Heard(es, k), k)
    requires Linked(cfg, log, states) && i < |log| && log[i] == es[k]
    requires states[i] == Some(StateAt(v, cfg, Heard(es, k), k))
    ensures Judged(v, Heard(es, k + 1), k + 1)
    ensures states[i + 1] == Some(StateAt(v, cfg, Heard(es, k + 1), k + 1))
  {
    assert Link(cfg, log, states, i);
    GoodLeadsOn(v, cfg, Heard(es, k), k, es[k]);
  }

  /** With all answers good the Step grants: the ticket armed, the written record its own. */
  lemma Grants(cfg: Config, log: seq<Event>, states: seq<Option<State>>, a: nat, v: Vars, es: seq<Event>)
    requires Answered(cfg, log, states, a, v, es) && ALL <= |es| && GoodUpTo(v, cfg, es, ALL)
    ensures es[14].Clock?
    ensures states[a + Lead(v) + ALL]
            == Some(State(Granted(v, Heard(es, 14), es[14].n), Idle(Acknowledged(Heard(es, 14).t))))
  {
    Along(cfg, log, states, a, v, es, 14);
    assert Link(cfg, log, states, a + Lead(v) + 14);
    GoodGrants(v, cfg, Heard(es, 14), es[14]);
  }

  /** How a Step with answers `es`, the first `k` of them good and no more, leaves the controller. */
  predicate Ends(v: Vars, cfg: Config, es: seq<Event>, k: nat, u: Vars, r: Outcome) {
    && k <= |es| && GoodUpTo(v, cfg, es, k)
    && if k >= ALL then
         && k == ALL == |es| && es[14].Clock?
         && r == Acknowledged(Heard(es, 14).t) && u == Granted(v, Heard(es, 14), es[14].n)
       else
         && k < |es| && !Good(v, cfg, Heard(es, k), k, es[k])
         && if k == 3 && Waits(v, cfg, Heard(es, 3), es[3]) then
              if v.stableRV == Heard(es, 3).r.rv then |es| == 4 && r == Quiet && u == Watching(v, Heard(es, 3), es[3].n)
              else
                && |es| == 5 && es[4].DenyAsked? && r == (if es[4].ok then Quiet else Failure)
                && u == Watching(v, Heard(es, 3), es[3].n).(terminal := !es[4].ok)
            else
              && |es| == k + 2 && es[k + 1].DenyAsked? && r == Failure && Dropped(u)
              && u.terminal == (Fatal(v, Heard(es, k), k, es[k]) || !es[k + 1].ok)
  }

  /** How many answers were good. */
  function Goods(v: Vars, cfg: Config, es: seq<Event>, k: nat): (n: nat)
    requires k <= |es| && k <= ALL && GoodUpTo(v, cfg, es, k)
    ensures n <= |es| && n <= ALL && GoodUpTo(v, cfg, es, n)
    ensures n < ALL && n < |es| ==> !Good(v, cfg, Heard(es, n), n, es[n])
    decreases |es| - k
  {
    if k < ALL && k < |es| && Good(v, cfg, Heard(es, k), k, es[k]) then Goods(v, cfg, es, k + 1) else k
  }

  /** Where the machine stands after a Step's last event tells that it was the last. */
  predicate StepIs(cfg: Config, log: seq<Event>, states: seq<Option<State>>, a: nat, b: nat) {
    && Starts(cfg, log, states, a) && a + Lead(states[a].value.v) <= b && OneStep(log, a, b)
    && states[b].Some? && states[b].value.at.Idle?
  }

  lemma IdleIsLast(cfg: Config, log: seq<Event>, states: seq<Option<State>>, a: nat, b: nat, j: nat)
    requires StepIs(cfg, log, states, a, b) && a < j <= b && states[j].Some? && states[j].value.at.Idle?
    ensures j == b
  {
    if j < b {
      assert Link(cfg, log, states, j);
      NoneStays(cfg, log, states, j + 1, b);
    }
  }

  lemma {:induction false} NoneStays(cfg: Config, log: seq<Event>, states: seq<Option<State>>, j: nat, b: nat)
    requires Linked(cfg, log, states) && j <= b <= |log| && states[j].None?
    ensures states[b].None?
  {
    if j < b {
      NoneStays(cfg, log, states, j, b - 1);
      assert Link(cfg, log, states, b - 1);
    }
  }

  lemma OnlyLater(cfg: Config, log: seq<Event>, states: seq<Option<State>>, a: nat, b: nat, j: nat)
    requires StepIs(cfg, log, states, a, b) && a < j <= b
    ensures states[j].Some? && (if states[j].value.at.Idle? then j == b else j < b)
  {
    if states[j].None? {
      NoneStays(cfg, log, states, j, b);
    } else if states[j].value.at.Idle? {
      IdleIsLast(cfg, log, states, a, b, j);
    }
  }

  /** What the machine does with a first bad answer. */
  predicate TurnsBad(v: Vars, cfg: Config, x: Answers, k: nat, e: Event, s: State) {
    if k == 3 && Waits(v, cfg, x, e) then
      s == State(Watching(v, x, e.n), if v.stableRV == x.r.rv then Idle(Quiet) else Quarantining)
    else s.at == Failing && Dropped(s.v) && s.v.terminal == Fatal(v, x, k, e)
  }

  lemma LinkBad(v: Vars, cfg: Config, x: Answers, k: nat, log: seq<Event>, states: seq<Option<State>>, i: nat)
    requires k < ALL && !v.terminal && Judged(v, x, k) && Linked(cfg, log, states) && i < |log|
    requires !Good(v, cfg, x, k, log[i]) && states[i + 1].Some?
    requires states[i] == Some(StateAt(v, cfg, x, k))
    ensures TurnsBad(v, cfg, x, k, log[i], states[i + 1].value)
  {
    assert Link(cfg, log, states, i);
    if k == 3 && Waits(v, cfg, x, log[i]) {
      Waiting(v, cfg, x, log[i]);
    } else {
      BadFails(v, cfg, x, k, log[i]);
    }
  }

  lemma LinkDeny(cfg: Config, log: seq<Event>, states: seq<Option<State>>, i: nat)
    requires Linked(cfg, log, states) && i < |log| && states[i].Some? && states[i + 1].Some?
    requires states[i].value.at.Failing? || states[i].value.at.Quarantining?
    ensures var s, e := states[i].value, log[i];
            && e.DenyAsked?
            && (s.at.Failing? ==>
                  states[i + 1].value == State(s.v.(terminal := s.v.terminal || !e.ok), Idle(Failure)))
            && (s.at.Quarantining? ==>
                  states[i + 1].value
                  == if e.ok then State(s.v, Idle(Quiet)) else State(s.v.(terminal := true), Idle(Failure)))
  {
    assert Link(cfg, log, states, i);
  }

  /** After a bad answer only the DENY is left. */
  lemma EndsBadly(cfg: Config, log: seq<Event>, states: seq<Option<State>>, a: nat, b: nat, v: Vars, es: seq<Event>,
                  k: nat)
    requires StepIs(cfg, log, states, a, b) && v == states[a].value.v && es == log[a + Lead(v)..b]
    requires k < ALL && k < |es| && GoodUpTo(v, cfg, es, k) && !Good(v, cfg, Heard(es, k), k, es[k])
    requires a + Lead(v) + k + 1 <= b && states[a + Lead(v) + k + 1].Some?
    requires TurnsBad(v, cfg, Heard(es, k), k, es[k], states[a + Lead(v) + k + 1].value)
    ensures Ends(v, cfg, es, k, states[b].value.v, states[b].value.at.outcome)
  {
    var o := a + Lead(v);
    var s := states[o + k + 1].value;
    OnlyLater(cfg, log, states, a, b, o + k + 1);
    if s.at.Idle? {
      EndsWaiting(v, cfg, es, k, s);
    } else {
      BadIsNotIdle(v, cfg, Heard(es, k), k, es[k], s);
      OnlyLater(cfg, log, states, a, b, o + k + 2);
      LinkDeny(cfg, log, states, o + k + 1);
      assert es[k + 1] == log[o + k + 1];
      EndsDenied(v, cfg, es, k, s, states[o + k + 2].value);
    }
  }

  lemma EndsWaiting(v: Vars, cfg: Config, es: seq<Event>, k: nat, s: State)
    requires k < ALL && |es| == k + 1 && GoodUpTo(v, cfg, es, k) && !Good(v, cfg, Heard(es, k), k, es[k])
    requires TurnsBad(v, cfg, Heard(es, k), k, es[k], s) && s.at.Idle?
    ensures Ends(v, cfg, es, k, s.v, s.at.outcome)
  {
  }

  lemma BadIsNotIdle(v: Vars, cfg: Config, x: Answers, k: nat, e: Event, s: State)
    requires TurnsBad(v, cfg, x, k, e, s) && !s.at.Idle?
    ensures s.at.Failing? || s.at.Quarantining?
  {
  }

  lemma EndsDenied(v: Vars, cfg: Config, es: seq<Event>, k: nat, s: State, t: State)
    requires k < ALL && |es| == k + 2 && GoodUpTo(v, cfg, es, k) && !Good(v, cfg, Heard(es, k), k, es[k]) && !v.terminal
    requires TurnsBad(v, cfg, Heard(es, k), k, es[k], s) && !s.at.Idle? && es[k + 1].DenyAsked?
    requires s.at.Failing? ==> t == State(s.v.(terminal := s.v.terminal || !es[k + 1].ok), Idle(Failure))
    requires s.at.Quarantining? ==>
               t == if es[k + 1].ok then State(s.v, Idle(Quiet)) else State(s.v.(terminal := true), Idle(Failure))
    ensures t.at.Idle? && Ends(v, cfg, es, k, t.v, t.at.outcome)
  {
  }

  lemma FirstBad(cfg: Config, log: seq<Event>, states: seq<Option<State>>, a: nat, b: nat, es: seq<Event>, k: nat)
    requires StepIs(cfg, log, states, a, b) && es == log[a + Lead(states[a].value.v)..b] && k < ALL && k < |es|
    requires var v := states[a].value.v;
             && Judged(v, Heard(es, k), k) && !Good(v, cfg, Heard(es, k), k, es[k])
             && states[a + Lead(v) + k] == Some(StateAt(v, cfg, Heard(es, k), k))
    ensures var v := states[a].value.v;
            var next := states[a + Lead(v) + k + 1];
            next.Some? && TurnsBad(v, cfg, Heard(es, k), k, es[k], next.value)
  {
    var v := states[a].value.v;
    OnlyLater(cfg, log, states, a, b, a + Lead(v) + k + 1);
    assert es[k] == log[a + Lead(v) + k];
    LinkBad(v, cfg, Heard(es, k), k, log, states, a + Lead(v) + k);
  }

  lemma NotIdle(v: Vars, cfg: Config, x: Answers, k: nat)
    requires k < ALL && Judged(v, x, k)
    ensures !StateAt(v, cfg, x, k).at.Idle?
  {
  }

  lemma AllGood(cfg: Config, log: seq<Event>, states: seq<Option<State>>, a: nat, b: nat, v: Vars, es: seq<Event>)
    requires StepIs(cfg, log, states, a, b) && v == states[a].value.v && es == log[a + Lead(v)..b]
    requires ALL <= |es| && GoodUpTo(v, cfg, es, ALL)
    ensures Ends(v, cfg, es, ALL, states[b].value.v, states[b].value.at.outcome)
  {
    Grants(cfg, log, states, a, v, es);
    IdleIsLast(cfg, log, states, a, b, a + Lead(v) + ALL);
  }

  lemma SomeBad(cfg: Config, log: seq<Event>, states: seq<Option<State>>, a: nat, b: nat, v: Vars, es: seq<Event>,
                k: nat)
    requires StepIs(cfg, log, states, a, b) && v == states[a].value.v && es == log[a + Lead(v)..b]
    requires k < ALL && k <= |es| && GoodUpTo(v, cfg, es, k)
    ensures Judged(v, Heard(es, k), k) && states[a + Lead(v) + k] == Some(StateAt(v, cfg, Heard(es, k), k)) && k < |es|
  {
    Along(cfg, log, states, a, v, es, k);
    NotIdle(v, cfg, Heard(es, k), k);
  }

  /** Every Step of every run, told by its answers alone: it grants exactly when all fifteen are good;
      at the first that is not it waits, if the record may only not be replaced yet, and else it fails,
      drops what it held, denies, and is terminal exactly after a fatal answer or a failed DENY. */
  lemma StepOutcome(cfg: Config, log: seq<Event>, states: seq<Option<State>>, a: nat, b: nat) returns (k: nat)
    requires StepIs(cfg, log, states, a, b)
    ensures var v := states[a].value.v;
            Ends(v, cfg, log[a + Lead(v)..b], k, states[b].value.v, states[b].value.at.outcome)
  {
    var v := states[a].value.v;
    var es := log[a + Lead(v)..b];
    k := Goods(v, cfg, es, 0);
    if k == ALL {
      AllGood(cfg, log, states, a, b, v, es);
    } else {
      SomeBad(cfg, log, states, a, b, v, es, k);
      FirstBad(cfg, log, states, a, b, es, k);
      EndsBadly(cfg, log, states, a, b, v, es, k);
    }
  }

  /** A Step acknowledges exactly when every answer was good. */
  lemma GrantExact(cfg: Config, log: seq<Event>, states: seq<Option<State>>, a: nat, b: nat)
    requires StepIs(cfg, log, states, a, b)
    ensures var v := states[a].value.v;
            var es := log[a + Lead(v)..b];
            states[b].value.at.outcome.Acknowledged? <==> |es| == ALL && GoodUpTo(v, cfg, es, ALL)
  {
    var v := states[a].value.v;
    var es := log[a + Lead(v)..b];
    var k := StepOutcome(cfg, log, states, a, b);
    if |es| == ALL && GoodUpTo(v, cfg, es, ALL) && k < ALL {
      GoodBefore(v, cfg, es, ALL, k);
    }
  }

  lemma {:induction false} GoodBefore(v: Vars, cfg: Config, es: seq<Event>, n: nat, k: nat)
    requires k < n <= |es| && GoodUpTo(v, cfg, es, n)
    ensures Good(v, cfg, Heard(es, k), k, es[k])
  {
    if k < n - 1 {
      GoodBefore(v, cfg, es, n - 1, k);
    }
  }

  // ----- what every run knows of its own record and of the record it watches

  predicate Knows(cfg: Config, v: Vars) {
    && (v.ack ==>
          && v.started && v.stableRV == "" && v.pinned == v.own.uid && Valid(v.own) && v.own.holder == cfg.holder
          && Consistent(v, v.own))
    && (v.stableRV != "" ==> v.started && v.pinned == v.observed.uid && v.stableRV == v.observed.rv)
  }

  /** A Step that goes for the record it read, up to the verification of its write. */
  predicate Claiming(at: Phase) {
    || at.Naming? || at.Before? || at.Capturing? || at.CapturedContext? || at.CapturedClock? || at.Swapping?
    || at.SwappedClock?
  }

  predicate Remembers(cfg: Config, s: State) {
    var at := s.at;
    && Knows(cfg, s.v)
    && (!at.Idle? ==> s.v.started)
    && (Claiming(at) ==> s.v.observed == at.r && s.v.pinned == at.r.uid)
    && (at.Swapping? || at.SwappedClock? ==> at.next.holder == cfg.holder)
    && (at.SwappedContext? || at.Arming? || at.ArmedContext? || at.ArmedClock? ==>
          Valid(at.out) && at.out.holder == cfg.holder && at.out.uid == s.v.pinned && at.out.rv != s.v.observed.rv)
  }

  lemma FailRemembers(cfg: Config, v: Vars, terminal: bool)
    requires v.started
    ensures Remembers(cfg, FailAs(v, terminal))
  {
  }

  lemma WaitRemembers(cfg: Config, v: Vars, r: Record, n: u64)
    requires Knows(cfg, v) && v.started && v.pinned == r.uid && v.observed == r && Valid(r)
    ensures Remembers(cfg, Wait(v, cfg, r, n))
  {
  }

  /** Reading a consistent record of the same Lease loses nothing, unless it replaces the one watched. */
  lemma JudgeRemembers(cfg: Config, v: Vars, r: Record, n: u64)
    requires Knows(cfg, v) && v.started
    ensures Remembers(cfg, Judge(v, cfg, r, n))
  {
    var u := v.(last := n, pinned := if v.pinned == "" then r.uid else v.pinned);
    if !Valid(r) {
      FailRemembers(cfg, v.(last := n), false);
    } else if r.uid != u.pinned {
      FailRemembers(cfg, u, true);
    } else if Inconsistent(u.observed, r) {
      FailRemembers(cfg, u, false);
    } else {
      assert Judge(v, cfg, r, n) == Wait(u.(observed := r), cfg, r, n);
      JudgedRemembers(cfg, u.(observed := r), v, r, n);
    }
  }

  lemma JudgedRemembers(cfg: Config, u: Vars, v: Vars, r: Record, n: u64)
    requires Knows(cfg, v) && v.started && Valid(r) && u == v.(last := n, pinned := r.uid, observed := r)
    requires SameLease(v, r) && Consistent(v, r)
    ensures Remembers(cfg, Wait(u, cfg, r, n))
  {
    if Renews(u, cfg, r) {
      assert Knows(cfg, u);
    }
  }

  lemma ReadingRemembers(cfg: Config, s: State, e: Event)
    requires Remembers(cfg, s) && Next(s, cfg, e).Some?
    requires s.at.Idle? || s.at.Starting? || s.at.Opening? || s.at.Getting? || s.at.GotContext? || s.at.Quarantining?
    ensures Remembers(cfg, Next(s, cfg, e).value)
  {
  }

  lemma ClaimingRemembers(cfg: Config, s: State, e: Event)
    requires Remembers(cfg, s) && Next(s, cfg, e).Some? && Claiming(s.at) && !s.at.Swapping? && !s.at.SwappedClock?
    ensures Remembers(cfg, Next(s, cfg, e).value)
  {
  }

  lemma WritingRemembers(cfg: Config, s: State, e: Event)
    requires Remembers(cfg, s) && Next(s, cfg, e).Some? && (s.at.Swapping? || s.at.SwappedClock?)
    ensures Remembers(cfg, Next(s, cfg, e).value)
  {
  }

  lemma ArmingRemembers(cfg: Config, s: State, e: Event)
    requires Remembers(cfg, s) && Next(s, cfg, e).Some?
    requires s.at.SwappedContext? || s.at.Arming? || s.at.ArmedContext? || s.at.ArmedClock? || s.at.Failing?
    ensures Remembers(cfg, Next(s, cfg, e).value)
  {
  }

  lemma GotClockRemembers(cfg: Config, s: State, e: Event)
    requires Remembers(cfg, s) && Next(s, cfg, e).Some? && s.at.GotClock?
    ensures Remembers(cfg, Next(s, cfg, e).value)
  {
    if Tick(s.v, e.n) {
      JudgeRemembers(cfg, s.v, s.at.r, e.n);
    }
  }

  lemma NextRemembers(cfg: Config, s: State, e: Event)
    requires Remembers(cfg, s) && Next(s, cfg, e).Some?
    ensures Remembers(cfg, Next(s, cfg, e).value)
  {
    if s.at.GotClock? {
      GotClockRemembers(cfg, s, e);
    } else if s.at.Swapping? || s.at.SwappedClock? {
      WritingRemembers(cfg, s, e);
    } else if Claiming(s.at) {
      ClaimingRemembers(cfg, s, e);
    } else if s.at.SwappedContext? || s.at.Arming? || s.at.ArmedContext? || s.at.ArmedClock? || s.at.Failing? {
      ArmingRemembers(cfg, s, e);
    } else {
      ReadingRemembers(cfg, s, e);
    }
  }

  lemma {:induction false} RunRemembers(cfg: Config, log: seq<Event>, states: seq<Option<State>>, k: nat)
    requires Runs(cfg, log, states) && k <= |log| && states[k].Some?
    ensures Remembers(cfg, states[k].value)
  {
    if k > 0 {
      var e := log[k - 1];
      assert states[k] == Advance(states[k - 1], cfg, e);
      RunRemembers(cfg, log, states, k - 1);
      NextRemembers(cfg, states[k - 1].value, e);
    }
  }

  // ----- renewing and acquiring

  /** A Step in which nothing goes wrong, from the clock reading before the GET on. */
  function Healthy(r: Record, to: Record, out: Record, t: Window, nonce: string, ns: seq<u64>): seq<Event>
    requires |ns| == 6
  {
    [Clock(ns[0]), Got(Ok(r)), Context(true), Clock(ns[1]), Nonce(Some(nonce)), Clock(ns[2]), CaptureAsked(Some(t)),
     Context(true), Clock(ns[3]), Swapped(r, to, Ok(out)), Clock(ns[4]), Context(true), ArmAsked(t, true),
     Context(true), Clock(ns[5])]
  }

  /** Readings that do not go back, a ticket captured between the third and the fourth of at most five
      seconds, none of the rest past its deadline, a fresh nonce, and the write confirmed. */
  predicate Smooth(last: u64, cfg: Config, r: Record, to: Record, out: Record, t: Window, nonce: string, ns: seq<u64>) {
    && |ns| == 6 && 0 < ns[0] && last <= ns[0] <= ns[1] <= ns[2] <= t.captured <= ns[3] <= ns[4] <= ns[5] < t.deadline
    && t.deadline <= t.captured + 5_000_000_000 && nonce != r.nonce && r.epoch < 0xFFFF_FFFF_FFFF_FFFF
    && to == Record(r.uid, r.rv, cfg.holder, nonce, r.protocol, r.epoch + 1)
    && RecordOk(out) && out.uid == r.uid && out.rv != r.rv && out.holder == cfg.holder && out.nonce == nonce
    && out.epoch == r.epoch + 1
  }

  /** What has been heard of it after `k` answers. */
  function HeardOf(r: Record, out: Record, t: Window, nonce: string, ns: seq<u64>, k: nat): Answers
    requires |ns| == 6
  {
    Answers(if k > 0 then ns[0] else 0, if k > 1 then r else NO_RECORD, if k > 3 then ns[1] else 0,
            if k > 4 then nonce else "", if k > 5 then ns[2] else 0, if k > 6 then t else NO_TICKET,
            if k > 8 then ns[3] else 0, if k > 9 then out else NO_RECORD, if k > 10 then ns[4] else 0)
  }

  lemma {:induction false} HealthyHeard(r: Record, to: Record, out: Record, t: Window, nonce: string, ns: seq<u64>,
                                        es: seq<Event>, k: nat)
    requires |ns| == 6 && ALL <= |es| && es[..ALL] == Healthy(r, to, out, t, nonce, ns) && k <= 14
    ensures Heard(es, k) == HeardOf(r, out, t, nonce, ns, k)
  {
    if k > 0 {
      HealthyHeard(r, to, out, t, nonce, ns, es, k - 1);
      assert es[k - 1] == es[..ALL][k - 1];
    }
  }

  predicate Ready(v: Vars, cfg: Config, r: Record, n: u64) {
    && RecordOk(r) && SameLease(v, r) && Consistent(v, r) && (Mine(v, cfg, r) || Watched(v, cfg, r, n))
  }

  lemma HealthyRead(v: Vars, cfg: Config, r: Record, to: Record, out: Record, t: Window, nonce: string, ns: seq<u64>,
                    k: nat)
    requires Smooth(v.last, cfg, r, to, out, t, nonce, ns) && Ready(v, cfg, r, ns[1]) && k <= 4
    ensures Good(v, cfg, HeardOf(r, out, t, nonce, ns, k), k, Healthy(r, to, out, t, nonce, ns)[k])
  {
  }

  lemma HealthyTicket(v: Vars, cfg: Config, r: Record, to: Record, out: Record, t: Window, nonce: string, ns: seq<u64>,
                      k: nat)
    requires Smooth(v.last, cfg, r, to, out, t, nonce, ns) && 5 <= k <= 9
    ensures Good(v, cfg, HeardOf(r, out, t, nonce, ns, k), k, Healthy(r, to, out, t, nonce, ns)[k])
  {
  }

  lemma HealthyWrite(v: Vars, cfg: Config, r: Record, to: Record, out: Record, t: Window, nonce: string, ns: seq<u64>,
                     k: nat)
    requires Smooth(v.last, cfg, r, to, out, t, nonce, ns) && 10 <= k <= 14
    ensures Good(v, cfg, HeardOf(r, out, t, nonce, ns, k), k, Healthy(r, to, out, t, nonce, ns)[k])
  {
  }

  lemma {:induction false} HealthyIsGood(v: Vars, cfg: Config, r: Record, to: Record, out: Record, t: Window,
                                         nonce: string, ns: seq<u64>, es: seq<Event>, k: nat)
    requires Smooth(v.last, cfg, r, to, out, t, nonce, ns) && Ready(v, cfg, r, ns[1])
    requires ALL <= |es| && es[..ALL] == Healthy(r, to, out, t, nonce, ns) && k <= ALL
    ensures GoodUpTo(v, cfg, es, k)
  {
    if k > 0 {
      HealthyIsGood(v, cfg, r, to, out, t, nonce, ns, es, k - 1);
      HealthyHeard(r, to, out, t, nonce, ns, es, k - 1);
      GoodAt(v, cfg, r, to, out, t, nonce, ns, k - 1);
      assert es[k - 1] == es[..ALL][k - 1];
    }
  }

  lemma GoodAt(v: Vars, cfg: Config, r: Record, to: Record, out: Record, t: Window, nonce: string, ns: seq<u64>, k: nat)
    requires Smooth(v.last, cfg, r, to, out, t, nonce, ns) && Ready(v, cfg, r, ns[1]) && k < ALL
    ensures Good(v, cfg, HeardOf(r, out, t, nonce, ns, k), k, Healthy(r, to, out, t, nonce, ns)[k])
  {
    if k <= 4 {
      HealthyRead(v, cfg, r, to, out, t, nonce, ns, k);
    } else if k <= 9 {
      HealthyTicket(v, cfg, r, to, out, t, nonce, ns, k);
    } else {
      HealthyWrite(v, cfg, r, to, out, t, nonce, ns, k);
    }
  }

  /** A holder renews: in every run, a controller between Steps that is not terminal and has an
      acknowledged write reads exactly that record back and nothing goes wrong. The Step arms the
      ticket and owns the record's successor, one epoch on. */
  lemma RenewalSucceeds(cfg: Config, log: seq<Event>, states: seq<Option<State>>, a: nat, v: Vars, r: Record,
                        to: Record, out: Record, t: Window, nonce: string, ns: seq<u64>)
    requires Runs(cfg, log, states) && a + 16 <= |log| && states[a].Some? && states[a].value.at.Idle?
    requires v == states[a].value.v && v.ack && !v.terminal && Smooth(v.last, cfg, r, to, out, t, nonce, ns)
    requires r.uid == v.own.uid && r.rv == v.own.rv && r.holder == v.own.holder && r.nonce == v.own.nonce
    requires r.epoch == v.own.epoch && r.protocol == "nexora-kernel-ticket-v1"
    requires log[a] == Begin && log[a + 1..a + 16] == Healthy(r, to, out, t, nonce, ns)
    ensures states[a + 16].Some? && states[a + 16].value.at == Idle(Acknowledged(t))
    ensures var u := states[a + 16].value.v; u.own == out && u.own.epoch == r.epoch + 1 && u.ack && !u.terminal
  {
    RunRemembers(cfg, log, states, a);
    RunsLinked(cfg, log, states);
    RecordOkIsValid(v.own);
    ReadySucceeds(cfg, log, states, a, v, r, to, out, t, nonce, ns);
  }

  /** A candidate acquires: the same for a record watched for five seconds and the margin, unchanged
      since it was seen first. */
  lemma AcquisitionSucceeds(cfg: Config, log: seq<Event>, states: seq<Option<State>>, a: nat, v: Vars, r: Record,
                            to: Record, out: Record, t: Window, nonce: string, ns: seq<u64>)
    requires Runs(cfg, log, states) && a + 16 <= |log| && states[a].Some? && states[a].value.at.Idle?
    requires v == states[a].value.v && !v.terminal && Smooth(v.last, cfg, r, to, out, t, nonce, ns) && RecordOk(r)
    requires v.stableRV == r.rv && ns[1] >= v.since + 5_000_000_000 + cfg.margin
    requires r.uid == v.observed.uid && r.holder == v.observed.holder && r.nonce == v.observed.nonce
    requires r.epoch == v.observed.epoch
    requires log[a] == Begin && log[a + 1..a + 16] == Healthy(r, to, out, t, nonce, ns)
    ensures states[a + 16].Some? && states[a + 16].value.at == Idle(Acknowledged(t))
    ensures var u := states[a + 16].value.v; u.own == out && u.own.epoch == r.epoch + 1 && u.ack && !u.terminal
  {
    RunRemembers(cfg, log, states, a);
    RunsLinked(cfg, log, states);
    ReadySucceeds(cfg, log, states, a, v, r, to, out, t, nonce, ns);
  }

  lemma ReadySucceeds(cfg: Config, log: seq<Event>, states: seq<Option<State>>, a: nat, v: Vars, r: Record,
                      to: Record, out: Record, t: Window, nonce: string, ns: seq<u64>)
    requires Linked(cfg, log, states) && a + 16 <= |log| && states[a].Some? && states[a].value.at.Idle?
    requires v == states[a].value.v && v.started && !v.terminal && Smooth(v.last, cfg, r, to, out, t, nonce, ns)
    requires Ready(v, cfg, r, ns[1])
    requires log[a] == Begin && log[a + 1..a + 16] == Healthy(r, to, out, t, nonce, ns)
    ensures states[a + 16].Some? && states[a + 16].value.at == Idle(Acknowledged(t))
    ensures var u := states[a + 16].value.v; u.own == out && u.ack && !u.terminal
  {
    var es := log[a + 1..a + 16];
    HealthyHears(v, cfg, r, to, out, t, nonce, ns, es);
    HeardSucceeds(cfg, log, states, a, v, es, out, t);
  }

  lemma HealthyHears(v: Vars, cfg: Config, r: Record, to: Record, out: Record, t: Window, nonce: string, ns: seq<u64>,
                     es: seq<Event>)
    requires Smooth(v.last, cfg, r, to, out, t, nonce, ns) && Ready(v, cfg, r, ns[1])
    requires |es| == ALL && es == Healthy(r, to, out, t, nonce, ns)
    ensures GoodUpTo(v, cfg, es, ALL) && Heard(es, 14).t == t && Heard(es, 14).out == out
  {
    assert es[..ALL] == es;
    HealthyIsGood(v, cfg, r, to, out, t, nonce, ns, es, ALL);
    HealthyHeard(r, to, out, t, nonce, ns, es, 14);
  }

  lemma HeardSucceeds(cfg: Config, log: seq<Event>, states: seq<Option<State>>, a: nat, v: Vars, es: seq<Event>,
                      out: Record, t: Window)
    requires Linked(cfg, log, states) && a + 16 <= |log| && states[a].Some? && states[a].value.at.Idle?
    requires v == states[a].value.v && v.started && !v.terminal && log[a] == Begin && es == log[a + 1..a + 16]
    requires GoodUpTo(v, cfg, es, ALL) && Heard(es, 14).t == t && Heard(es, 14).out == out
    ensures states[a + 16].Some? && states[a + 16].value.at == Idle(Acknowledged(t))
    ensures var u := states[a + 16].value.v; u.own == out && u.ack && !u.terminal
  {
    Grants(cfg, log, states, a, v, es);
  }
}
