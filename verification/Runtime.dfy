/** The loop that drives the controller and refuses reacquisition (`runtime.go`). */
module Runtime {
  import opened Common
  import opened Fence
  import opened Controller

  // ----- what the loop looks at

  /** A reading of the boottime clock or an answer of the context or a timer, taken when the
      controller's world had recorded `at` events. */
  datatype Look = Read(at: nat, n: u64) | Asked(at: nat, yes: bool)

  class Host {
    var looks: seq<Look>

    constructor ()
      ensures looks == []
    {
      looks := [];
    }

    method Now(w: World) returns (n: u64)
      modifies this
      ensures looks == old(looks) + [Read(|w.log|, n)]
    {
      n := *;
      looks := looks + [Read(|w.log|, n)];
    }

    method Raised(w: World) returns (yes: bool)
      modifies this
      ensures looks == old(looks) + [Asked(|w.log|, yes)]
    {
      yes := *;
      looks := looks + [Asked(|w.log|, yes)];
    }
  }

  function LooksAt(looks: seq<Look>, at: nat): seq<Look> {
    if looks == [] then []
    else
      var last := looks[|looks| - 1];
      LooksAt(looks[..|looks| - 1], at) + if last.at == at then [last] else []
  }

  /** The last reading taken at that point, 0 if there was none. */
  function LastRead(looks: seq<Look>, at: nat): u64 {
    if looks == [] then 0
    else
      var last := looks[|looks| - 1];
      if last.Read? && last.at == at then last.n else LastRead(looks[..|looks| - 1], at)
  }

  // ----- the turns of a run

  /** How the loop takes the result of a Step: an ARM taken up or refused as late, a Step without one,
      or a Step that failed or outlived its context. */
  datatype Verdict = Accepted | Refused | Waited | Failed

  /** One Step: its outcome, the record it read, the tickets it asked to arm, the controller's own
      record after it, the boottime read just before it, and how the loop took it. */
  datatype Turn = Turn(
    outcome: Outcome, base: Record, asked: seq<Window>, held: Record, began: u64, verdict: Verdict)

  predicate InTime(t: Window, now: u64) {
    t.captured != 0 && t.captured <= now < t.deadline
  }

  /** The verdict on an outcome from what the loop looked at after the Step. */
  function Judged(outcome: Outcome, looks: seq<Look>): Verdict {
    if outcome.Failure? || looks == [] || !looks[0].Asked? || looks[0].yes then
      if outcome.Acknowledged? then Refused else Verdict.Failed
    else if outcome.Quiet? then Waited
    else if |looks| > 1 && looks[1].Read? && InTime(outcome.ticket, looks[1].n) then Accepted
    else Refused
  }

  /** An ARM is taken up exactly if, right after the Step, its context was alive and then the clock read
      at or after the ticket's capture and before its deadline. A Step without one is waited for exactly
      if its context was alive. */
  lemma JudgedExact(outcome: Outcome, looks: seq<Look>)
    ensures Judged(outcome, looks) == Accepted <==>
              && outcome.Acknowledged? && |looks| >= 2 && looks[0].Asked? && !looks[0].yes && looks[1].Read?
              && 0 < outcome.ticket.captured && outcome.ticket.captured <= looks[1].n
              && looks[1].n < outcome.ticket.deadline
    ensures Judged(outcome, looks) == Waited <==>
              outcome.Quiet? && |looks| >= 1 && looks[0].Asked? && !looks[0].yes
    ensures Judged(outcome, looks) == Refused ==> outcome.Acknowledged?
    ensures Judged(outcome, looks) == Verdict.Failed ==> !outcome.Acknowledged?
  {
  }

  /** Later looks at the same point change nothing in the verdict. */
  predicate Settled(outcome: Outcome, looks: seq<Look>) {
    outcome.Failure? || (looks != [] && (outcome.Quiet? || !looks[0].Asked? || looks[0].yes || |looks| > 1))
  }

  function TurnOf(tr: Trail, s: State, began: u64, looks: seq<Look>): Turn
    requires s.at.Idle?
  {
    Turn(s.at.outcome, tr.base, tr.arms, s.v.own, began, Judged(s.at.outcome, looks))
  }

  /** `t` is the Step recorded from `a` to `b`, read off the world's events and state and the looks. */
  predicate TurnAt(log: seq<Event>, states: seq<Option<State>>, looks: seq<Look>, a: nat, b: nat, t: Turn) {
    && OneStep(log, a, b) && |states| == |log| + 1 && states[b].Some? && states[b].value.at.Idle?
    && t == TurnOf(TrailOf(log[a..b]), states[b].value, LastRead(looks, a), LooksAt(looks, b))
    && Settled(t.outcome, LooksAt(looks, b))
  }

  predicate Told(log: seq<Event>, states: seq<Option<State>>, looks: seq<Look>, turns: seq<Turn>, cuts: seq<nat>,
                 i: nat)
    requires i < |turns| && |cuts| == |turns| + 1
  {
    TurnAt(log, states, looks, cuts[i], cuts[i + 1], turns[i])
  }

  /** The Steps recorded from event `from` on are exactly these turns, begun at `cuts` and nowhere else. */
  ghost predicate Recorded(log: seq<Event>, states: seq<Option<State>>, looks: seq<Look>, from: nat,
                           turns: seq<Turn>, cuts: seq<nat>)
  {
    && |cuts| == |turns| + 1 && cuts[0] == from && cuts[|turns|] == |log|
    && forall i :: 0 <= i < |turns| ==> Told(log, states, looks, turns, cuts, i)
  }

  // ----- what the record of a run shows

  /** Whatever `t` asked to arm replaces exactly the record `last` holds, in a Step begun before the
      deadline of the ticket armed then. */
  predicate Renews(last: Turn, t: Turn) {
    t.asked != [] && last.outcome.Acknowledged? ==>
      && t.base.uid == last.held.uid && t.base.rv == last.held.rv && t.base.nonce == last.held.nonce
      && t.base.epoch == last.held.epoch
      && 0 < t.began < last.outcome.ticket.deadline
  }

  /** An acknowledged Step armed one ticket, its own, for `holder` on the direct successor of the record read. */
  predicate Sound(holder: string, t: Turn) {
    t.outcome.Acknowledged? ==> t.asked == [t.outcome.ticket] && Succeeds(t.held, t.base, holder)
  }

  /** Every ARM is sound, and every ARM asked for after an acknowledged one, answered or not, renews it. */
  predicate Lineage(holder: string, turns: seq<Turn>) {
    && (forall i :: 0 <= i < |turns| ==> Sound(holder, turns[i]))
    && (forall i :: 0 < i < |turns| ==> Renews(turns[i - 1], turns[i]))
  }

  /** An ARM taken up, or a Step that asked for none. */
  predicate Fine(t: Turn) {
    (t.verdict.Accepted? && t.outcome.Acknowledged?) || (t.verdict.Waited? && t.outcome.Quiet? && t.asked == [])
  }

  /** Turns the loop goes on after: no failure, no refused ARM, and once armed always armed. */
  predicate Steady(turns: seq<Turn>) {
    && (forall i :: 0 <= i < |turns| ==> Fine(turns[i]))
    && (forall i, j :: 0 <= i < j < |turns| && turns[i].verdict.Accepted? ==> turns[j].verdict.Accepted?)
  }

  predicate Held(turns: seq<Turn>) {
    turns != [] && turns[|turns| - 1].verdict.Accepted?
  }

  function Arms(turns: seq<Turn>): nat {
    if turns == [] then 0
    else Arms(turns[..|turns| - 1]) + if Held(turns) then 1 else 0
  }

  predicate GoesOn(turns: seq<Turn>, t: Turn) {
    t.verdict.Accepted? || (t.verdict.Waited? && !Held(turns))
  }

  lemma LineageGrows(holder: string, turns: seq<Turn>, t: Turn)
    requires Lineage(holder, turns) && Sound(holder, t) && (turns != [] ==> Renews(turns[|turns| - 1], t))
    ensures Lineage(holder, turns + [t])
  {
    var all, n := turns + [t], |turns|;
    forall i | 0 <= i < |all|
      ensures Sound(holder, all[i])
    {
      if i < n {
        assert all[i] == turns[i];
      }
    }
    forall i | 0 < i < |all|
      ensures Renews(all[i - 1], all[i])
    {
      assert all[i - 1] == turns[i - 1];
      if i < n {
        assert all[i] == turns[i];
      }
    }
  }

  lemma SteadyOn(turns: seq<Turn>, t: Turn)
    requires Steady(turns) && Fine(t) && GoesOn(turns, t)
    ensures Steady(turns + [t])
  {
    var all, n := turns + [t], |turns|;
    assert all[n] == t && forall i :: 0 <= i < n ==> all[i] == turns[i];
    forall i, j | 0 <= i < j < |all| && all[i].verdict.Accepted?
      ensures all[j].verdict.Accepted?
    {
      if j == n && i < n - 1 {
        assert turns[i].verdict.Accepted? && turns[n - 1].verdict.Accepted?;
      }
    }
  }

  lemma SteadyEnds(turns: seq<Turn>, t: Turn)
    requires !GoesOn(turns, t)
    ensures !Steady(turns + [t])
  {
    var all, n := turns + [t], |turns|;
    assert all[n] == t;
    if Held(turns) {
      assert all[n - 1].verdict.Accepted?;
    }
  }

  lemma ArmsGrow(turns: seq<Turn>, t: Turn)
    ensures (turns + [t])[..|turns|] == turns
    ensures Arms(turns + [t]) == Arms(turns) + if t.verdict.Accepted? then 1 else 0
  {
    assert (turns + [t])[..|turns|] == turns;
  }

  // ----- the record grows

  lemma LooksGrow(looks: seq<Look>, x: Look, at: nat)
    ensures LooksAt(looks + [x], at) == LooksAt(looks, at) + if x.at == at then [x] else []
    ensures LastRead(looks + [x], at) == if x.Read? && x.at == at then x.n else LastRead(looks, at)
  {
    assert (looks + [x])[..|looks|] == looks;
  }

  lemma JudgedGrows(outcome: Outcome, looks: seq<Look>, more: seq<Look>)
    requires Settled(outcome, looks)
    ensures Judged(outcome, looks + more) == Judged(outcome, looks) && Settled(outcome, looks + more)
  {
  }

  /** A look taken after a Step leaves its turn as it is. */
  lemma TurnLooked(log: seq<Event>, states: seq<Option<State>>, looks: seq<Look>, a: nat, b: nat, t: Turn, x: Look)
    requires TurnAt(log, states, looks, a, b, t) && x.at >= b
    ensures TurnAt(log, states, looks + [x], a, b, t)
  {
    LooksGrow(looks, x, a);
    LooksGrow(looks, x, b);
    JudgedGrows(t.outcome, LooksAt(looks, b), if x.at == b then [x] else []);
  }

  lemma RecordLooked(log: seq<Event>, states: seq<Option<State>>, looks: seq<Look>, from: nat, turns: seq<Turn>,
                     cuts: seq<nat>, x: Look)
    requires Recorded(log, states, looks, from, turns, cuts) && x.at >= |log|
    ensures Recorded(log, states, looks + [x], from, turns, cuts)
  {
    forall i | 0 <= i < |turns|
      ensures Told(log, states, looks + [x], turns, cuts, i)
    {
      assert Told(log, states, looks, turns, cuts, i);
      TurnLooked(log, states, looks, cuts[i], cuts[i + 1], turns[i], x);
    }
  }

  lemma {:induction false} RecordKept(log: seq<Event>, states: seq<Option<State>>, looks: seq<Look>, from: nat,
                                      turns: seq<Turn>, cuts: seq<nat>, more: seq<Look>)
    requires Recorded(log, states, looks, from, turns, cuts) && forall i :: 0 <= i < |more| ==> more[i].at >= |log|
    ensures Recorded(log, states, looks + more, from, turns, cuts)
    decreases |more|
  {
    if more == [] {
      assert looks + more == looks;
    } else {
      var n := |more| - 1;
      RecordKept(log, states, looks, from, turns, cuts, more[..n]);
      RecordLooked(log, states, looks + more[..n], from, turns, cuts, more[n]);
      assert looks + more[..n] + [more[n]] == looks + more;
    }
  }

  predicate UpTo(looks: seq<Look>, at: nat) {
    forall i :: 0 <= i < |looks| ==> looks[i].at <= at
  }

  lemma {:induction false} NoneAfter(looks: seq<Look>, a: nat, b: nat)
    requires UpTo(looks, a) && a < b
    ensures LooksAt(looks, b) == []
  {
    if looks != [] {
      var n := |looks| - 1;
      assert UpTo(looks[..n], a);
      NoneAfter(looks[..n], a, b);
    }
  }

  /** Looks at `b` alone, after looks up to `a`. */
  lemma {:induction false} LooksApart(looks: seq<Look>, more: seq<Look>, a: nat, b: nat)
    requires UpTo(looks, a) && a < b && forall i :: 0 <= i < |more| ==> more[i].at == b
    ensures LooksAt(looks + more, b) == more && LastRead(looks + more, a) == LastRead(looks, a)
    decreases |more|
  {
    if more == [] {
      assert looks + more == looks;
      NoneAfter(looks, a, b);
    } else {
      var n := |more| - 1;
      LooksApart(looks, more[..n], a, b);
      assert looks + more == looks + more[..n] + [more[n]] && more == more[..n] + [more[n]];
      LooksGrow(looks + more[..n], more[n], a);
      LooksGrow(looks + more[..n], more[n], b);
    }
  }

  /** So do later events. */
  lemma TurnLeft(log: seq<Event>, states: seq<Option<State>>, looks: seq<Look>, a: nat, b: nat, t: Turn,
                 log': seq<Event>, states': seq<Option<State>>)
    requires TurnAt(log, states, looks, a, b, t) && log <= log' && states <= states' && |states'| == |log'| + 1
    ensures TurnAt(log', states', looks, a, b, t)
  {
    assert log'[a..b] == log[a..b];
  }

  /** A Step adds a turn. */
  lemma RecordStepped(log: seq<Event>, states: seq<Option<State>>, looks: seq<Look>, from: nat, turns: seq<Turn>,
                      cuts: seq<nat>, log': seq<Event>, states': seq<Option<State>>, t: Turn)
    requires Recorded(log, states, looks, from, turns, cuts) && log <= log' && states <= states'
    requires TurnAt(log', states', looks, |log|, |log'|, t)
    ensures Recorded(log', states', looks, from, turns + [t], cuts + [|log'|])
  {
    var all, ends := turns + [t], cuts + [|log'|];
    forall i | 0 <= i < |all|
      ensures Told(log', states', looks, all, ends, i)
    {
      if i < |turns| {
        assert Told(log, states, looks, turns, cuts, i);
        TurnLeft(log, states, looks, cuts[i], cuts[i + 1], turns[i], log', states');
      }
    }
  }

  // ----- the loop

  datatype Stop = Cancelled | Expired | TimeUp | StepFailed | Stale | OwnershipLost

  datatype Report = Report(steps: nat, arms: nat, stop: Stop)

  /** A run with these turns stopped for this reason: all but the last were steady, ownership was lost
      exactly when the last waited after an ARM, and the loop ended between two Steps exactly when the
      last was steady as well. */
  predicate Over(turns: seq<Turn>, stop: Stop) {
    && (turns != [] ==> Steady(turns[..|turns| - 1]))
    && (stop == OwnershipLost <==> turns != [] && turns[|turns| - 1].verdict.Waited? && Held(turns[..|turns| - 1]))
    && (Steady(turns) <==> stop in {Cancelled, Expired, TimeUp})
  }

  lemma SteadyOver(turns: seq<Turn>, stop: Stop)
    requires Steady(turns) && stop in {Cancelled, Expired, TimeUp}
    ensures Over(turns, stop)
  {
    if turns != [] {
      var n := |turns| - 1;
      assert forall i :: 0 <= i < n ==> turns[..n][i] == turns[i];
      if Held(turns[..n]) {
        assert turns[n - 1].verdict.Accepted?;
      }
    }
  }

  /** The loop stops on a failure, a refused ARM, or a Step without one while it holds a ticket. */
  predicate Stops(stop: Option<Stop>, verdict: Verdict, deadline: u64) {
    match verdict
    case Accepted => stop.None?
    case Waited => stop == if deadline != 0 then Some(OwnershipLost) else None
    case Refused => stop in {Some(StepFailed), Some(Stale)}
    case Failed => stop == Some(StepFailed)
  }

  /** A Step is blamed only if it failed or its context had ended, an ARM only if the clock was outside
      the ticket's time. */
  predicate Blamed(stop: Option<Stop>, result: Outcome, looks: seq<Look>) {
    && (stop == Some(StepFailed) ==> result.Failure? || Ending(looks))
    && (stop == Some(Stale) ==> result.Acknowledged? && Untimely(result.ticket, looks))
  }

  /** The last look saw the context or the time at its end. */
  predicate Ending(looks: seq<Look>) {
    looks != [] && looks[|looks| - 1].Asked? && looks[|looks| - 1].yes
  }

  predicate Untimely(t: Window, looks: seq<Look>) {
    && looks != [] && looks[|looks| - 1].Read?
    && (t.captured == 0 || looks[|looks| - 1].n < t.captured || t.deadline <= looks[|looks| - 1].n)
  }

  lemma LastLook(looks: seq<Look>, more: seq<Look>, t: Window)
    requires more != []
    ensures Ending(looks + more) == Ending(more) && Untimely(t, looks + more) == Untimely(t, more)
  {
  }

  /** One Step of the loop and the judgement of its result. */
  method Round(ctl: Controller, w: World, host: Host, deadline: u64) returns (stop: Option<Stop>, result: Outcome)
    requires exists last :: ctl.Follows(w, Idle(last))
    modifies ctl, w, host
    ensures ctl.Follows(w, Idle(result)) && old(w.log) <= w.log && OneStep(w.log, |old(w.log)|, |w.log|)
    ensures StepDone(old(ctl.View()), ctl.cfg, TrailOf(w.log[|old(w.log)|..]), State(ctl.View(), Idle(result)))
    ensures old(host.looks) <= host.looks
    ensures var looks := host.looks[|old(host.looks)|..];
            && (forall i :: 0 <= i < |looks| ==> looks[i].at == |w.log|) && Settled(result, looks)
            && Stops(stop, Judged(result, looks), deadline) && Blamed(stop, result, looks)
  {
    result := ctl.Step(w);
    if result.Failure? {
      return Some(StepFailed), result;
    }
    var expired := host.Raised(w);
    if expired {
      return Some(StepFailed), result;
    }
    if result.Acknowledged? {
      var now := host.Now(w);
      if result.ticket.captured == 0 || now < result.ticket.captured || now >= result.ticket.deadline {
        return Some(Stale), result;
      }
      return None, result;
    }
    stop := if deadline != 0 then Some(OwnershipLost) else None;
  }

  /** What one turn of the loop adds to the record. */
  lemma RoundRecorded(cfg: Config, log: seq<Event>, states: seq<Option<State>>, looks: seq<Look>, from: nat,
                      turns: seq<Turn>, cuts: seq<nat>, log': seq<Event>, states': seq<Option<State>>, more: seq<Look>)
    returns (t: Turn)
    requires Recorded(log, states, looks, from, turns, cuts) && UpTo(looks, |log|)
    requires Runs(cfg, log, states) && Runs(cfg, log', states') && log <= log' && OneStep(log', |log|, |log'|)
    requires states'[|log'|].Some? && states'[|log'|].value.at.Idle?
    requires Settled(states'[|log'|].value.at.outcome, more) && forall i :: 0 <= i < |more| ==> more[i].at == |log'|
    ensures Recorded(log', states', looks + more, from, turns + [t], cuts + [|log'|])
    ensures t == TurnOf(TrailOf(log'[|log|..]), states'[|log'|].value, LastRead(looks, |log|), more)
  {
    var a, b := |log|, |log'|;
    assert log'[a..] == log'[a..b];
    t := TurnOf(TrailOf(log'[a..b]), states'[b].value, LastRead(looks, a), more);
    RecordKept(log, states, looks, from, turns, cuts, more);
    LooksApart(looks, more, a, b);
    forall k | 0 <= k < |states|
      ensures states[k] == states'[k]
    {
      SameRun(cfg, log, states, log', states', k);
    }
    RecordStepped(log, states, looks + more, from, turns, cuts, log', states', t);
  }

  /** The turn of a Step from `v` continues the lineage of the turns before it. */
  lemma TurnContinues(v: Vars, cfg: Config, turns: seq<Turn>, tr: Trail, s: State, began: u64, looks: seq<Look>)
    returns (t: Turn)
    requires s.at.Idle? && StepDone(v, cfg, tr, s) && Lineage(cfg.holder, turns) && Steady(turns)
    requires Held(turns) ==>
               && v.own == turns[|turns| - 1].held && v.stableRV == ""
               && 0 < began < turns[|turns| - 1].outcome.ticket.deadline
    ensures t == TurnOf(tr, s, began, looks) && Lineage(cfg.holder, turns + [t])
    ensures Arms(turns + [t]) == Arms(turns) + if t.verdict.Accepted? then 1 else 0
    ensures Steady(turns + [t]) <==> GoesOn(turns, t)
    ensures (turns + [t])[..|turns|] == turns
  {
    t := TurnOf(tr, s, began, looks);
    if turns != [] {
      assert Fine(turns[|turns| - 1]);
    }
    LineageGrows(cfg.holder, turns, t);
    ArmsGrow(turns, t);
    if GoesOn(turns, t) {
      SteadyOn(turns, t);
    } else {
      SteadyEnds(turns, t);
    }
  }

  /** What the loop has looked at, and the turns it made, begun at `cuts`. */
  datatype History = History(looks: seq<Look>, turns: seq<Turn>, cuts: seq<nat>)

  /** `h` holds the looks taken and the Steps recorded since event `from`. */
  ghost predicate Kept(log: seq<Event>, states: seq<Option<State>>, from: nat, h: History) {
    from <= |log| && UpTo(h.looks, |log|) && Recorded(log, states, h.looks, from, h.turns, h.cuts)
  }

  /** The loop goes on: its turns are steady, and it knows the deadline of the ticket it holds. */
  predicate Going(holder: string, v: Vars, turns: seq<Turn>, deadline: u64) {
    && Lineage(holder, turns) && Steady(turns) && (Held(turns) <==> deadline != 0)
    && (Held(turns) ==>
          && deadline == turns[|turns| - 1].outcome.ticket.deadline
          && v.own == turns[|turns| - 1].held && v.stableRV == "")
  }

  /** What a turn makes of a going loop. */
  ghost predicate Turned(holder: string, v: Vars, turns: seq<Turn>, deadline: u64, stop: Option<Stop>, result: Outcome,
                         turns': seq<Turn>)
  {
    && |turns'| == |turns| + 1 && Lineage(holder, turns')
    && Arms(turns') == Arms(turns) + (if stop.None? && result.Acknowledged? then 1 else 0)
    && (stop.None? ==> Going(holder, v, turns', if result.Acknowledged? then result.ticket.deadline else deadline))
    && (stop.Some? ==> stop.value !in {Cancelled, Expired} && Over(turns', stop.value))
  }

  lemma Turns(v: Vars, cfg: Config, turns: seq<Turn>, deadline: u64, tr: Trail, s: State, began: u64, looks: seq<Look>,
              stop: Option<Stop>)
    returns (t: Turn)
    requires s.at.Idle? && StepDone(v, cfg, tr, s) && Going(cfg.holder, v, turns, deadline)
    requires deadline != 0 ==> 0 < began < deadline
    requires Stops(stop, Judged(s.at.outcome, looks), deadline)
    ensures t == TurnOf(tr, s, began, looks)
    ensures Turned(cfg.holder, s.v, turns, deadline, stop, s.at.outcome, turns + [t])
  {
    t := TurnContinues(v, cfg, turns, tr, s, began, looks);
  }

  lemma Extend(log: seq<Event>, states: seq<Option<State>>, before: seq<Look>, from: nat, h: History, x: Look)
    returns (h': History)
    requires Kept(log, states, from, h) && x.at == |log|
    ensures h' == h.(looks := h.looks + [x]) && Kept(log, states, from, h')
    ensures before + h.looks + [x] == before + h'.looks
    ensures LastRead(h'.looks, |log|) == if x.Read? then x.n else LastRead(h.looks, |log|)
  {
    h' := h.(looks := h.looks + [x]);
    RecordLooked(log, states, h.looks, from, h.turns, h.cuts, x);
    LooksGrow(h.looks, x, |log|);
  }

  lemma Advanced(cfg: Config, v: Vars, s: State, log: seq<Event>, states: seq<Option<State>>, log': seq<Event>,
                 states': seq<Option<State>>, from: nat, h: History, more: seq<Look>, deadline: u64, stop: Option<Stop>)
    returns (h': History)
    requires Kept(log, states, from, h) && Going(cfg.holder, v, h.turns, deadline)
    requires deadline != 0 ==> 0 < LastRead(h.looks, |log|) < deadline
    requires Runs(cfg, log, states) && Runs(cfg, log', states') && log <= log' && OneStep(log', |log|, |log'|)
    requires s.at.Idle? && states'[|log'|] == Some(s) && StepDone(v, cfg, TrailOf(log'[|log|..]), s)
    requires (forall i :: 0 <= i < |more| ==> more[i].at == |log'|) && Settled(s.at.outcome, more)
    requires Stops(stop, Judged(s.at.outcome, more), deadline)
    ensures Kept(log', states', from, h') && h'.looks == h.looks + more
    ensures h'.turns != [] && h'.turns[|h'.turns| - 1].outcome == s.at.outcome
    ensures Turned(cfg.holder, s.v, h.turns, deadline, stop, s.at.outcome, h'.turns)
  {
    var t := Turns(v, cfg, h.turns, deadline, TrailOf(log'[|log|..]), s, LastRead(h.looks, |log|), more, stop);
    var u := RoundRecorded(cfg, log, states, h.looks, from, h.turns, h.cuts, log', states', more);
    h' := History(h.looks + more, h.turns + [t], h.cuts + [|log'|]);
  }

  /** Why a loop stopped: its context or its time had ended when it last looked; it had read the clock
      past the deadline of the ticket it held; its last Step failed or outlived its context; or the ARM of
      its last Step came too late. */
  predicate Ended(h: History, stop: Stop) {
    match stop
    case Cancelled => Ending(h.looks)
    case TimeUp => Ending(h.looks)
    case Expired =>
      && h.looks != [] && h.looks[|h.looks| - 1].Read? && Held(h.turns)
      && var last := h.looks[|h.looks| - 1];
         var t := h.turns[|h.turns| - 1].outcome;
         t.Acknowledged? && (last.n == 0 || last.n >= t.ticket.deadline)
    case StepFailed => h.turns != [] && (h.turns[|h.turns| - 1].outcome.Failure? || Ending(h.looks))
    case Stale =>
      h.turns != [] && var t := h.turns[|h.turns| - 1].outcome; t.Acknowledged? && Untimely(t.ticket, h.looks)
    case OwnershipLost => h.turns != [] && h.turns[|h.turns| - 1].outcome.Quiet?
  }

  lemma RoundEnds(h: History, stop: Option<Stop>, result: Outcome, more: seq<Look>, h': History, deadline: u64)
    requires stop.Some? && Blamed(stop, result, more) && Stops(stop, Judged(result, more), deadline)
    requires h'.looks == h.looks + more && h'.turns != [] && h'.turns[|h'.turns| - 1].outcome == result
    ensures Ended(h', stop.value)
  {
    if result.Acknowledged? && more != [] {
      LastLook(h.looks, more, result.ticket);
    } else if more != [] {
      LastLook(h.looks, more, Window(0, 0));
    }
  }

  /** What the loop looks at before a Step: its context, the clock if a ticket is out, the time left. */
  method Ready(ctl: Controller, w: World, host: Host, deadline: u64, ghost before: seq<Look>, ghost from: nat,
               ghost h: History)
    returns (stop: Option<Stop>, ghost h': History)
    requires Kept(w.log, w.states, from, h) && host.looks == before + h.looks
    requires Going(ctl.cfg.holder, ctl.View(), h.turns, deadline)
    modifies host
    ensures Kept(w.log, w.states, from, h') && host.looks == before + h'.looks
    ensures h'.turns == h.turns && h'.cuts == h.cuts
    ensures stop.None? && deadline != 0 ==> 0 < LastRead(h'.looks, |w.log|) < deadline
    ensures stop.Some? ==> Over(h'.turns, stop.value) && Ended(h', stop.value)
  {
    SteadyOver(h.turns, Cancelled);
    SteadyOver(h.turns, Expired);
    SteadyOver(h.turns, TimeUp);
    var yes := host.Raised(w);
    h' := Extend(w.log, w.states, before, from, h, Asked(|w.log|, yes));
    if yes {
      return Some(Cancelled), h';
    }
    if deadline != 0 {
      var now := host.Now(w);
      h' := Extend(w.log, w.states, before, from, h', Read(|w.log|, now));
      if now == 0 || now >= deadline {
        return Some(Expired), h';
      }
    }
    yes := host.Raised(w);
    h' := Extend(w.log, w.states, before, from, h', Asked(|w.log|, yes));
    stop := if yes then Some(TimeUp) else None;
  }

  /** One round, and the turn it adds to the history. */
  method Advance(ctl: Controller, w: World, host: Host, deadline: u64, ghost before: seq<Look>, ghost from: nat,
                 ghost h: History)
    returns (stop: Option<Stop>, result: Outcome, ghost h': History)
    requires Kept(w.log, w.states, from, h) && host.looks == before + h.looks
    requires Going(ctl.cfg.holder, ctl.View(), h.turns, deadline) && exists last :: ctl.Follows(w, Idle(last))
    requires deadline != 0 ==> 0 < LastRead(h.looks, |w.log|) < deadline
    modifies ctl, w, host
    ensures Kept(w.log, w.states, from, h') && host.looks == before + h'.looks
    ensures ctl.Follows(w, Idle(result)) && old(w.log) <= w.log
    ensures Turned(ctl.cfg.holder, ctl.View(), h.turns, deadline, stop, result, h'.turns)
    ensures stop.Some? ==> Ended(h', stop.value)
  {
    ghost var v, log, states, seen := ctl.View(), w.log, w.states, host.looks;
    stop, result := Round(ctl, w, host, deadline);
    ghost var s := State(ctl.View(), Idle(result));
    h' := Advanced(ctl.cfg, v, s, log, states, w.log, w.states, from, h, host.looks[|seen|..], deadline, stop);
    assert host.looks == seen + host.looks[|seen|..];
    if stop.Some? {
      RoundEnds(h, stop, result, host.looks[|seen|..], h', deadline);
    }
  }

  /** The whole run; at most `rounds` ticks fit into the configured duration. Its turns are all the
      Steps the controller made meanwhile. A Step without an ARM after one, like a failed Step or a
      refused ARM, is the last: there is no second acquisition. */
  method Run(ctl: Controller, w: World, host: Host, rounds: nat) returns (r: Report, ghost h: History)
    requires exists last :: ctl.Follows(w, Idle(last))
    modifies ctl, w, host
    ensures old(w.log) <= w.log && Kept(w.log, w.states, |old(w.log)|, h) && host.looks == old(host.looks) + h.looks
    ensures Lineage(ctl.cfg.holder, h.turns) && Over(h.turns, r.stop)
    ensures Ended(h, r.stop) || (r.stop == TimeUp && r.steps == rounds)
    ensures |h.turns| == r.steps <= rounds && r.arms == Arms(h.turns)
    ensures exists last :: ctl.Follows(w, Idle(last))
  {
    r := Report(0, 0, TimeUp);
    ghost var from, before := |w.log|, host.looks;
    h := History([], [], [from]);
    var deadline: u64 := 0;
    while r.steps < rounds
      invariant exists last :: ctl.Follows(w, Idle(last))
      invariant old(w.log) <= w.log && Kept(w.log, w.states, from, h) && host.looks == before + h.looks
      invariant Going(ctl.cfg.holder, ctl.View(), h.turns, deadline)
      invariant |h.turns| == r.steps <= rounds && r.arms == Arms(h.turns) && r.stop == TimeUp
    {
      var stop;
      stop, h := Ready(ctl, w, host, deadline, before, from, h);
      if stop.Some? {
        return r.(stop := stop.value), h;
      }
      var result;
      stop, result, h := Advance(ctl, w, host, deadline, before, from, h);
      r := r.(steps := r.steps + 1);
      if stop.Some? {
        return r.(stop := stop.value), h;
      }
      if result.Acknowledged? {
        deadline := result.ticket.deadline;
        r := r.(arms := r.arms + 1);
      }
    }
    SteadyOver(h.turns, TimeUp);
  }
}
