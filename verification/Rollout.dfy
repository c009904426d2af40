/** The staged rollout under the deployment lock, with a DNS monitor beside it (`run.go`). */
module Rollout {
  import opened Common

  datatype Member = Member(workload: string, node: string)

  /** One DNS VIP's two members, primary first. */
  datatype Pair = Pair(name: string, address: string, primary: Member, partner: Member)

  /** A chart change; `rolling` names the one workload it may restart, or is empty. */
  datatype Stage = Stage(name: string, rolling: string, legacySelectors: bool)

  datatype Gate = Gate(name: string, required: seq<string>, desired: seq<string>, pairSelectors: bool)

  /** What happened, and whether it succeeded. Monitor rounds may fall anywhere. */
  datatype Event =
    | Lock(ok: bool) | Baseline(ok: bool) | Monitor(ok: bool) | Inspect(legacy: bool, ok: bool)
    | Ownership(ok: bool) | Progress | Health(gate: Gate, ok: bool) | Prepare(ok: bool)
    | Apply(stage: Stage, ok: bool) | Enroll(workloads: seq<string>, ok: bool) | Finalize(ok: bool)
    | FinalDns(ok: bool) | Unlock(ok: bool)

  type Trace = seq<Event>

  predicate Mutation(e: Event) {
    e.Prepare? || e.Apply? || e.Enroll? || e.Finalize?
  }

  predicate Rolling(e: Event) {
    e.Apply? && e.stage.rolling != ""
  }

  predicate Passed(e: Event) {
    e.Progress? || e.ok
  }

  predicate FullGate(e: Event, all: seq<string>) {
    e.Health? && e.ok && e.gate.required == all && e.gate.pairSelectors
  }

  // ----- the discipline, stated over a whole trace

  /** Between `j` and `i` nothing but monitor rounds and progress notes. */
  predicate DirectlyAfter(t: Trace, j: int, i: int) {
    0 <= j < i < |t| && forall k :: j < k < i ==> t[k].Monitor? || t[k].Progress?
  }

  predicate NoMutationBetween(t: Trace, j: int, i: int) {
    0 <= j < i < |t| && forall k :: j < k < i ==> !Mutation(t[k])
  }

  /** The gate that verifies a rolled workload's new template. */
  predicate Verifies(e: Event, all: seq<string>, workload: string) {
    FullGate(e, all) && workload in e.gate.desired
  }

  ghost predicate Confirmed(t: Trace, i: int) {
    exists j :: DirectlyAfter(t, j, i) && t[j] == Ownership(true)
  }

  ghost predicate GatedAt(t: Trace, all: seq<string>, i: int) {
    exists j :: NoMutationBetween(t, j, i) && FullGate(t[j], all)
  }

  predicate BasedAt(t: Trace, i: int) {
    exists j, k :: 0 <= j < k < i && k < |t| && t[j] == Lock(true) && t[k] == Baseline(true)
  }

  predicate VerifiedBetween(t: Trace, all: seq<string>, j: int, i: int)
    requires 0 <= j < |t| && Rolling(t[j])
  {
    exists k :: j < k < i && k < |t| && Verifies(t[k], all, t[j].stage.rolling)
  }

  predicate ProbedAt(t: Trace, i: int) {
    exists k :: 0 <= k < i && k < |t| && t[k] == FinalDns(true)
  }

  /** Nothing changes before the lock is held and a baseline DNS round has passed; every mutation
      directly follows a successful ownership check; every rolling stage follows, with no mutation
      between, a passed gate on all workloads with pair selectors; nothing changes and nothing is unlocked
      before a rolled workload is verified; and unlocking comes last, directly after an ownership check
      and a final DNS round, and only after successes. */
  ghost predicate Disciplined(t: Trace, all: seq<string>) {
    && (forall i :: 0 <= i < |t| && Mutation(t[i]) ==> Confirmed(t, i) && BasedAt(t, i))
    && (forall i :: 0 <= i < |t| && Rolling(t[i]) ==> GatedAt(t, all, i))
    && (forall i, j :: 0 <= j < i < |t| && Rolling(t[j]) && (Mutation(t[i]) || t[i].Unlock?) ==>
          VerifiedBetween(t, all, j, i))
    && (forall i :: 0 <= i < |t| && t[i].Unlock? ==>
          i + 1 == |t| && Confirmed(t, i) && ProbedAt(t, i) && forall j :: 0 <= j < i ==> Passed(t[j]))
  }

  /** What a trace amounts to so far: ownership was the last thing confirmed; a full gate passed since
      the last mutation; the workloads rolled; whether the rollout's own steps and the monitor's rounds
      all succeeded; whether unlocking is still to come; how far the lock, the baseline and the final
      round are; and the rolled workload not yet verified. */
  datatype Status = Status(
    owned: bool, gated: bool, rolled: seq<string>, clean: bool, quiet: bool, open: bool,
    locked: bool, based: bool, probed: bool, pending: Option<string>)

  function Next(s: Status, e: Event, all: seq<string>): Status {
    Status(e == Ownership(true) || ((e.Monitor? || e.Progress?) && s.owned),
           FullGate(e, all) || (!Mutation(e) && s.gated),
           if Rolling(e) then s.rolled + [e.stage.rolling] else s.rolled,
           s.clean && (e.Monitor? || Passed(e)),
           s.quiet && (e.Monitor? ==> e.ok),
           s.open && !e.Unlock?,
           s.locked || e == Lock(true),
           s.based || (s.locked && e == Baseline(true)),
           s.probed || e == FinalDns(true),
           if Rolling(e) then Some(e.stage.rolling)
           else if s.pending.Some? && Verifies(e, all, s.pending.value) then None
           else s.pending)
  }

  /** What the monitor saw changes nothing else. */
  lemma NextQuiet(s: Status, quiet: bool, e: Event, all: seq<string>)
    requires !e.Monitor?
    ensures Next(s.(quiet := quiet), e, all) == Next(s, e, all).(quiet := quiet)
  {
    var t, u := Next(s, e, all), Next(s.(quiet := quiet), e, all);
    assert u.pending == t.pending && u.rolled == t.rolled && u.gated == t.gated;
  }

  lemma NextMonitor(s: Status, ok: bool, all: seq<string>)
    ensures Next(s, Monitor(ok), all) == s.(quiet := s.quiet && ok)
  {
  }

  /** A log grows at its end; `TraceOf` lists its events. */
  datatype Log = Start | Then(before: Log, event: Event)

  function TraceOf(l: Log): Trace {
    if l.Start? then [] else TraceOf(l.before) + [l.event]
  }

  function StatusOf(l: Log, all: seq<string>): Status {
    if l.Start? then Status(false, false, [], true, true, true, false, false, false, None)
    else Next(StatusOf(l.before, all), l.event, all)
  }

  /** The workloads rolled, in order. */
  function Rolled(t: Trace): seq<string> {
    if t == [] then []
    else if Rolling(t[|t| - 1]) then Rolled(t[..|t| - 1]) + [t[|t| - 1].stage.rolling]
    else Rolled(t[..|t| - 1])
  }

  predicate Note(e: Event) {
    e.Monitor? || e.Progress?
  }

  /** The rollout's own steps, without the monitor's rounds and the progress notes. */
  function Own(t: Trace): Trace {
    if t == [] then []
    else if Note(t[|t| - 1]) then Own(t[..|t| - 1])
    else Own(t[..|t| - 1]) + [t[|t| - 1]]
  }

  lemma OwnGrows(l: Log)
    requires l.Then?
    ensures Own(TraceOf(l)) == Own(TraceOf(l.before)) + if Note(l.event) then [] else [l.event]
  {
    assert TraceOf(l)[..|TraceOf(l.before)|] == TraceOf(l.before);
  }

  /** Unless the log unlocks, no step of its own does. */
  lemma {:induction false} OwnUnlocks(l: Log, all: seq<string>)
    ensures StatusOf(l, all).open ==> forall i :: 0 <= i < |Own(TraceOf(l))| ==> !Own(TraceOf(l))[i].Unlock?
  {
    if l.Then? {
      OwnUnlocks(l.before, all);
      OwnGrows(l);
    }
  }

  lemma {:induction false} StatusRolled(l: Log, all: seq<string>)
    ensures StatusOf(l, all).rolled == Rolled(TraceOf(l))
  {
    if l.Then? {
      StatusRolled(l.before, all);
      assert TraceOf(l)[..|TraceOf(l.before)|] == TraceOf(l.before);
    }
  }

  lemma {:induction false} StatusPassed(l: Log, all: seq<string>)
    ensures StatusOf(l, all).clean && StatusOf(l, all).quiet ==>
              forall i :: 0 <= i < |TraceOf(l)| ==> Passed(TraceOf(l)[i])
    ensures StatusOf(l, all).open ==> forall i :: 0 <= i < |TraceOf(l)| ==> !TraceOf(l)[i].Unlock?
  {
    if l.Then? {
      StatusPassed(l.before, all);
    }
  }

  lemma {:induction false} OwnedWhere(l: Log, all: seq<string>) returns (j: int)
    requires StatusOf(l, all).owned
    ensures var t := TraceOf(l);
            0 <= j < |t| && t[j] == Ownership(true) && forall k :: j < k < |t| ==> t[k].Monitor? || t[k].Progress?
  {
    if l.event == Ownership(true) {
      j := |TraceOf(l)| - 1;
    } else {
      j := OwnedWhere(l.before, all);
    }
  }

  lemma {:induction false} GatedWhere(l: Log, all: seq<string>) returns (j: int)
    requires StatusOf(l, all).gated
    ensures var t := TraceOf(l); 0 <= j < |t| && FullGate(t[j], all) && forall k :: j < k < |t| ==> !Mutation(t[k])
  {
    if FullGate(l.event, all) {
      j := |TraceOf(l)| - 1;
    } else {
      j := GatedWhere(l.before, all);
    }
  }

  lemma {:induction false} LockedWhere(l: Log, all: seq<string>) returns (j: int)
    requires StatusOf(l, all).locked
    ensures 0 <= j < |TraceOf(l)| && TraceOf(l)[j] == Lock(true)
  {
    if l.event == Lock(true) {
      j := |TraceOf(l)| - 1;
    } else {
      j := LockedWhere(l.before, all);
    }
  }

  lemma {:induction false} BasedWhere(l: Log, all: seq<string>)
    requires StatusOf(l, all).based
    ensures BasedAt(TraceOf(l), |TraceOf(l)|)
  {
    var t := TraceOf(l);
    if StatusOf(l.before, all).based {
      BasedWhere(l.before, all);
      var was := TraceOf(l.before);
      var j, k :| 0 <= j < k < |was| && was[j] == Lock(true) && was[k] == Baseline(true);
      assert t[j] == Lock(true) && t[k] == Baseline(true);
    } else {
      var j := LockedWhere(l.before, all);
      assert t[j] == Lock(true) && t[|t| - 1] == Baseline(true);
    }
  }

  lemma {:induction false} ProbedWhere(l: Log, all: seq<string>)
    requires StatusOf(l, all).probed
    ensures ProbedAt(TraceOf(l), |TraceOf(l)|)
  {
    var t := TraceOf(l);
    if l.event == FinalDns(true) {
      assert t[|t| - 1] == FinalDns(true);
    } else {
      ProbedWhere(l.before, all);
      var k :| 0 <= k < |TraceOf(l.before)| && TraceOf(l.before)[k] == FinalDns(true);
      assert t[k] == FinalDns(true);
    }
  }

  /** What an event needs of the status it meets. */
  predicate Allowed(s: Status, e: Event) {
    && s.open
    && (Mutation(e) ==> s.owned && s.based && s.pending.None?)
    && (Rolling(e) ==> s.gated)
    && (e.Unlock? ==> s.clean && s.quiet && s.owned && s.probed && s.pending.None?)
  }

  /** Every event met a status that allowed it. */
  predicate Sound(l: Log, all: seq<string>) {
    l.Then? ==> Sound(l.before, all) && Allowed(StatusOf(l.before, all), l.event)
  }

  /** A rolled workload has been verified since, or is the one pending. */
  lemma {:induction false} VerifiedOrPending(l: Log, all: seq<string>, j: int)
    requires Sound(l, all) && 0 <= j < |TraceOf(l)| && Rolling(TraceOf(l)[j])
    ensures VerifiedBetween(TraceOf(l), all, j, |TraceOf(l)|)
            || StatusOf(l, all).pending == Some(TraceOf(l)[j].stage.rolling)
  {
    var t, was := TraceOf(l), TraceOf(l.before);
    if j < |was| {
      assert was[j] == t[j];
      VerifiedOrPending(l.before, all, j);
      if VerifiedBetween(was, all, j, |was|) {
        var k :| j < k < |was| && Verifies(was[k], all, was[j].stage.rolling);
        assert Verifies(t[k], all, t[j].stage.rolling);
      } else if Verifies(l.event, all, t[j].stage.rolling) {
        assert Verifies(t[|was|], all, t[j].stage.rolling);
      }
    }
  }

  lemma MutationGrows(l: Log, all: seq<string>, e: Event, i: int)
    requires Disciplined(TraceOf(l), all) && Allowed(StatusOf(l, all), e) && 0 <= i <= |TraceOf(l)|
    requires Mutation((TraceOf(l) + [e])[i])
    ensures Confirmed(TraceOf(l) + [e], i) && BasedAt(TraceOf(l) + [e], i)
  {
    var t, u := TraceOf(l), TraceOf(l) + [e];
    if i < |t| {
      assert Confirmed(t, i) && BasedAt(t, i);
    } else {
      BasedWhere(l, all);
    }
    ConfirmedGrows(l, all, e, i);
    var j, k :| 0 <= j < k < i && k < |t| && t[j] == Lock(true) && t[k] == Baseline(true);
    assert u[j] == Lock(true) && u[k] == Baseline(true);
  }

  lemma ConfirmedGrows(l: Log, all: seq<string>, e: Event, i: int)
    requires 0 <= i <= |TraceOf(l)| && if i < |TraceOf(l)| then Confirmed(TraceOf(l), i) else StatusOf(l, all).owned
    ensures Confirmed(TraceOf(l) + [e], i)
  {
    var t, u := TraceOf(l), TraceOf(l) + [e];
    var j: int;
    if i < |t| {
      j :| DirectlyAfter(t, j, i) && t[j] == Ownership(true);
    } else {
      j := OwnedWhere(l, all);
    }
    assert DirectlyAfter(u, j, i) && u[j] == Ownership(true);
  }

  lemma RollingGrows(l: Log, all: seq<string>, e: Event, i: int)
    requires Disciplined(TraceOf(l), all) && Allowed(StatusOf(l, all), e) && 0 <= i <= |TraceOf(l)|
             && Rolling((TraceOf(l) + [e])[i])
    ensures GatedAt(TraceOf(l) + [e], all, i)
  {
    var t, u := TraceOf(l), TraceOf(l) + [e];
    var j: int;
    if i < |t| {
      assert GatedAt(t, all, i);
      j :| NoMutationBetween(t, j, i) && FullGate(t[j], all);
    } else {
      j := GatedWhere(l, all);
    }
    assert NoMutationBetween(u, j, i) && FullGate(u[j], all);
  }

  lemma VerifyingGrows(l: Log, all: seq<string>, e: Event, j: int, i: int)
    requires Sound(l, all) && Disciplined(TraceOf(l), all) && Allowed(StatusOf(l, all), e) && 0 <= j < i <= |TraceOf(l)|
    requires Rolling(TraceOf(l)[j]) && (Mutation((TraceOf(l) + [e])[i]) || (TraceOf(l) + [e])[i].Unlock?)
    ensures VerifiedBetween(TraceOf(l) + [e], all, j, i)
  {
    var t, u := TraceOf(l), TraceOf(l) + [e];
    if i < |t| {
      assert VerifiedBetween(t, all, j, i);
    } else {
      VerifiedOrPending(l, all, j);
    }
    var k :| j < k < i && k < |t| && Verifies(t[k], all, t[j].stage.rolling);
    assert Verifies(u[k], all, u[j].stage.rolling);
  }

  lemma UnlockGrows(l: Log, all: seq<string>, e: Event)
    requires Allowed(StatusOf(l, all), e) && e.Unlock?
    ensures var u := TraceOf(l) + [e];
            Confirmed(u, |u| - 1) && ProbedAt(u, |u| - 1) && forall j :: 0 <= j < |u| - 1 ==> Passed(u[j])
  {
    var t, u := TraceOf(l), TraceOf(l) + [e];
    ConfirmedGrows(l, all, e, |t|);
    ProbedWhere(l, all);
    StatusPassed(l, all);
    var k :| 0 <= k < |t| && t[k] == FinalDns(true);
    assert u[k] == FinalDns(true);
  }

  lemma DisciplineGrows(l: Log, all: seq<string>, e: Event)
    requires Sound(l, all) && Disciplined(TraceOf(l), all) && Allowed(StatusOf(l, all), e)
    ensures Disciplined(TraceOf(l) + [e], all)
  {
    var t, u := TraceOf(l), TraceOf(l) + [e];
    StatusPassed(l, all);
    forall i | 0 <= i < |u| && Mutation(u[i])
      ensures Confirmed(u, i) && BasedAt(u, i)
    {
      MutationGrows(l, all, e, i);
    }
    forall i | 0 <= i < |u| && Rolling(u[i])
      ensures GatedAt(u, all, i)
    {
      RollingGrows(l, all, e, i);
    }
    forall i, j | 0 <= j < i < |u| && Rolling(u[j]) && (Mutation(u[i]) || u[i].Unlock?)
      ensures VerifiedBetween(u, all, j, i)
    {
      assert u[j] == t[j];
      VerifyingGrows(l, all, e, j, i);
    }
    if e.Unlock? {
      UnlockGrows(l, all, e);
    }
  }

  /** Meeting the conditions step by step is the discipline over the whole trace. */
  lemma {:induction false} SoundDisciplined(l: Log, all: seq<string>)
    requires Sound(l, all)
    ensures Disciplined(TraceOf(l), all)
  {
    if l.Then? {
      SoundDisciplined(l.before, all);
      DisciplineGrows(l.before, all, l.event);
    }
  }

  // ----- the plan

  /** Settings of the sequencing that callers choose. */
  datatype Options = Options(monitored: bool, prepares: bool, finalizes: bool)

  /** What a rollout of the workloads `a` and `b` with their partners `p` and `q` does when nothing
      fails, step by step. */
  function Script(a: string, b: string, p: string, q: string, legacy: bool, o: Options): Trace {
    var all := [a, b, p, q];
    [Lock(true), Baseline(true)] + Opening([a, b], all, legacy, o)
    + Restart(a, all) + Restart(b, all) + Restart(p, all) + Restart(q, all)
    + Finishing(all) + (if o.finalizes then Booting(all) else [])
    + [FinalDns(true), Ownership(true), Unlock(true)]
  }

  function Opening(anchors: seq<string>, all: seq<string>, legacy: bool, o: Options): Trace {
    var existing := if legacy then anchors else all;
    [Inspect(legacy, true), Health(Gate("existing", existing, [], false), true)]
    + (if o.prepares then Preparing(existing) else [])
    + [Ownership(true), Apply(Stage("frozen", "", legacy), true)]
    + (if legacy then Exposing(anchors, all) else [])
  }

  function Preparing(existing: seq<string>): Trace {
    [Ownership(true), Prepare(true), Health(Gate("prepared", existing, [], false), true)]
  }

  function Exposing(anchors: seq<string>, all: seq<string>): Trace {
    [Health(Gate("new", all, [], false), true), Ownership(true), Enroll(anchors, true), Ownership(true),
     Apply(Stage("paired", "", false), true), Health(Gate("paired", all, [], true), true)]
  }

  function Finishing(all: seq<string>): Trace {
    [Health(Gate("desired", all, all, true), true), Ownership(true), Apply(Stage("final", "", false), true),
     Health(Gate("final", all, all, true), true)]
  }

  function Booting(all: seq<string>): Trace {
    [Ownership(true), Finalize(true), Health(Gate("bootstrapped", all, all, true), true)]
  }

  function Restart(w: string, all: seq<string>): Trace {
    [Health(Gate("all", all, [], true), true), Ownership(true), Apply(Stage(w, w, false), true),
     Health(Gate(w, all, [w], true), true)]
  }

  /** The same step, failed. */
  function Failed(e: Event): Event {
    if e.Progress? then e else e.(ok := false)
  }

  /** `t` goes along `script` and stops where it stops, at the latest at the first step that failed. */
  predicate Follows(t: Trace, script: Trace) {
    && |t| <= |script|
    && forall i :: 0 <= i < |t| ==> t[i] == script[i] || (i + 1 == |t| && t[i] == Failed(script[i]))
  }

  /** Steps still to be taken. */
  datatype Plan = End | Step(event: Event, rest: Plan)

  function Listed(p: Plan): Trace {
    if p.End? then [] else [p.event] + Listed(p.rest)
  }

  function Gating(g: Gate, k: Plan): Plan {
    Step(Health(g, true), k)
  }

  function Changing(s: Stage, k: Plan): Plan {
    Step(Ownership(true), Step(Apply(s, true), k))
  }

  function Guarding(e: Event, k: Plan): Plan {
    Step(Ownership(true), Step(e, k))
  }

  function Supporting(existing: seq<string>, k: Plan): Plan {
    Guarding(Prepare(true), Gating(Gate("prepared", existing, [], false), k))
  }

  function CuttingOver(pairs: seq<Pair>, k: Plan): Plan {
    Gating(Gate("new", All(pairs), [], false),
           Guarding(Enroll(Primaries(pairs), true),
                    Changing(Stage("paired", "", false), Gating(Gate("paired", All(pairs), [], true), k))))
  }

  function Fronting(pairs: seq<Pair>, legacy: bool, o: Options, k: Plan): Plan {
    var existing := if legacy then Primaries(pairs) else All(pairs);
    var frozen := Changing(Stage("frozen", "", legacy), if legacy then CuttingOver(pairs, k) else k);
    Step(Inspect(legacy, true),
         Gating(Gate("existing", existing, [], false), if o.prepares then Supporting(existing, frozen) else frozen))
  }

  function RollingOne(all: seq<string>, w: string, k: Plan): Plan {
    Gating(Gate("all", all, [], true), Changing(Stage(w, w, false), Gating(Gate(w, all, [w], true), k)))
  }

  function RollingAll(all: seq<string>, i: nat, k: Plan): Plan
    requires i <= |all|
    decreases |all| - i
  {
    if i == |all| then k else RollingOne(all, all[i], RollingAll(all, i + 1, k))
  }

  function Ending(all: seq<string>, o: Options, k: Plan): Plan {
    var finalizing := Guarding(Finalize(true), Gating(Gate("bootstrapped", all, all, true), k));
    Gating(Gate("desired", all, all, true),
           Changing(Stage("final", "", false),
                    Gating(Gate("final", all, all, true), if o.finalizes then finalizing else k)))
  }

  function Staging(pairs: seq<Pair>, legacy: bool, o: Options, k: Plan): Plan {
    Fronting(pairs, legacy, o, RollingAll(All(pairs), 0, Ending(All(pairs), o, k)))
  }

  /** `e` is the next step, perhaps failed. */
  predicate Takes(e: Event, todo: Plan) {
    todo.Step? && !Note(todo.event) && Passed(todo.event) && (e == todo.event || e == Failed(todo.event))
  }

  /** The steps of the plan that the log has not come to. */
  function Left(l: Log, plan: Plan): Plan {
    if l.Start? then plan
    else if Note(l.event) || Left(l.before, plan).End? then Left(l.before, plan)
    else Left(l.before, plan).rest
  }

  /** Every step of the log was the next of the plan, and the steps before it had succeeded. */
  predicate Kept(l: Log, all: seq<string>, plan: Plan) {
    l.Then? ==>
      && Kept(l.before, all, plan)
      && (Note(l.event) || (StatusOf(l.before, all).clean && Takes(l.event, Left(l.before, plan))))
  }

  /** The steps taken so far, the last perhaps failed, and those to come make up the plan. */
  predicate Along(t: Trace, clean: bool, left: Trace, plan: Trace) {
    if clean then t + left == plan
    else t != [] && !Passed(t[|t| - 1]) && Follows(t, plan)
  }

  lemma AlongStep(t: Trace, e: Event, todo: Plan, plan: Trace)
    requires Along(t, true, Listed(todo), plan) && Takes(e, todo)
    ensures Along(t + [e], Passed(e), Listed(todo.rest), plan)
  {
    assert t + [todo.event] + Listed(todo.rest) == plan;
  }

  /** Keeping to the plan step by step is following it over the whole trace. */
  lemma {:induction false} KeptAlong(l: Log, all: seq<string>, plan: Plan)
    requires Kept(l, all, plan)
    ensures Along(Own(TraceOf(l)), StatusOf(l, all).clean, Listed(Left(l, plan)), Listed(plan))
  {
    if l.Then? {
      KeptAlong(l.before, all, plan);
      OwnGrows(l);
      if !Note(l.event) {
        AlongStep(Own(TraceOf(l.before)), l.event, Left(l.before, plan), Listed(plan));
      }
    }
  }

  lemma AlongFollows(t: Trace, clean: bool, left: Trace, plan: Trace)
    requires Along(t, clean, left, plan)
    ensures Follows(t, plan) && (clean && left == [] ==> t == plan)
  {
  }

  const Closing: Plan := Step(FinalDns(true), Step(Ownership(true), Step(Unlock(true), End)))

  function Whole(pairs: seq<Pair>, legacy: bool, o: Options): Plan {
    Step(Lock(true), Step(Baseline(true), Staging(pairs, legacy, o, Closing)))
  }

  // ----- the cluster, the contexts and the monitor

  /** Everything outside the sequencing: each step's outcome is free, the monitor may run a round at
      any time, and either context may be cancelled at any time. */
  class Cluster {
    ghost const all: seq<string>
    ghost const plan: Plan
    ghost var status: Status
    ghost var todo: Plan
    /** Whether the services still select by legacy labels. */
    const legacy: bool
    var log: Log
    var cancelled: bool
    var parentCancelled: bool
    var monitoring: bool
    var monitorFailed: bool

    constructor (legacy: bool, ghost pairs: seq<Pair>, ghost o: Options)
      ensures Ready(pairs, o) && this.legacy == legacy
    {
      this.legacy, all, plan, log := legacy, All(pairs), Whole(pairs, legacy, o), Start;
      status, todo := StatusOf(Start, All(pairs)), Whole(pairs, legacy, o);
      cancelled, parentCancelled, monitoring, monitorFailed := false, false, false, false;
    }

    /** The trace is sound and along the plan, a failed monitor round was noticed, and the rollout is
        cancelled for a reason. */
    ghost predicate Valid()
      reads this
    {
      && Sound(log, all) && status == StatusOf(log, all) && (!status.quiet ==> monitorFailed)
      && Kept(log, all, plan) && todo == Left(log, plan) && (cancelled ==> parentCancelled || monitorFailed)
    }

    /** Nothing has happened yet. */
    ghost predicate Ready(pairs: seq<Pair>, o: Options)
      reads this
    {
      && Due(plan) && plan == Whole(pairs, legacy, o) && all == All(pairs) && log == Start
      && !monitoring && !monitorFailed
    }

    /** The rollout is under way and these steps are next. */
    ghost predicate Due(k: Plan)
      reads this
    {
      Valid() && status.open && status.clean && todo == k
    }

    /** The rollout stopped because a step failed or it was cancelled. */
    ghost predicate Stopped()
      reads this
    {
      Valid() && status.open && (!status.clean || cancelled)
    }


    /** An event; a step of the rollout's own is the one due. */
    method Record(e: Event)
      requires Valid() && Allowed(status, e) && (e == Monitor(false) ==> monitorFailed)
      requires Note(e) || (status.clean && Takes(e, todo))
      modifies `log, `status, `todo
      ensures Valid() && log == Then(old(log), e) && status == Next(old(status), e, all)
      ensures todo == if Note(e) then old(todo) else old(todo).rest
    {
      log := Then(log, e);
      if !Note(e) {
        todo := todo.rest;
      }
      status := Next(status, e, all);
    }

    /** One round of the monitor; a failure cancels the rollout. */
    method Round()
      requires Valid() && status.open && !monitorFailed
      modifies `log, `status, `todo, `cancelled, `monitorFailed
      ensures Valid() && status == old(status).(quiet := status.quiet) && todo == old(todo)
      ensures old(cancelled) ==> cancelled
    {
      var ok: bool := *;
      monitorFailed := !ok;
      NextMonitor(status, ok, all);
      Record(Monitor(ok));
      cancelled := cancelled || !ok;
    }

    /** Cancelling the caller's context cancels the rollout's. */
    method MayCancel()
      modifies `cancelled, `parentCancelled
      ensures (old(cancelled) ==> cancelled) && (old(parentCancelled) ==> parentCancelled)
      ensures cancelled ==> old(cancelled) || parentCancelled
    {
      var stop: bool := *;
      parentCancelled := parentCancelled || stop;
      cancelled := cancelled || parentCancelled;
    }

    /** Monitor rounds and cancellations that fall between two steps. */
    method Meanwhile()
      requires Valid() && status.open
      modifies `log, `status, `todo, `cancelled, `parentCancelled, `monitorFailed
      ensures Valid() && status == old(status).(quiet := status.quiet) && todo == old(todo)
      ensures (old(cancelled) ==> cancelled) && (old(parentCancelled) ==> parentCancelled)
      ensures !monitoring ==> log == old(log) && monitorFailed == old(monitorFailed) && status == old(status)
    {
      MayCancel();
      if monitoring {
        Rounds();
      }
    }

    /** Any number of rounds, ending with the first that fails. */
    method Rounds()
      requires Valid() && status.open
      modifies `log, `status, `todo, `cancelled, `monitorFailed
      ensures Valid() && status == old(status).(quiet := status.quiet) && todo == old(todo)
      ensures old(cancelled) ==> cancelled
    {
      var rounds: nat := *;
      ghost var was, next := status, todo;
      while rounds > 0 && !monitorFailed
        invariant Valid() && status == was.(quiet := status.quiet) && todo == next
        invariant old(cancelled) ==> cancelled
        decreases rounds
      {
        Round();
        rounds := rounds - 1;
      }
    }

    /** A step of the rollout, at some later moment. */
    method Do(e: Event)
      requires Valid() && status.open && !e.Monitor? && !e.Unlock? && Allowed(status, e)
      requires e.Progress? || (status.clean && Takes(e, todo))
      modifies this
      ensures Valid() && monitoring == old(monitoring) && status == Next(old(status), e, all).(quiet := status.quiet)
      ensures todo == if e.Progress? then old(todo) else old(todo).rest
      ensures !monitoring ==>
                && log == Then(old(log), e) && monitorFailed == old(monitorFailed)
                && status == Next(old(status), e, all)
    {
      ghost var was := status;
      Meanwhile();
      NextQuiet(was, status.quiet, e, all);
      Record(e);
    }

    /** The step due, which succeeds or fails. */
    method Take(e: Event, ghost k: Plan) returns (ok: bool)
      requires Due(Step(e, k)) && !Note(e) && !e.Unlock? && e.ok && Allowed(status, e) && Allowed(status, Failed(e))
      modifies this
      ensures (ok ==> Due(k)) && (!ok ==> Stopped() && !status.clean) && monitoring == old(monitoring)
      ensures status == Next(old(status), if ok then e else Failed(e), all).(quiet := status.quiet)
      ensures !monitoring ==>
                && log == Then(old(log), if ok then e else Failed(e)) && monitorFailed == old(monitorFailed)
                && status.quiet == old(status.quiet)
    {
      ok := *;
      Do(if ok then e else Failed(e));
    }

    // ----- the steps

    method Err() returns (done: bool)
      requires Valid() && status.open
      modifies this
      ensures Valid() && monitoring == old(monitoring) && status == old(status).(quiet := status.quiet)
      ensures todo == old(todo) && done == cancelled
      ensures !monitoring ==> log == old(log) && monitorFailed == old(monitorFailed) && status == old(status)
    {
      Meanwhile();
      return cancelled;
    }

    /** The `health` closure: a gate between two context checks. */
    method Healthy(g: Gate, ghost k: Plan) returns (ok: bool)
      requires Due(Gating(g, k))
      modifies this
      ensures (ok ==> Due(k)) && (!ok ==> Stopped())
      ensures monitoring == old(monitoring) && status.rolled == old(status.rolled)
      ensures status.based == old(status.based) && (old(status.pending).None? ==> status.pending.None?)
      ensures ok && g.required == all && g.pairSelectors ==> status.gated
      ensures ok && g.required == all && g.pairSelectors && old(status.pending).Some?
              && old(status.pending).value in g.desired ==>
                status.pending.None?
    {
      var done := Err();
      if done {
        return false;
      }
      ok := Take(Health(g, true), k);
      if ok {
        done := Err();
        ok := !done;
      }
    }

    /** Ownership, then the context. */
    method Confirm(ghost k: Plan) returns (ok: bool)
      requires Due(Step(Ownership(true), k))
      modifies this
      ensures (ok ==> Due(k)) && (!ok ==> Stopped())
      ensures monitoring == old(monitoring) && status.rolled == old(status.rolled)
      ensures status.based == old(status.based) && status.pending == old(status.pending)
      ensures ok ==> status.owned && status.gated == old(status.gated)
    {
      ok := Take(Ownership(true), k);
      if ok {
        var done := Err();
        ok := !done;
      }
    }

    /** The `apply` closure: context, ownership, context, progress note, change, context. */
    method Change(stage: Stage, ghost k: Plan) returns (ok: bool)
      requires Due(Changing(stage, k))
      requires status.based && status.pending.None? && (stage.rolling != "" ==> status.gated)
      modifies this
      ensures (ok ==> Due(k)) && (!ok ==> Stopped())
      ensures monitoring == old(monitoring) && status.based
      ensures ok ==> status.pending == if stage.rolling != "" then Some(stage.rolling) else None
      ensures ok ==> status.rolled
                     == if stage.rolling != "" then old(status.rolled) + [stage.rolling] else old(status.rolled)
    {
      var done := Err();
      if done {
        return false;
      }
      ok := Confirm(Step(Apply(stage, true), k));
      if ok {
        ok := Install(stage, k);
      }
    }

    /** The note and the change itself. */
    method Install(stage: Stage, ghost k: Plan) returns (ok: bool)
      requires Due(Step(Apply(stage, true), k)) && status.owned && status.based && status.pending.None?
      requires stage.rolling != "" ==> status.gated
      modifies this
      ensures (ok ==> Due(k)) && (!ok ==> Stopped())
      ensures monitoring == old(monitoring) && status.based
      ensures ok ==> status.pending == if stage.rolling != "" then Some(stage.rolling) else None
      ensures ok ==> status.rolled
                     == if stage.rolling != "" then old(status.rolled) + [stage.rolling] else old(status.rolled)
    {
      var noted: bool := *;
      if noted {
        Do(Progress);
      }
      ok := Take(Apply(stage, true), k);
      if ok {
        var done := Err();
        ok := !done;
      }
    }

    /** A change outside the stages. */
    method Guarded(e: Event, ghost k: Plan) returns (ok: bool)
      requires (e.Prepare? || e.Enroll? || e.Finalize?) && e.ok
      requires Due(Guarding(e, k)) && status.based && status.pending.None?
      modifies this
      ensures (ok ==> Due(k)) && (!ok ==> Stopped())
      ensures monitoring == old(monitoring) && status.based && status.pending.None?
      ensures ok ==> status.rolled == old(status.rolled)
    {
      ok := Confirm(Step(e, k));
      if ok {
        ok := Take(e, k);
      }
    }
  }

  // ----- the pairs

  function All(pairs: seq<Pair>): seq<string> {
    Primaries(pairs) + Partners(pairs)
  }

  function Primaries(pairs: seq<Pair>): (r: seq<string>)
    ensures |r| == |pairs| && forall i :: 0 <= i < |pairs| ==> r[i] == pairs[i].primary.workload
  {
    seq(|pairs|, i requires 0 <= i < |pairs| => pairs[i].primary.workload)
  }

  function Partners(pairs: seq<Pair>): (r: seq<string>)
    ensures |r| == |pairs| && forall i :: 0 <= i < |pairs| ==> r[i] == pairs[i].partner.workload
  {
    seq(|pairs|, i requires 0 <= i < |pairs| => pairs[i].partner.workload)
  }

  predicate MemberOk(m: Member) {
    m.workload != "" && m.node != ""
  }

  predicate PairOk(p: Pair) {
    && p.name != "" && p.address in {"192.168.10.136", "192.168.10.139"}
    && p.primary.node != p.partner.node && MemberOk(p.primary) && MemberOk(p.partner)
  }

  predicate Distinct(s: seq<string>) {
    forall i, j :: 0 <= i < j < |s| ==> s[i] != s[j]
  }

  /** Two pairs with distinct names and addresses, members on different nodes, four distinct workloads. */
  predicate ValidPairs(pairs: seq<Pair>) {
    && |pairs| == 2 && PairOk(pairs[0]) && PairOk(pairs[1])
    && pairs[0].name != pairs[1].name && pairs[0].address != pairs[1].address && Distinct(All(pairs))
  }

  method ValidatePairs(pairs: seq<Pair>) returns (ok: bool)
    ensures ok == ValidPairs(pairs)
  {
    if |pairs| != 2 {
      return false;
    }
    var all := All(pairs);
    assert all == [pairs[0].primary.workload, pairs[1].primary.workload, pairs[0].partner.workload,
                   pairs[1].partner.workload];
    var names: set<string>, addresses: set<string>, members: set<string> := {}, {}, {};
    var i := 0;
    while i < 2
      invariant 0 <= i <= 2
      invariant i == 0 ==> names == {} && addresses == {} && members == {}
      invariant i >= 1 ==> PairOk(pairs[0]) && pairs[0].primary.workload != pairs[0].partner.workload
      invariant i == 1 ==> names == {pairs[0].name} && addresses == {pairs[0].address}
                           && members == {pairs[0].primary.workload, pairs[0].partner.workload}
      invariant i == 2 ==> ValidPairs(pairs)
    {
      var p := pairs[i];
      if p.name == "" || p.name in names {
        return false;
      }
      names := names + {p.name};
      if (p.address != "192.168.10.136" && p.address != "192.168.10.139") || p.address in addresses {
        return false;
      }
      addresses := addresses + {p.address};
      if p.primary.node == p.partner.node {
        return false;
      }
      if p.primary.workload == "" || p.primary.node == "" || p.primary.workload in members {
        Overlaps(pairs, all, i);
        return false;
      }
      members := members + {p.primary.workload};
      if p.partner.workload == "" || p.partner.node == "" || p.partner.workload in members {
        Overlaps(pairs, all, i);
        return false;
      }
      members := members + {p.partner.workload};
      i := i + 1;
    }
    return true;
  }

  lemma Overlaps(pairs: seq<Pair>, all: seq<string>, i: nat)
    requires |pairs| == 2 && all == All(pairs)
    ensures all == [pairs[0].primary.workload, pairs[1].primary.workload, pairs[0].partner.workload,
                    pairs[1].partner.workload]
    ensures Distinct(all) ==>
              && all[0] != all[1] && all[0] != all[2] && all[0] != all[3] && all[1] != all[2] && all[1] != all[3]
              && all[2] != all[3]
  {
  }

  // ----- the run

  /** From inspection to the first full gate. */
  method Front(pairs: seq<Pair>, c: Cluster, o: Options, ghost k: Plan) returns (ok: bool)
    requires c.Due(Fronting(pairs, c.legacy, o, k)) && c.status.based && c.status.pending.None? && c.all == All(pairs)
    modifies c
    ensures (ok ==> c.Due(k)) && (!ok ==> c.Stopped())
    ensures c.monitoring == old(c.monitoring) && c.status.based
    ensures ok ==> c.status.pending.None? && c.status.rolled == old(c.status.rolled)
  {
    var anchors, all := Primaries(pairs), All(pairs);
    var existing := if c.legacy then anchors else all;
    ghost var later := if c.legacy then CuttingOver(pairs, k) else k;
    ghost var frozen := Changing(Stage("frozen", "", c.legacy), later);
    ghost var next := if o.prepares then Supporting(existing, frozen) else frozen;
    ok := c.Take(Inspect(c.legacy, true), Gating(Gate("existing", existing, [], false), next));
    if !ok {
      return;
    }
    ok := c.Healthy(Gate("existing", existing, [], false), next);
    if !ok {
      return;
    }
    if o.prepares {
      ok := Support(existing, c, frozen);
      if !ok {
        return;
      }
    }
    ok := c.Change(Stage("frozen", "", c.legacy), later);
    if ok && c.legacy {
      ok := Cutover(pairs, c, k);
    }
  }

  /** Supporting resources, and the gate after them. */
  method Support(existing: seq<string>, c: Cluster, ghost k: Plan) returns (ok: bool)
    requires c.Due(Supporting(existing, k)) && c.status.based && c.status.pending.None?
    modifies c
    ensures (ok ==> c.Due(k)) && (!ok ==> c.Stopped())
    ensures c.monitoring == old(c.monitoring) && c.status.based
    ensures ok ==> c.status.pending.None? && c.status.rolled == old(c.status.rolled)
  {
    ghost var gate := Gate("prepared", existing, [], false);
    ok := c.Guarded(Prepare(true), Gating(gate, k));
    if ok {
      ok := c.Healthy(Gate("prepared", existing, [], false), k);
    }
  }

  /** Legacy selectors: enrol the existing endpoints, then expose both members. */
  method Cutover(pairs: seq<Pair>, c: Cluster, ghost k: Plan) returns (ok: bool)
    requires c.Due(CuttingOver(pairs, k)) && c.status.based && c.status.pending.None? && c.all == All(pairs)
    modifies c
    ensures (ok ==> c.Due(k)) && (!ok ==> c.Stopped())
    ensures c.monitoring == old(c.monitoring) && c.status.based
    ensures ok ==> c.status.pending.None? && c.status.rolled == old(c.status.rolled)
  {
    ghost var exposed := Gating(Gate("paired", All(pairs), [], true), k);
    ghost var paired := Changing(Stage("paired", "", false), exposed);
    ok := c.Healthy(Gate("new", All(pairs), [], false), Guarding(Enroll(Primaries(pairs), true), paired));
    if !ok {
      return;
    }
    ok := c.Guarded(Enroll(Primaries(pairs), true), paired);
    if !ok {
      return;
    }
    ok := c.Change(Stage("paired", "", false), exposed);
    if !ok {
      return;
    }
    ok := c.Healthy(Gate("paired", All(pairs), [], true), k);
  }

  /** One workload, between two gates on all of them. */
  method RollOne(all: seq<string>, workload: string, c: Cluster, ghost k: Plan) returns (ok: bool)
    requires c.Due(RollingOne(all, workload, k)) && c.status.based && c.status.pending.None?
    requires c.all == all && workload != ""
    modifies c
    ensures (ok ==> c.Due(k)) && (!ok ==> c.Stopped())
    ensures c.monitoring == old(c.monitoring) && c.status.based
    ensures ok ==> c.status.pending.None? && c.status.rolled == old(c.status.rolled) + [workload]
  {
    ghost var verify := Gating(Gate(workload, all, [workload], true), k);
    ok := c.Healthy(Gate("all", all, [], true), Changing(Stage(workload, workload, false), verify));
    if !ok {
      return;
    }
    ok := c.Change(Stage(workload, workload, false), verify);
    if !ok {
      return;
    }
    ok := c.Healthy(Gate(workload, all, [workload], true), k);
  }

  method Roll(all: seq<string>, c: Cluster, ghost k: Plan) returns (ok: bool)
    requires c.Due(RollingAll(all, 0, k)) && c.status.based && c.status.pending.None? && c.all == all
    requires forall i :: 0 <= i < |all| ==> all[i] != ""
    modifies c
    ensures (ok ==> c.Due(k)) && (!ok ==> c.Stopped())
    ensures c.monitoring == old(c.monitoring) && c.status.based
    ensures ok ==> c.status.pending.None? && c.status.rolled == old(c.status.rolled) + all
  {
    var i := 0;
    while i < |all|
      invariant 0 <= i <= |all| && c.Due(RollingAll(all, i, k)) && c.monitoring == old(c.monitoring)
      invariant c.status.based && c.status.pending.None? && c.status.rolled == old(c.status.rolled) + all[..i]
    {
      ok := RollOne(all, all[i], c, RollingAll(all, i + 1, k));
      if !ok {
        return;
      }
      assert all[..i + 1] == all[..i] + [all[i]];
      i := i + 1;
    }
    assert all[..i] == all;
    ok := true;
  }

  /** The last gates, the final stage and the bootstrap. */
  method Back(all: seq<string>, c: Cluster, o: Options, ghost k: Plan) returns (ok: bool)
    requires c.Due(Ending(all, o, k)) && c.status.based && c.status.pending.None? && c.all == all
    modifies c
    ensures (ok ==> c.Due(k)) && (!ok ==> c.Stopped())
    ensures c.monitoring == old(c.monitoring) && c.status.based
    ensures ok ==> c.status.pending.None? && c.status.rolled == old(c.status.rolled)
  {
    ghost var booted := Gating(Gate("bootstrapped", all, all, true), k);
    ghost var later := if o.finalizes then Guarding(Finalize(true), booted) else k;
    ghost var checked := Gating(Gate("final", all, all, true), later);
    ok := c.Healthy(Gate("desired", all, all, true), Changing(Stage("final", "", false), checked));
    if !ok {
      return;
    }
    ok := c.Change(Stage("final", "", false), checked);
    if !ok {
      return;
    }
    ok := c.Healthy(Gate("final", all, all, true), later);
    if !ok {
      return;
    }
    if o.finalizes {
      ok := c.Guarded(Finalize(true), booted);
      if !ok {
        return;
      }
      ok := c.Healthy(Gate("bootstrapped", all, all, true), k);
      if !ok {
        return;
      }
    }
    var done := c.Err();
    ok := !done;
  }

  method RunStages(pairs: seq<Pair>, c: Cluster, o: Options, ghost k: Plan) returns (ok: bool)
    requires c.Due(Staging(pairs, c.legacy, o, k)) && c.status.based && c.status.pending.None?
    requires c.all == All(pairs) && ValidPairs(pairs)
    modifies c
    ensures (ok ==> c.Due(k)) && (!ok ==> c.Stopped())
    ensures c.monitoring == old(c.monitoring) && c.status.based
    ensures ok ==> c.status.pending.None? && c.status.rolled == old(c.status.rolled) + All(pairs)
  {
    ghost var ending := Ending(All(pairs), o, k);
    ok := Front(pairs, c, o, RollingAll(All(pairs), 0, ending));
    if !ok {
      return;
    }
    ok := Roll(All(pairs), c, ending);
    if !ok {
      return;
    }
    ok := Back(All(pairs), c, o, k);
  }

  // ----- the plan is the script

  lemma GatingListed(g: Gate, k: Plan)
    ensures Listed(Gating(g, k)) == [Health(g, true)] + Listed(k)
  {
  }

  lemma GuardingListed(e: Event, k: Plan)
    ensures Listed(Guarding(e, k)) == [Ownership(true), e] + Listed(k)
  {
    assert Listed(Step(e, k)) == [e] + Listed(k);
  }

  /** A change and the gate after it. */
  lemma ChangingListed(s: Stage, g: Gate, k: Plan)
    ensures Listed(Changing(s, k)) == [Ownership(true), Apply(s, true)] + Listed(k)
    ensures Listed(Changing(s, Gating(g, k))) == [Ownership(true), Apply(s, true), Health(g, true)] + Listed(k)
  {
    GuardingListed(Apply(s, true), k);
    GuardingListed(Apply(s, true), Gating(g, k));
    GatingListed(g, k);
  }

  lemma RollingOneListed(all: seq<string>, w: string, k: Plan)
    ensures Listed(RollingOne(all, w, k)) == Restart(w, all) + Listed(k)
  {
    var verify := Gate(w, all, [w], true);
    ChangingListed(Stage(w, w, false), verify, k);
    GatingListed(Gate("all", all, [], true), Changing(Stage(w, w, false), Gating(verify, k)));
  }

  lemma RollingListed(all: seq<string>, k: Plan)
    requires |all| == 4
    ensures Listed(RollingAll(all, 0, k))
            == Restart(all[0], all) + Restart(all[1], all) + Restart(all[2], all) + Restart(all[3], all) + Listed(k)
  {
    RollingOneListed(all, all[0], RollingAll(all, 1, k));
    RollingOneListed(all, all[1], RollingAll(all, 2, k));
    RollingOneListed(all, all[2], RollingAll(all, 3, k));
    RollingOneListed(all, all[3], RollingAll(all, 4, k));
  }

  lemma CuttingOverListed(pairs: seq<Pair>, k: Plan)
    ensures Listed(CuttingOver(pairs, k)) == Exposing(Primaries(pairs), All(pairs)) + Listed(k)
  {
    var gate := Gate("paired", All(pairs), [], true);
    var paired := Changing(Stage("paired", "", false), Gating(gate, k));
    ChangingListed(Stage("paired", "", false), gate, k);
    GuardingListed(Enroll(Primaries(pairs), true), paired);
    GatingListed(Gate("new", All(pairs), [], false), Guarding(Enroll(Primaries(pairs), true), paired));
  }

  lemma SupportingListed(existing: seq<string>, k: Plan)
    ensures Listed(Supporting(existing, k)) == Preparing(existing) + Listed(k)
  {
    var gate := Gate("prepared", existing, [], false);
    GatingListed(gate, k);
    GuardingListed(Prepare(true), Gating(gate, k));
  }

  lemma FrozenListed(pairs: seq<Pair>, legacy: bool, k: Plan)
    ensures Listed(Changing(Stage("frozen", "", legacy), if legacy then CuttingOver(pairs, k) else k))
            == [Ownership(true), Apply(Stage("frozen", "", legacy), true)]
               + (if legacy then Exposing(Primaries(pairs), All(pairs)) else [])
               + Listed(k)
  {
    CuttingOverListed(pairs, k);
    ChangingListed(Stage("frozen", "", legacy), Gate("", [], [], false), if legacy then CuttingOver(pairs, k) else k);
  }

  lemma InspectingListed(legacy: bool, g: Gate, k: Plan)
    ensures Listed(Step(Inspect(legacy, true), Gating(g, k))) == [Inspect(legacy, true), Health(g, true)] + Listed(k)
  {
    GatingListed(g, k);
  }

  lemma FrontingListed(pairs: seq<Pair>, legacy: bool, o: Options, k: Plan)
    ensures Listed(Fronting(pairs, legacy, o, k)) == Opening(Primaries(pairs), All(pairs), legacy, o) + Listed(k)
  {
    var existing := if legacy then Primaries(pairs) else All(pairs);
    var frozen := Changing(Stage("frozen", "", legacy), if legacy then CuttingOver(pairs, k) else k);
    var next := if o.prepares then Supporting(existing, frozen) else frozen;
    FrozenListed(pairs, legacy, k);
    SupportingListed(existing, frozen);
    InspectingListed(legacy, Gate("existing", existing, [], false), next);
    var support := if o.prepares then Preparing(existing) else [];
    assert Listed(next) == support + Listed(frozen);
    Regroup([Inspect(legacy, true), Health(Gate("existing", existing, [], false), true)], support,
            [Ownership(true), Apply(Stage("frozen", "", legacy), true)],
            if legacy then Exposing(Primaries(pairs), All(pairs)) else [], Listed(k));
  }

  lemma Regroup(a: Trace, b: Trace, c: Trace, d: Trace, e: Trace)
    ensures a + (b + (c + d + e)) == a + b + c + d + e
    ensures a + (b + (c + (d + e))) == a + b + c + d + e
  {
  }

  lemma EndingListed(all: seq<string>, o: Options, k: Plan)
    ensures Listed(Ending(all, o, k))
            == Finishing(all) + (if o.finalizes then Booting(all) else []) + Listed(k)
  {
    var boot, final := Gate("bootstrapped", all, all, true), Gate("final", all, all, true);
    GatingListed(boot, k);
    GuardingListed(Finalize(true), Gating(boot, k));
    var later := if o.finalizes then Guarding(Finalize(true), Gating(boot, k)) else k;
    ChangingListed(Stage("final", "", false), final, later);
    GatingListed(Gate("desired", all, all, true), Changing(Stage("final", "", false), Gating(final, later)));
  }

  /** The plan the rollout keeps to is the script. */
  lemma PlanIsScript(pairs: seq<Pair>, legacy: bool, o: Options)
    requires ValidPairs(pairs)
    ensures Listed(Whole(pairs, legacy, o)) == ScriptFor(pairs, legacy, o)
  {
    var all := All(pairs);
    assert Primaries(pairs) == [pairs[0].primary.workload, pairs[1].primary.workload];
    assert all == [pairs[0].primary.workload, pairs[1].primary.workload, pairs[0].partner.workload,
                   pairs[1].partner.workload];
    var ending, opening := Ending(all, o, Closing), Opening(Primaries(pairs), all, legacy, o);
    EndingListed(all, o, Closing);
    RollingListed(all, ending);
    FrontingListed(pairs, legacy, o, RollingAll(all, 0, ending));
    ClosingListed();
    OpeningListed(Staging(pairs, legacy, o, Closing));
    var boot := if o.finalizes then Booting(all) else [];
    Flatten([Lock(true), Baseline(true)], opening, Restart(all[0], all), Restart(all[1], all), Restart(all[2], all),
            Restart(all[3], all), Finishing(all), boot, [FinalDns(true), Ownership(true), Unlock(true)]);
  }

  lemma Flatten(a: Trace, b: Trace, p: Trace, q: Trace, r: Trace, s: Trace, x: Trace, y: Trace, z: Trace)
    ensures a + (b + (p + q + r + s + (x + y + z))) == a + b + p + q + r + s + x + y + z
  {
    var rolls := p + q + r + s;
    assert b + (rolls + (x + y + z)) == b + rolls + x + y + z;
    assert b + rolls == b + p + q + r + s;
    Regroup(a, b + rolls, x, y, z);
    Regroup(a, b + p, q, r, s);
  }

  lemma ClosingListed()
    ensures Listed(Closing) == [FinalDns(true), Ownership(true), Unlock(true)]
  {
    GuardingListed(Unlock(true), End);
  }

  lemma OpeningListed(k: Plan)
    ensures Listed(Step(Lock(true), Step(Baseline(true), k))) == [Lock(true), Baseline(true)] + Listed(k)
  {
    assert Listed(Step(Baseline(true), k)) == [Baseline(true)] + Listed(k);
  }

  function ScriptFor(pairs: seq<Pair>, legacy: bool, o: Options): Trace
    requires ValidPairs(pairs)
  {
    Script(pairs[0].primary.workload, pairs[1].primary.workload, pairs[0].partner.workload,
           pairs[1].partner.workload, legacy, o)
  }

  /** The steps taken are those of the script up to the first that fails; `done` if all of them were. */
  ghost predicate Scripted(t: Trace, pairs: seq<Pair>, legacy: bool, o: Options, done: bool)
    requires ValidPairs(pairs)
  {
    Follows(Own(t), ScriptFor(pairs, legacy, o)) && (done <==> Own(t) == ScriptFor(pairs, legacy, o))
  }

  /** A whole rollout. Whatever fails, is cancelled or is interleaved, the trace is disciplined; it
      succeeds only by unlocking, and then every workload was rolled exactly once, in order, and every
      step, gate and DNS round, the monitor's included, had succeeded. The rollout's own steps are those
      of the script up to the first that fails, all of them exactly on success; and it gives up only
      because of invalid pairs, no monitoring, a step that failed, a failed monitor round or its caller. */
  method Run(pairs: seq<Pair>, c: Cluster, o: Options) returns (ok: bool)
    requires c.Ready(pairs, o)
    modifies c
    ensures Disciplined(TraceOf(c.log), All(pairs))
    ensures ok <==> c.log.Then? && c.log.event == Unlock(true)
    ensures ok ==> ValidPairs(pairs) && Rolled(TraceOf(c.log)) == All(pairs)
    ensures ok ==> forall i :: 0 <= i < |TraceOf(c.log)| ==> Passed(TraceOf(c.log)[i])
    ensures if ValidPairs(pairs) && o.monitored then Scripted(TraceOf(c.log), pairs, c.legacy, o, ok)
            else TraceOf(c.log) == []
    ensures !ok && ValidPairs(pairs) && o.monitored ==>
              || c.parentCancelled || c.monitorFailed
              || (Own(TraceOf(c.log)) != [] && !Passed(Own(TraceOf(c.log))[|Own(TraceOf(c.log))| - 1]))
  {
    ok := ValidatePairs(pairs);
    if ok && o.monitored {
      ok := Guard(pairs, c, o);
      if ok {
        ok := Close(c);
      } else {
        StatusPassed(c.log, c.all);
      }
      OwnScripted(c.log, pairs, c.legacy, o);
      if !ok {
        NotScripted(c.log, pairs, c.legacy, o);
      }
    } else {
      ok := false;
    }
    SoundDisciplined(c.log, c.all);
    StatusRolled(c.log, c.all);
    StatusPassed(c.log, c.all);
  }

  /** Where a log of the plan ends, its own steps are the script's, up to the first that failed. */
  lemma OwnScripted(l: Log, pairs: seq<Pair>, legacy: bool, o: Options)
    requires ValidPairs(pairs) && Kept(l, All(pairs), Whole(pairs, legacy, o))
    ensures var t, clean := Own(TraceOf(l)), StatusOf(l, All(pairs)).clean;
            && Follows(t, ScriptFor(pairs, legacy, o)) && (!clean ==> t != [] && !Passed(t[|t| - 1]))
            && (clean && Left(l, Whole(pairs, legacy, o)).End? ==> t == ScriptFor(pairs, legacy, o))
  {
    var plan, clean := Whole(pairs, legacy, o), StatusOf(l, All(pairs)).clean;
    KeptAlong(l, All(pairs), plan);
    AlongFollows(Own(TraceOf(l)), clean, Listed(Left(l, plan)), Listed(plan));
    PlanIsScript(pairs, legacy, o);
  }

  /** The script ends by unlocking. */
  lemma ScriptUnlocks(t: Trace, pairs: seq<Pair>, legacy: bool, o: Options)
    requires ValidPairs(pairs) && t == ScriptFor(pairs, legacy, o)
    ensures t != [] && t[|t| - 1] == Unlock(true)
  {
  }

  lemma NotScripted(l: Log, pairs: seq<Pair>, legacy: bool, o: Options)
    requires ValidPairs(pairs) && Kept(l, All(pairs), Whole(pairs, legacy, o))
    requires var s := StatusOf(l, All(pairs)); s.open || !s.clean
    ensures Own(TraceOf(l)) != ScriptFor(pairs, legacy, o)
  {
    OwnScripted(l, pairs, legacy, o);
    OwnUnlocks(l, All(pairs));
    if Own(TraceOf(l)) == ScriptFor(pairs, legacy, o) {
      ScriptUnlocks(Own(TraceOf(l)), pairs, legacy, o);
    }
  }

  /** From the lock to the joined monitor. */
  method Guard(pairs: seq<Pair>, c: Cluster, o: Options) returns (ok: bool)
    requires c.Ready(pairs, o) && ValidPairs(pairs)
    modifies c
    ensures c.Valid() && c.status.open && !c.monitoring
    ensures ok ==> c.Due(Closing) && !c.monitorFailed && c.status.rolled == All(pairs) && c.status.pending.None?
    ensures !ok ==> !c.status.clean || c.parentCancelled || c.monitorFailed
  {
    var done := c.Err();
    if done {
      return false;
    }
    ghost var stages := Staging(pairs, c.legacy, o, Closing);
    ok := c.Take(Lock(true), Step(Baseline(true), stages));
    if !ok {
      return;
    }
    ok := c.Take(Baseline(true), stages);
    if !ok {
      return;
    }
    c.monitoring := true;
    ok := RunStages(pairs, c, o, Closing);
    ok := Join(c, ok);
  }

  /** The monitor is stopped and joined; on success the round in flight finishes first. */
  method Join(c: Cluster, staged: bool) returns (ok: bool)
    requires c.Valid() && c.status.open && (!staged ==> c.Stopped())
    modifies c
    ensures c.Valid() && !c.monitoring && c.todo == old(c.todo) && c.status == old(c.status).(quiet := c.status.quiet)
    ensures ok == (staged && !c.monitorFailed && !c.parentCancelled)
    ensures !ok ==> !c.status.clean || c.parentCancelled || c.monitorFailed
  {
    if staged {
      c.Meanwhile();
    }
    c.monitoring := false;
    c.Meanwhile();
    ok := staged && !c.monitorFailed && !c.parentCancelled;
  }

  /** After the monitor is joined: a final round, the context, ownership, and the unlock. */
  method Close(c: Cluster) returns (ok: bool)
    requires c.Due(Closing) && c.status.pending.None? && !c.monitoring && !c.monitorFailed
    modifies c
    ensures c.Valid() && c.status.rolled == old(c.status.rolled)
    ensures ok == (c.log.Then? && c.log.event == Unlock(true))
    ensures ok ==> c.status.clean && c.status.quiet && c.todo == End
    ensures !ok ==> !c.status.clean || (c.status.open && c.parentCancelled)
  {
    ok := c.Take(FinalDns(true), Step(Ownership(true), Step(Unlock(true), End)));
    if !ok {
      return;
    }
    c.Meanwhile();
    if c.parentCancelled {
      return false;
    }
    ok := Release(c);
  }

  /** Ownership, and the unlock. */
  method Release(c: Cluster) returns (ok: bool)
    requires c.Due(Step(Ownership(true), Step(Unlock(true), End))) && c.status.pending.None? && c.status.probed
    requires !c.monitoring && c.status.quiet
    modifies c
    ensures c.Valid() && c.status.rolled == old(c.status.rolled)
    ensures ok == (c.log.Then? && c.log.event == Unlock(true))
    ensures ok ==> c.status.clean && c.status.quiet && c.todo == End
    ensures !ok ==> !c.status.clean
  {
    ok := c.Take(Ownership(true), Step(Unlock(true), End));
    if ok {
      ok := *;
      c.Record(Unlock(ok));
    }
  }
}
