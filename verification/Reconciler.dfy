/** The staging reconciler of the failover platform (`adapter.py`): what it inspects, plans and runs. */
module Reconciler {
  import opened Common

  datatype Return = Return(destination: string, gateway: string)

  datatype Attachment = Attachment(frontend: bool, paths: seq<Return>)

  datatype Manifest = Manifest(vip: string, backends: seq<string>, attachments: seq<Attachment>)

  datatype Service = Service(udp: bool, port: nat)

  /** One owned kernel object of a namespace. */
  datatype Item =
    | Vip
    | Route(dst: string, gateway: Option<string>, src: Option<string>)
    | Rule
    | Virtual(service: Service)
    | Real(service: Service, backend: string)

  type State = set<Item>

  const SERVICES: set<Service> :=
    {Service(true, 53), Service(false, 53), Service(false, 853), Service(false, 443), Service(true, 853)}

  function HostRoute(address: string): Item {
    Route(address + "/32", None, None)
  }

  function ReturnRoute(m: Manifest, r: Return): Item {
    Route(r.destination, Some(r.gateway), Some(m.vip))
  }

  /** `service_lines`: every service and its zero-weight destinations. */
  function ServiceLines(m: Manifest): State {
    (set s | s in SERVICES :: Virtual(s)) + (set s, b | s in SERVICES && b in m.backends :: Real(s, b))
  }

  function DesiredRoutes(m: Manifest, a: Attachment): State {
    if a.frontend then set b | b in m.backends :: HostRoute(b)
    else (set r | r in a.paths :: HostRoute(r.gateway)) + (set r | r in a.paths :: ReturnRoute(m, r))
  }

  /** Everything staging installs. */
  function Desired(m: Manifest, a: Attachment): State {
    DesiredRoutes(m, a) + if a.frontend then ServiceLines(m) else {Vip, Rule}
  }

  predicate Offered(s: Service) {
    if s.udp then s.port == 53 || s.port == 853 else s.port == 53 || s.port == 853 || s.port == 443
  }

  /** What is wanted, object by object. On a frontend: the five services, each with every backend as its
      destination, and a host route to every backend. Elsewhere: the address, the rule, a host route to
      every gateway, and every return path through its gateway with the VIP as its source. */
  lemma DesiredExact(m: Manifest, a: Attachment, x: Item)
    ensures x in Desired(m, a) <==>
              match x
              case Vip => !a.frontend
              case Rule => !a.frontend
              case Virtual(s) => a.frontend && Offered(s)
              case Real(s, b) => a.frontend && Offered(s) && b in m.backends
              case Route(dst, gateway, src) =>
                if a.frontend then gateway.None? && src.None? && exists b :: b in m.backends && dst == b + "/32"
                else
                  || (gateway.None? && src.None? && exists r :: r in a.paths && dst == r.gateway + "/32")
                  || (src == Some(m.vip)
                      && exists r :: r in a.paths && dst == r.destination && gateway == Some(r.gateway))
  {
  }

  /** What `inspect` accepts of the owned pools: nothing but wanted objects. */
  predicate Accepts(m: Manifest, a: Attachment, s: State) {
    s <= Desired(m, a)
  }

  /** What validation guarantees: unique return destinations, none of them a gateway's host route. */
  predicate AttachmentOk(a: Attachment) {
    && (a.frontend ==> a.paths == [])
    && (forall i, j :: 0 <= i < j < |a.paths| ==> a.paths[i].destination != a.paths[j].destination)
    && (forall i, j :: 0 <= i < |a.paths| && 0 <= j < |a.paths| ==>
          a.paths[i].destination != a.paths[j].gateway + "/32")
  }

  // ----- the kernel

  datatype Command = Add(item: Item) | Delete(item: Item)

  /** What must be there before an object can be added, and be gone only after it: a destination's
      service; a gateway's host route; the address a route prefers as its source. */
  function Needed(x: Item): State {
    if x.Real? then {Virtual(x.service)}
    else if x.Route? then
      (if x.gateway.Some? then {HostRoute(x.gateway.value)} else {}) + (if x.src.Some? then {Vip} else {})
    else {}
  }

  predicate Applicable(s: State, c: Command) {
    match c
    case Add(x) =>
      && x !in s && Needed(x) <= s
      && (x.Route? ==> forall y :: y in s && y.Route? ==> y.dst != x.dst)
    case Delete(x) => x in s && forall y :: y in s ==> x !in Needed(y)
  }

  function Apply(s: State, c: Command): State {
    if c.Add? then s + {c.item} else s - {c.item}
  }

  /** Commands run in order, each applicable where it runs, every state on the way accepted. */
  predicate Runs(m: Manifest, a: Attachment, s: State, cs: seq<Command>)
    decreases |cs|
  {
    Accepts(m, a, s) && (cs != [] ==> Applicable(s, cs[0]) && Runs(m, a, Apply(s, cs[0]), cs[1..]))
  }

  function Outcome(s: State, cs: seq<Command>): State
    decreases |cs|
  {
    if cs == [] then s else Outcome(Apply(s, cs[0]), cs[1..])
  }

  // ----- the order

  /** Staging goes up these ranks, cleanup down. */
  function Rank(x: Item): nat {
    match x
    case Vip => 0
    case Route(_, gateway, _) => if gateway.None? then 1 else 2
    case Rule => 3
    case Virtual(_) => 4
    case Real(_, _) => 5
  }

  /** Staging order: address, host routes, routes through gateways, rule, services, destinations. */
  lemma RankOrder(host: Item, through: Item, s: Service, b: string)
    requires host.Route? && host.gateway.None? && through.Route? && through.gateway.Some?
    ensures Rank(Vip) < Rank(host) < Rank(through) < Rank(Rule) < Rank(Virtual(s)) < Rank(Real(s, b))
  {
  }

  lemma NeededRank(m: Manifest, a: Attachment, x: Item, y: Item)
    requires x in Desired(m, a) && y in Needed(x)
    ensures Rank(y) < Rank(x) && y in Desired(m, a)
  {
  }

  lemma RoutesDistinct(m: Manifest, a: Attachment, x: Item, y: Item)
    requires AttachmentOk(a) && x in Desired(m, a) && y in Desired(m, a) && x.Route? && y.Route? && x.dst == y.dst
    ensures x == y
  {
  }

  predicate NoRepeat(xs: seq<Item>) {
    forall i, j :: 0 <= i < j < |xs| ==> xs[i] != xs[j]
  }

  /** `xs` lists exactly the items of `s`, each once. */
  ghost predicate Lists(xs: seq<Item>, s: State) {
    NoRepeat(xs) && forall x :: x in xs <==> x in s
  }

  predicate Rising(xs: seq<Item>) {
    forall i, j :: 0 <= i < j < |xs| ==> Rank(xs[i]) <= Rank(xs[j])
  }

  predicate Falling(xs: seq<Item>) {
    forall i, j :: 0 <= i < j < |xs| ==> Rank(xs[i]) >= Rank(xs[j])
  }

  function Adds(xs: seq<Item>): (cs: seq<Command>)
    ensures |cs| == |xs| && forall i :: 0 <= i < |xs| ==> cs[i] == Add(xs[i])
  {
    seq(|xs|, i requires 0 <= i < |xs| => Add(xs[i]))
  }

  function Deletes(xs: seq<Item>): (cs: seq<Command>)
    ensures |cs| == |xs| && forall i :: 0 <= i < |xs| ==> cs[i] == Delete(xs[i])
  {
    seq(|xs|, i requires 0 <= i < |xs| => Delete(xs[i]))
  }

  lemma ListsRest(xs: seq<Item>, s: State)
    requires xs != [] && Lists(xs, s)
    ensures Lists(xs[1..], s - {xs[0]})
  {
    forall x
      ensures x in xs[1..] <==> x in s - {xs[0]}
    {
      if x in s && x != xs[0] {
        var i :| 0 <= i < |xs| && xs[i] == x;
        assert xs[1..][i - 1] == x;
      }
    }
  }

  lemma FirstAddable(m: Manifest, a: Attachment, s: State, xs: seq<Item>)
    requires AttachmentOk(a) && Accepts(m, a, s) && xs != [] && Lists(xs, Desired(m, a) - s) && Rising(xs)
    ensures Applicable(s, Add(xs[0]))
  {
    var x := xs[0];
    assert x in xs;
    assert forall y :: y in xs ==> Rank(x) <= Rank(y);
    forall y | y in Needed(x)
      ensures y in s
    {
      NeededRank(m, a, x, y);
      assert y !in xs;
    }
    forall y | y in s && x.Route? && y.Route?
      ensures y.dst != x.dst
    {
      if y.dst == x.dst {
        RoutesDistinct(m, a, x, y);
      }
    }
  }

  /** Staging from any accepted state: adding what is missing in rank order is applicable at every step,
      stays accepted, and ends with everything wanted. */
  lemma {:induction false} StagingRuns(m: Manifest, a: Attachment, s: State, xs: seq<Item>)
    requires AttachmentOk(a) && Accepts(m, a, s) && Lists(xs, Desired(m, a) - s) && Rising(xs)
    ensures Runs(m, a, s, Adds(xs)) && Outcome(s, Adds(xs)) == Desired(m, a)
    decreases |xs|
  {
    if xs == [] {
      forall x | x in Desired(m, a)
        ensures x in s
      {
        assert x !in xs;
      }
    } else {
      FirstAddable(m, a, s, xs);
      assert xs[0] in xs;
      ListsRest(xs, Desired(m, a) - s);
      assert Desired(m, a) - (s + {xs[0]}) == Desired(m, a) - s - {xs[0]};
      StagingRuns(m, a, s + {xs[0]}, xs[1..]);
      assert Adds(xs)[1..] == Adds(xs[1..]);
    }
  }

  /** Cleanup: deleting what is there in falling rank order is applicable at every step, stays accepted,
      and ends with nothing. */
  lemma {:induction false} CleanupRuns(m: Manifest, a: Attachment, s: State, xs: seq<Item>)
    requires Accepts(m, a, s) && Lists(xs, s) && Falling(xs)
    ensures Runs(m, a, s, Deletes(xs)) && Outcome(s, Deletes(xs)) == {}
    decreases |xs|
  {
    if xs == [] {
      assert forall x :: x in s ==> x in xs;
    } else {
      assert forall y :: y in xs ==> Rank(y) <= Rank(xs[0]);
      forall y | y in s
        ensures xs[0] !in Needed(y)
      {
        assert y in xs;
        if xs[0] in Needed(y) {
          NeededRank(m, a, y, xs[0]);
        }
      }
      ListsRest(xs, s);
      CleanupRuns(m, a, s - {xs[0]}, xs[1..]);
      assert Deletes(xs)[1..] == Deletes(xs[1..]);
    }
  }

  // ----- planning

  /** Some order of a set; the source's order within a rank is not relied on. */
  method Enumerate(s: State) returns (xs: seq<Item>)
    ensures Lists(xs, s)
  {
    xs := [];
    var left := s;
    while left != {}
      invariant left <= s && NoRepeat(xs) && forall x :: x in xs <==> x in s - left
      decreases |left|
    {
      var x :| x in left;
      assert x !in xs;
      xs := xs + [x];
      left := left - {x};
    }
  }

  function OfRank(s: State, r: nat): State {
    set x | x in s && Rank(x) == r
  }

  function Below(s: State, r: nat): State {
    set x | x in s && Rank(x) < r
  }

  lemma RisingAppend(xs: seq<Item>, ys: seq<Item>, s: State, r: nat)
    requires Lists(xs, Below(s, r)) && Rising(xs) && Lists(ys, OfRank(s, r))
    ensures Lists(xs + ys, Below(s, r + 1)) && Rising(xs + ys)
  {
    assert forall i :: 0 <= i < |xs| ==> xs[i] in xs;
    assert forall i :: 0 <= i < |ys| ==> ys[i] in ys;
  }

  /** The missing objects, address first, then host routes, gateway routes, the rule, services and
      destinations. */
  method Missing(m: Manifest, a: Attachment, s: State) returns (xs: seq<Item>)
    ensures Lists(xs, Desired(m, a) - s) && Rising(xs)
  {
    var d := Desired(m, a) - s;
    xs := [];
    var r := 0;
    while r < 6
      invariant 0 <= r <= 6 && Lists(xs, Below(d, r)) && Rising(xs)
    {
      var ys := Enumerate(OfRank(d, r));
      RisingAppend(xs, ys, d, r);
      xs := xs + ys;
      r := r + 1;
    }
    assert Below(d, 6) == d;
  }

  method Present(s: State) returns (xs: seq<Item>)
    ensures Lists(xs, s) && Falling(xs)
  {
    xs := [];
    var r := 0;
    while r < 6
      invariant 0 <= r <= 6 && Lists(xs, Below(s, r)) && Falling(xs)
    {
      var ys := Enumerate(OfRank(s, r));
      assert forall i :: 0 <= i < |xs| ==> xs[i] in xs;
      assert forall i :: 0 <= i < |ys| ==> ys[i] in ys;
      xs := ys + xs;
      r := r + 1;
    }
    assert Below(s, 6) == s;
  }

  function Goal(m: Manifest, a: Attachment, cleanup: bool): State {
    if cleanup then {} else Desired(m, a)
  }

  method PlanFor(m: Manifest, a: Attachment, s: State, cleanup: bool) returns (cs: seq<Command>)
    requires AttachmentOk(a) && Accepts(m, a, s)
    ensures Runs(m, a, s, cs) && Outcome(s, cs) == Goal(m, a, cleanup)
    ensures cs == [] <==> s == Goal(m, a, cleanup)
    ensures forall k :: 0 <= k < |cs| ==> cs[k].Delete? == cleanup
  {
    if cleanup {
      var xs := Present(s);
      CleanupRuns(m, a, s, xs);
      cs := Deletes(xs);
      assert s != {} ==> exists x :: x in s;
    } else {
      var xs := Missing(m, a, s);
      StagingRuns(m, a, s, xs);
      cs := Adds(xs);
      if xs != [] {
        assert xs[0] in xs;
      }
    }
  }

  // ----- all attachments of a host

  datatype Planned = Planned(at: nat, command: Command)

  predicate ManifestOk(m: Manifest) {
    forall i :: 0 <= i < |m.attachments| ==> AttachmentOk(m.attachments[i])
  }

  predicate AllAccepted(m: Manifest, ss: seq<State>) {
    |ss| == |m.attachments| && forall i :: 0 <= i < |ss| ==> Accepts(m, m.attachments[i], ss[i])
  }

  function ApplyAt(ss: seq<State>, p: Planned): seq<State>
    requires p.at < |ss|
  {
    ss[p.at := Apply(ss[p.at], p.command)]
  }

  predicate RunsAll(m: Manifest, ss: seq<State>, ps: seq<Planned>)
    decreases |ps|
  {
    && AllAccepted(m, ss)
    && (ps != [] ==>
          ps[0].at < |ss| && Applicable(ss[ps[0].at], ps[0].command) && RunsAll(m, ApplyAt(ss, ps[0]), ps[1..]))
  }

  function OutcomeAll(m: Manifest, ss: seq<State>, ps: seq<Planned>): (r: seq<State>)
    requires RunsAll(m, ss, ps)
    ensures AllAccepted(m, r)
    decreases |ps|
  {
    if ps == [] then ss else OutcomeAll(m, ApplyAt(ss, ps[0]), ps[1..])
  }

  lemma {:induction false} RunsAppend(m: Manifest, ss: seq<State>, ps: seq<Planned>, qs: seq<Planned>)
    requires RunsAll(m, ss, ps) && RunsAll(m, OutcomeAll(m, ss, ps), qs)
    ensures RunsAll(m, ss, ps + qs) && OutcomeAll(m, ss, ps + qs) == OutcomeAll(m, OutcomeAll(m, ss, ps), qs)
    decreases |ps|
  {
    if ps == [] {
      assert ps + qs == qs;
    } else {
      var all := ps + qs;
      assert all[0] == ps[0] && all[1..] == ps[1..] + qs;
      RunsAppend(m, ApplyAt(ss, ps[0]), ps[1..], qs);
    }
  }

  function Tagged(i: nat, cs: seq<Command>): (ps: seq<Planned>)
    ensures |ps| == |cs| && forall k :: 0 <= k < |cs| ==> ps[k] == Planned(i, cs[k])
  {
    seq(|cs|, k requires 0 <= k < |cs| => Planned(i, cs[k]))
  }

  lemma {:induction false} TaggedRuns(m: Manifest, ss: seq<State>, i: nat, cs: seq<Command>)
    requires AllAccepted(m, ss) && i < |ss| && Runs(m, m.attachments[i], ss[i], cs)
    ensures RunsAll(m, ss, Tagged(i, cs)) && OutcomeAll(m, ss, Tagged(i, cs)) == ss[i := Outcome(ss[i], cs)]
    decreases |cs|
  {
    if cs == [] {
      assert ss[i := ss[i]] == ss;
    } else {
      var next := ss[i := Apply(ss[i], cs[0])];
      TaggedRuns(m, next, i, cs[1..]);
      assert Tagged(i, cs)[1..] == Tagged(i, cs[1..]);
      assert next[i := Outcome(next[i], cs[1..])] == ss[i := Outcome(ss[i], cs)];
    }
  }

  predicate AtGoal(m: Manifest, ss: seq<State>, cleanup: bool, n: nat) {
    |ss| == |m.attachments| && forall i :: 0 <= i < n && i < |ss| ==> ss[i] == Goal(m, m.attachments[i], cleanup)
  }

  // ----- how much there is to do

  /** What is left to do in one namespace: the objects still missing or, for cleanup, still there. */
  function Todo(want: State, s: State, cleanup: bool): nat {
    if cleanup then |s| else |want - s|
  }

  /** What is left to do in the first `n` namespaces. */
  function Work(wants: seq<State>, ss: seq<State>, cleanup: bool, n: nat): nat
    requires n <= |ss| == |wants|
  {
    if n == 0 then 0 else Work(wants, ss, cleanup, n - 1) + Todo(wants[n - 1], ss[n - 1], cleanup)
  }

  function Wants(m: Manifest): (wants: seq<State>)
    ensures |wants| == |m.attachments| && forall i :: 0 <= i < |wants| ==> wants[i] == Desired(m, m.attachments[i])
  {
    seq(|m.attachments|, i requires 0 <= i < |m.attachments| => Desired(m, m.attachments[i]))
  }

  /** A command that adds a missing object wanted there, or deletes one to be cleaned up. */
  predicate Useful(want: State, s: State, c: Command, cleanup: bool) {
    if cleanup then c.Delete? && c.item in s else c.Add? && c.item in want && c.item !in s
  }

  lemma TodoStep(want: State, s: State, c: Command, cleanup: bool)
    requires Useful(want, s, c, cleanup)
    ensures Todo(want, Apply(s, c), cleanup) + 1 == Todo(want, s, cleanup)
  {
    if !cleanup {
      assert want - Apply(s, c) == (want - s) - {c.item};
    }
  }

  /** A useful command is one object's work less. */
  lemma {:induction false} WorkStep(wants: seq<State>, ss: seq<State>, p: Planned, cleanup: bool, n: nat)
    requires n <= |ss| == |wants| && p.at < |ss| && Useful(wants[p.at], ss[p.at], p.command, cleanup)
    ensures Work(wants, ApplyAt(ss, p), cleanup, n) + (if p.at < n then 1 else 0) == Work(wants, ss, cleanup, n)
  {
    if n > 0 {
      WorkStep(wants, ss, p, cleanup, n - 1);
      if n - 1 == p.at {
        TodoStep(wants[n - 1], ss[n - 1], p.command, cleanup);
      }
    }
  }

  lemma {:induction false} NoWork(wants: seq<State>, ss: seq<State>, cleanup: bool, n: nat)
    requires n <= |ss| == |wants| && forall i :: 0 <= i < |ss| ==> ss[i] == if cleanup then {} else wants[i]
    ensures Work(wants, ss, cleanup, n) == 0
  {
    if n > 0 {
      NoWork(wants, ss, cleanup, n - 1);
      assert wants[n - 1] - wants[n - 1] == {};
    }
  }

  predicate AllOf(ps: seq<Planned>, cleanup: bool) {
    forall k :: 0 <= k < |ps| ==> ps[k].command.Delete? == cleanup
  }

  /** Applicable commands of one kind that lead to the goal are as many as the work. */
  lemma {:induction false} PlanIsWork(m: Manifest, ss: seq<State>, ps: seq<Planned>, cleanup: bool)
    requires RunsAll(m, ss, ps) && AtGoal(m, OutcomeAll(m, ss, ps), cleanup, |ss|) && AllOf(ps, cleanup)
    ensures |ps| == Work(Wants(m), ss, cleanup, |ss|)
    decreases |ps|
  {
    if ps == [] {
      NoWork(Wants(m), ss, cleanup, |ss|);
    } else {
      var p, next := ps[0], ApplyAt(ss, ps[0]);
      assert Accepts(m, m.attachments[p.at], next[p.at]);
      PlanIsWork(m, next, ps[1..], cleanup);
      WorkStep(Wants(m), ss, p, cleanup, |ss|);
    }
  }

  /** `ps` does all the work of the first `i` namespaces and touches no other. */
  ghost predicate PlannedTo(m: Manifest, ss: seq<State>, ps: seq<Planned>, cleanup: bool, i: nat) {
    && RunsAll(m, ss, ps) && i <= |ss| && AtGoal(m, OutcomeAll(m, ss, ps), cleanup, i)
    && (forall k :: i <= k < |ss| ==> OutcomeAll(m, ss, ps)[k] == ss[k])
    && (ps == [] <==> AtGoal(m, ss, cleanup, i)) && AllOf(ps, cleanup)
  }

  lemma PlannedNext(m: Manifest, ss: seq<State>, ps: seq<Planned>, cleanup: bool, i: nat, cs: seq<Command>)
    requires PlannedTo(m, ss, ps, cleanup, i) && i < |ss|
    requires var a := m.attachments[i];
             && Runs(m, a, ss[i], cs) && Outcome(ss[i], cs) == Goal(m, a, cleanup)
             && (cs == [] <==> ss[i] == Goal(m, a, cleanup)) && forall k :: 0 <= k < |cs| ==> cs[k].Delete? == cleanup
    ensures PlannedTo(m, ss, ps + Tagged(i, cs), cleanup, i + 1)
  {
    TaggedRuns(m, OutcomeAll(m, ss, ps), i, cs);
    RunsAppend(m, ss, ps, Tagged(i, cs));
  }

  /** `plan`: the commands of every attachment, one attachment after the other. */
  method Plan(m: Manifest, ss: seq<State>, cleanup: bool) returns (ps: seq<Planned>)
    requires ManifestOk(m) && AllAccepted(m, ss)
    ensures RunsAll(m, ss, ps) && AtGoal(m, OutcomeAll(m, ss, ps), cleanup, |ss|)
    ensures ps == [] <==> AtGoal(m, ss, cleanup, |ss|)
    ensures AllOf(ps, cleanup)
  {
    ps := [];
    var i := 0;
    while i < |ss|
      invariant 0 <= i <= |ss| && PlannedTo(m, ss, ps, cleanup, i)
    {
      var cs := PlanFor(m, m.attachments[i], ss[i], cleanup);
      PlannedNext(m, ss, ps, cleanup, i, cs);
      ps := ps + Tagged(i, cs);
      i := i + 1;
    }
  }

  /** The namespaces of a host; only applicable commands may run. */
  class Host {
    var states: seq<State>

    constructor (states: seq<State>)
      ensures this.states == states
    {
      this.states := states;
    }

    method Run(p: Planned)
      requires p.at < |states| && Applicable(states[p.at], p.command)
      modifies this
      ensures states == ApplyAt(old(states), p)
    {
      states := states[p.at := Apply(states[p.at], p.command)];
    }

    /** The first commands of a plan, one after the other. */
    method Execute(m: Manifest, plan: seq<Planned>, cleanup: bool, budget: nat) returns (k: nat)
      requires RunsAll(m, states, plan) && AtGoal(m, OutcomeAll(m, states, plan), cleanup, |states|)
      modifies this
      ensures k == if budget < |plan| then budget else |plan|
      ensures RunsAll(m, states, plan[k..]) && AtGoal(m, OutcomeAll(m, states, plan[k..]), cleanup, |states|)
      ensures plan == [] ==> states == old(states)
    {
      k := 0;
      assert plan[0..] == plan;
      while k < |plan| && k < budget
        invariant 0 <= k <= |plan| && k <= budget && RunsAll(m, states, plan[k..])
        invariant AtGoal(m, OutcomeAll(m, states, plan[k..]), cleanup, |states|)
        invariant plan == [] ==> states == old(states)
      {
        Run(plan[k]);
        assert plan[k..][1..] == plan[k + 1..];
        k := k + 1;
      }
    }

    /** `reconcile`, interrupted after `budget` commands. Every command is applicable where it runs and
        wherever it stops inspection still accepts every namespace, so it can be run again: each
        command run is one object's work less, and it is done exactly when the budget covers the work. */
    method Reconcile(m: Manifest, cleanup: bool, budget: nat) returns (done: bool)
      requires ManifestOk(m) && AllAccepted(m, states)
      modifies this
      ensures AllAccepted(m, states)
      ensures var work := Work(Wants(m), old(states), cleanup, |m.attachments|);
              && (done <==> budget >= work)
              && Work(Wants(m), states, cleanup, |m.attachments|) == if done then 0 else work - budget
      ensures done ==> AtGoal(m, states, cleanup, |states|)
      ensures AtGoal(m, old(states), cleanup, |old(states)|) ==> states == old(states)
    {
      var plan := Plan(m, states, cleanup);
      PlanIsWork(m, states, plan, cleanup);
      var k := Execute(m, plan, cleanup, budget);
      PlanIsWork(m, states, plan[k..], cleanup);
      done := k == |plan|;
      if done {
        var rest := Plan(m, states, cleanup);
        done := rest == [];
      }
    }
  }
}
