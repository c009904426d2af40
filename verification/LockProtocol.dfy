/** Any number of lock clients against one API server: requests take effect late, once or never, and
    their replies may be lost (`lock.go`). */
module LockProtocol {
  import opened Common
  import opened Lock

  /** A request ever sent, and the reply once the server executed it. */
  datatype Flight = Flight(request: Request, reply: Option<Reply>)

  /** `used` are the tokens drawn, `installed` those a write made owner, `released` those whose release
      some client has sent. */
  datatype World = World(
    server: Server, clients: seq<Client>, flights: seq<Flight>,
    used: set<Token>, installed: set<Token>, released: set<Token>)

  datatype Action =
    | Begin(client: nat, call: Call)
    | Run(flight: nat)
    | Deliver(client: nat)
    | Lose(client: nat)
    | Foreign

  predicate Enabled(w: World, a: Action) {
    match a
    case Begin(c, call) =>
      && c < |w.clients| && w.clients[c].phase.Idle?
      && (call.Acquire? ==> call.token != FREE && call.token !in w.used)
    case Run(f) => f < |w.flights| && w.flights[f].reply.None?
    case Deliver(c) =>
      && c < |w.clients| && !w.clients[c].phase.Idle?
      && w.clients[c].flight < |w.flights| && w.flights[w.clients[c].flight].reply.Some?
    case Lose(c) => c < |w.clients| && !w.clients[c].phase.Idle?
    case Foreign => true
  }

  function React(w: World, c: nat, r: Reaction): World
    requires c < |w.clients|
  {
    var flights := if r.request.Some? then w.flights + [Flight(r.request.value, None)] else w.flights;
    var client := if r.request.Some? then r.client.(flight := |w.flights|) else r.client;
    w.(clients := w.clients[c := client], flights := flights,
       released := w.released + if r.clears.Some? then {r.clears.value} else {})
  }

  /** The token a request would make owner. */
  function Claims(r: Request): Option<Token> {
    if r.Create? then Some(r.owner)
    else if r.Patch? && r.change.Some? && r.change.value != FREE then r.change
    else None
  }

  function Ran(w: World, f: nat): World
    requires f < |w.flights|
  {
    var r := w.flights[f].request;
    var e := Execute(w.server, r);
    w.(server := e.server, flights := w.flights[f := Flight(r, Some(e.reply))],
       installed := w.installed + if Claims(r).Some? && e.reply.Object? then {Claims(r).value} else {})
  }

  function Step(w: World, a: Action): World
    requires Enabled(w, a)
  {
    match a
    case Begin(c, call) =>
      React(w.(used := w.used + if call.Acquire? then {call.token} else {}), c, Open(w.clients[c], call))
    case Run(f) => Ran(w, f)
    case Deliver(c) => React(w, c, Receive(w.clients[c], w.flights[w.clients[c].flight].reply.value))
    case Lose(c) => React(w, c, Receive(w.clients[c], Failed))
    case Foreign =>
      if w.server.obj.None? then w
      else w.(server := Server(Some(w.server.obj.value.(rv := w.server.version)), w.server.version + 1))
  }

  /** The token an earlier deployment left in the object. */
  function LeftBehind(obj: Option<Obj>): set<Token> {
    if obj.Some? && obj.value.owner != FREE then {obj.value.owner} else {}
  }

  /** No object, a free one, or one held by a token of an earlier deployment; nobody has called yet. */
  predicate Initial(w: World) {
    && w.flights == [] && w.used == w.installed == LeftBehind(w.server.obj) && w.released == {}
    && forall c :: 0 <= c < |w.clients| ==> w.clients[c] == Client(FREE, None, Idle, 0)
  }

  // ----- the invariant

  /** Every write in flight is guarded: a claim by a free owner, a release by a token known released. */
  predicate RequestOk(w: World, r: Request) {
    match r
    case Get => true
    case Create(owner, _) => owner in w.used
    case Patch(_, _, test, change, _) =>
      change.Some? ==>
        if change.value == FREE then test != FREE && test in w.released else test == FREE && change.value in w.used
  }

  predicate ReplyOk(w: World, f: Flight) {
    f.reply.Some? && f.reply.value.Object? ==>
      && w.server.obj.Some? && f.reply.value.obj.uid == w.server.obj.value.uid
      && (Claims(f.request).Some? ==> Claims(f.request).value in w.installed)
  }

  predicate FlightsOk(w: World) {
    forall f :: 0 <= f < |w.flights| ==> RequestOk(w, w.flights[f].request) && ReplyOk(w, w.flights[f])
  }

  /** An owner whose release nobody has sent is still the owner. */
  predicate OwnerOk(w: World) {
    && w.installed <= w.used && FREE !in w.used
    && forall t :: t in w.installed && t !in w.released ==> w.server.obj.Some? && w.server.obj.value.owner == t
  }

  predicate ClientOk(w: World, k: Client) {
    && (k.owner != FREE ==> k.owner in w.used)
    && (!k.phase.Idle? ==> k.flight < |w.flights|)
    && (k.uid.Some? ==> k.owner in w.installed && w.server.obj.Some? && w.server.obj.value.uid == k.uid.value)
    && (k.phase.AcquireRead? || k.phase.AcquireWrite? ==> k.uid.None? && k.owner != FREE)
    && (k.phase.AcquireWrite? ==> k.flight < |w.flights| && Claims(w.flights[k.flight].request) == Some(k.owner))
    && (k.phase.HeldRead? ==> k.phase.presented != FREE)
  }

  predicate ClientsOk(w: World) {
    && (forall c :: 0 <= c < |w.clients| ==> ClientOk(w, w.clients[c]))
    && (forall c, d :: 0 <= c < d < |w.clients| && w.clients[c].owner != FREE ==>
          w.clients[c].owner != w.clients[d].owner)
  }

  predicate Inv(w: World) {
    FlightsOk(w) && OwnerOk(w) && ClientsOk(w)
  }

  /** Growing knowledge keeps requests and replies acceptable. */
  lemma RequestGrows(w: World, v: World, r: Request)
    requires RequestOk(w, r) && w.used <= v.used && w.released <= v.released
    ensures RequestOk(v, r)
  {
  }

  lemma RunKeeps(w: World, f: nat)
    requires Inv(w) && Enabled(w, Run(f))
    ensures Inv(Step(w, Run(f)))
  {
    var r := w.flights[f].request;
    var v := Step(w, Run(f));
    assert RequestOk(w, r);
    assert w.server.obj.Some? ==> v.server.obj.Some? && v.server.obj.value.uid == w.server.obj.value.uid;
    assert OwnerOk(v);
    forall g | 0 <= g < |v.flights|
      ensures RequestOk(v, v.flights[g].request) && ReplyOk(v, v.flights[g])
    {
      RequestGrows(w, v, w.flights[g].request);
      assert ReplyOk(w, w.flights[g]);
    }
    forall c | 0 <= c < |v.clients|
      ensures ClientOk(v, v.clients[c])
    {
      assert ClientOk(w, w.clients[c]);
    }
  }

  /** What a client sends and becomes is acceptable. */
  predicate ReactionOk(w: World, k: Client, r: Reaction) {
    && r.client.owner == k.owner
    && (r.request.None? ==> r.client.phase.Idle?)
    && (r.request.Some? ==>
          && (if Claims(r.request.value).Some?
              then r.client.phase.AcquireWrite? && Claims(r.request.value) == Some(k.owner)
              else !r.client.phase.AcquireWrite?)
          && RequestOk(w.(released := w.released + if r.clears.Some? then {r.clears.value} else {}), r.request.value))
    && (r.client.uid.Some? ==>
          k.owner in w.installed && w.server.obj.Some? && w.server.obj.value.uid == r.client.uid.value)
    && (r.client.phase.AcquireRead? || r.client.phase.AcquireWrite? ==> r.client.uid.None? && k.owner != FREE)
    && (r.client.phase.HeldRead? ==> r.client.phase.presented != FREE)
  }

  lemma ReactKeeps(w: World, c: nat, k: Client, r: Reaction)
    requires FlightsOk(w) && OwnerOk(w) && c < |w.clients| && ReactionOk(w, k, r)
             && (k.owner != FREE ==> k.owner in w.used)
    requires forall d :: 0 <= d < |w.clients| && d != c ==> ClientOk(w, w.clients[d])
    requires forall d, e :: 0 <= d < e < |w.clients| && d != c && e != c && w.clients[d].owner != FREE ==>
               w.clients[d].owner != w.clients[e].owner
    requires forall d :: 0 <= d < |w.clients| && d != c && k.owner != FREE ==> w.clients[d].owner != k.owner
    ensures Inv(React(w, c, r))
  {
    var v := React(w, c, r);
    forall g | 0 <= g < |v.flights|
      ensures RequestOk(v, v.flights[g].request) && ReplyOk(v, v.flights[g])
    {
      if g < |w.flights| {
        RequestGrows(w, v, w.flights[g].request);
        assert ReplyOk(w, w.flights[g]);
      }
    }
    assert ClientOk(v, v.clients[c]);
    forall d | 0 <= d < |v.clients| && d != c
      ensures ClientOk(v, v.clients[d])
    {
      assert ClientOk(w, w.clients[d]);
    }
  }

  lemma DeliverKeeps(w: World, c: nat, reply: Reply)
    requires Inv(w) && c < |w.clients| && !w.clients[c].phase.Idle?
    requires reply == Failed || (w.clients[c].flight < |w.flights|
                                 && w.flights[w.clients[c].flight].reply == Some(reply))
    ensures Inv(React(w, c, Receive(w.clients[c], reply)))
  {
    var k := w.clients[c];
    assert ClientOk(w, k);
    if reply != Failed {
      assert ReplyOk(w, w.flights[k.flight]);
    }
    ReactKeeps(w, c, k, Receive(k, reply));
  }

  lemma BeginKeeps(w: World, c: nat, call: Call)
    requires Inv(w) && Enabled(w, Begin(c, call))
    ensures Inv(Step(w, Begin(c, call)))
  {
    var k := w.clients[c];
    assert ClientOk(w, k);
    var u := w.(used := w.used + if call.Acquire? then {call.token} else {});
    forall g | 0 <= g < |u.flights|
      ensures RequestOk(u, u.flights[g].request) && ReplyOk(u, u.flights[g])
    {
      RequestGrows(w, u, w.flights[g].request);
      assert ReplyOk(w, w.flights[g]);
    }
    forall d | 0 <= d < |u.clients|
      ensures ClientOk(u, u.clients[d])
    {
      assert ClientOk(w, w.clients[d]);
    }
    var r := Open(k, call);
    ReactKeeps(u, c, k.(owner := r.client.owner), r);
  }

  lemma ForeignKeeps(w: World)
    requires Inv(w)
    ensures Inv(Step(w, Foreign))
  {
    var v := Step(w, Foreign);
    forall g | 0 <= g < |v.flights|
      ensures RequestOk(v, v.flights[g].request) && ReplyOk(v, v.flights[g])
    {
      RequestGrows(w, v, w.flights[g].request);
      assert ReplyOk(w, w.flights[g]);
    }
    forall c | 0 <= c < |v.clients|
      ensures ClientOk(v, v.clients[c])
    {
      assert ClientOk(w, w.clients[c]);
    }
  }

  lemma StepKeeps(w: World, a: Action)
    requires Inv(w) && Enabled(w, a)
    ensures Inv(Step(w, a))
  {
    match a
    case Begin(c, call) => BeginKeeps(w, c, call);
    case Run(f) => RunKeeps(w, f);
    case Deliver(c) => DeliverKeeps(w, c, w.flights[w.clients[c].flight].reply.value);
    case Lose(c) => DeliverKeeps(w, c, Failed);
    case Foreign => ForeignKeeps(w);
  }

  // ----- whole runs

  ghost predicate Follows(ws: seq<World>, acts: seq<Action>) {
    && |ws| == |acts| + 1 && Initial(ws[0])
    && forall i {:trigger acts[i]} :: 0 <= i < |acts| ==> Enabled(ws[i], acts[i]) && ws[i + 1] == Step(ws[i], acts[i])
  }

  lemma {:induction false} RunInv(ws: seq<World>, acts: seq<Action>, i: nat)
    requires Follows(ws, acts) && i < |ws|
    ensures Inv(ws[i])
  {
    if i > 0 {
      RunInv(ws, acts, i - 1);
      var a := acts[i - 1];
      StepKeeps(ws[i - 1], a);
    }
  }

  lemma {:induction false} KnowledgeGrows(ws: seq<World>, acts: seq<Action>, i: nat, j: nat)
    requires Follows(ws, acts) && i <= j < |ws|
    ensures ws[i].installed <= ws[j].installed && ws[i].released <= ws[j].released
    decreases j
  {
    if i < j {
      KnowledgeGrows(ws, acts, i, j - 1);
      var a := acts[j - 1];
    }
  }

  /** From the write that made `token` owner until some client sends its release, the object's owner is
      that token, whatever else is read, created, patched, delayed or lost. */
  lemma OwnerStays(ws: seq<World>, acts: seq<Action>, i: nat, j: nat, k: nat, token: Token)
    requires Follows(ws, acts) && i <= k <= j < |ws|
    requires token in ws[i].installed && token !in ws[j].released
    ensures ws[k].server.obj.Some? && ws[k].server.obj.value.owner == token
  {
    KnowledgeGrows(ws, acts, i, k);
    KnowledgeGrows(ws, acts, k, j);
    RunInv(ws, acts, k);
  }

  /** A client that acquired and whose token nobody released owns the object, and is the only one. */
  lemma HolderOwns(ws: seq<World>, acts: seq<Action>, i: nat, c: nat)
    requires Follows(ws, acts) && i < |ws| && c < |ws[i].clients|
    requires ws[i].clients[c].uid.Some? && ws[i].clients[c].owner !in ws[i].released
    ensures var o := ws[i].server.obj;
            o.Some? && o.value.owner == ws[i].clients[c].owner && o.value.uid == ws[i].clients[c].uid.value
    ensures forall d :: 0 <= d < |ws[i].clients| && d != c && ws[i].clients[d].uid.Some? ==>
              ws[i].clients[d].owner in ws[i].released
  {
    RunInv(ws, acts, i);
    var w := ws[i];
    assert ClientOk(w, w.clients[c]);
    forall d | 0 <= d < |w.clients| && d != c && w.clients[d].uid.Some?
      ensures w.clients[d].owner in w.released
    {
      assert ClientOk(w, w.clients[d]);
    }
  }

  /** Once an acquisition succeeded, the object keeps that owner and UID until its release is sent. */
  lemma AcquiredStays(ws: seq<World>, acts: seq<Action>, i: nat, j: nat, k: nat, c: nat)
    requires Follows(ws, acts) && i <= k <= j < |ws| && c < |ws[i].clients|
    requires ws[i].clients[c].uid.Some? && ws[i].clients[c].owner !in ws[j].released
    ensures ws[k].server.obj.Some? && ws[k].server.obj.value.owner == ws[i].clients[c].owner
  {
    RunInv(ws, acts, i);
    assert ClientOk(ws[i], ws[i].clients[c]);
    OwnerStays(ws, acts, i, j, k, ws[i].clients[c].owner);
  }

  /** A token is released only by its holder's own Release or by a confirmed ReleaseHeld presenting it. */
  lemma ReleasedBy(w: World, a: Action, token: Token)
    requires Inv(w) && Enabled(w, a) && token !in w.released && token in Step(w, a).released
    ensures a.Deliver? || a.Lose?
    ensures var k := w.clients[a.client];
            || (k.phase.ReleaseRead? && k.uid.Some? && k.owner == token)
            || (k.phase.HeldRead? && k.phase.confirm && k.phase.presented == token)
  {
  }

  /** A stale release, or any other late request, leaves a successor's ownership alone. */
  lemma LateRequestHarmless(w: World, f: nat, token: Token)
    requires Inv(w) && Enabled(w, Run(f)) && token in w.installed && token !in w.released
    ensures var o := Step(w, Run(f)).server.obj; o.Some? && o.value.owner == token
  {
    RunKeeps(w, f);
  }
}
