/** What a call of the deployment lock brings about when no other client acts during it: a free lock is
    taken, a held one is left alone, a holder's release frees it (`lock.go`). */
module LockProgress {
  import opened Common
  import opened Lock
  import opened LockProtocol

  /** The server: a read changes nothing, a creation needs the name free, and a patch needs the object's
      UID, owner and, if it names one, resourceVersion as it read them. Every write takes a new version. */
  lemma ServerExact(s: Server, r: Request)
    ensures var e := Execute(s, r);
            match r
            case Get => e.server == s && e.reply == if s.obj.Some? then Object(s.obj.value) else Absent
            case Create(owner, stage) =>
              if s.obj.Some? then e.server == s && e.reply == Failed
              else
                && e.reply.Object? && e.server.obj == Some(e.reply.obj) && e.reply.obj.owner == owner
                && e.reply.obj.stage == stage && s.version <= e.reply.obj.rv < e.server.version
            case Patch(uid, rv, test, change, stage) =>
              if s.obj.None? || s.obj.value.uid != uid || s.obj.value.owner != test
                 || (rv.Some? && s.obj.value.rv != rv.value)
              then e.server == s && e.reply == Failed
              else
                && e.reply == Object(Obj(uid, s.version, if change.Some? then change.value else test, stage))
                && e.server == Server(Some(e.reply.obj), s.version + 1)
  {
  }

  predicate Waiting(w: World, c: nat) {
    && c < |w.clients| && !w.clients[c].phase.Idle? && w.clients[c].flight < |w.flights|
    && w.flights[w.clients[c].flight].reply.None?
  }

  /** The server executes the client's request and the reply reaches the client. */
  function Served(w: World, c: nat): World
    requires Waiting(w, c)
  {
    Step(Step(w, Run(w.clients[c].flight)), Deliver(c))
  }

  /** A call from its first request to its end, two exchanges at most, with nobody else acting. */
  function Alone(w: World, c: nat, call: Call): World
    requires Enabled(w, Begin(c, call))
  {
    var u := Step(w, Begin(c, call));
    if !Waiting(u, c) then u
    else if !Waiting(Served(u, c), c) then Served(u, c)
    else Served(Served(u, c), c)
  }

  /** The object's owner, UID, resourceVersion and stage, and the client's UID once it is done. */
  predicate Ends(w: World, c: nat, obj: Option<Obj>, uid: Option<nat>) {
    c < |w.clients| && w.clients[c].phase.Idle? && w.server.obj == obj && w.clients[c].uid == uid
  }

  /** A request the client sends next, and the world in which it waits for the reply. */
  lemma Serves(w: World, c: nat)
    requires Waiting(w, c)
    ensures var r := w.flights[w.clients[c].flight].request;
            var e := Execute(w.server, r);
            var n := Receive(w.clients[c], e.reply);
            var v := Served(w, c);
            && v.server == e.server && |v.clients| == |w.clients|
            && (n.request.None? ==> v.clients[c] == n.client)
            && (n.request.Some? ==>
                  && v.clients[c] == n.client.(flight := |w.flights|) && |v.flights| == |w.flights| + 1
                  && v.flights[|w.flights|] == Flight(n.request.value, None))
  {
  }

  /** A call that stops after one exchange, or goes on to a second that ends it. */
  lemma Plays(w: World, c: nat, call: Call, first: Reaction)
    requires Enabled(w, Begin(c, call)) && first == Open(w.clients[c], call)
    requires first.request.None? ==> first.client.phase.Idle?
    requires first.request.Some? ==> !first.client.phase.Idle?
    ensures first.request.None? ==> Ends(Alone(w, c, call), c, w.server.obj, first.client.uid)
    ensures first.request.Some? ==>
              var e := Execute(w.server, first.request.value);
              var n := Receive(first.client.(flight := |w.flights|), e.reply);
              && (n.request.None? && n.client.phase.Idle? ==>
                    Ends(Alone(w, c, call), c, e.server.obj, n.client.uid))
              && (n.request.Some? && !n.client.phase.Idle? ==>
                    var f := Execute(e.server, n.request.value);
                    var m := Receive(n.client.(flight := |w.flights| + 1), f.reply);
                    m.request.None? && m.client.phase.Idle? ==>
                      Ends(Alone(w, c, call), c, f.server.obj, m.client.uid))
  {
    var u := Step(w, Begin(c, call));
    if first.request.Some? {
      assert Waiting(u, c);
      Serves(u, c);
      if Waiting(Served(u, c), c) {
        Serves(Served(u, c), c);
      }
    }
  }

  /** An acquisition takes a lock that is absent or free, and only then: the object's owner is the token,
      and the client knows its UID. A held lock and its owner stay as they are. */
  lemma AcquireAlone(w: World, c: nat, token: Token)
    requires Enabled(w, Begin(c, Acquire(token))) && w.clients[c].uid.None?
    ensures var v := Alone(w, c, Acquire(token));
            match w.server.obj
            case None =>
              var n := w.server.version;
              Ends(v, c, Some(Obj(n, n + 1, token, "acquired")), Some(n))
            case Some(o) =>
              if o.owner == "" then Ends(v, c, Some(Obj(o.uid, w.server.version, token, "acquired")), Some(o.uid))
              else Ends(v, c, Some(o), None)
  {
    Plays(w, c, Acquire(token), Open(w.clients[c], Acquire(token)));
  }

  /** A client that already holds the lock asks nothing and keeps it. */
  lemma AcquireTwice(w: World, c: nat, token: Token)
    requires Enabled(w, Begin(c, Acquire(token))) && w.clients[c].uid.Some?
    ensures Ends(Alone(w, c, Acquire(token)), c, w.server.obj, w.clients[c].uid)
  {
    Plays(w, c, Acquire(token), Open(w.clients[c], Acquire(token)));
  }

  /** A holder's release frees the object it owns and forgets it; any other object stays. */
  lemma ReleaseAlone(w: World, c: nat)
    requires Enabled(w, Begin(c, Release))
    ensures var k, v := w.clients[c], Alone(w, c, Release);
            if k.uid.Some? && w.server.obj.Some? && w.server.obj.value.uid == k.uid.value
               && w.server.obj.value.owner == k.owner
            then Ends(v, c, Some(Obj(k.uid.value, w.server.version, "", "")), None)
            else Ends(v, c, w.server.obj, k.uid)
  {
    Plays(w, c, Release, Open(w.clients[c], Release));
  }

  /** An operator's release frees the object exactly if it is confirmed and presents the owner's token. */
  lemma ReleaseHeldAlone(w: World, c: nat, presented: Token, confirm: bool)
    requires Enabled(w, Begin(c, ReleaseHeld(presented, confirm)))
    ensures var v := Alone(w, c, ReleaseHeld(presented, confirm));
            if w.server.obj.Some? && presented != "" && w.server.obj.value.owner == presented && confirm
            then Ends(v, c, Some(Obj(w.server.obj.value.uid, w.server.version, "", "")), w.clients[c].uid)
            else Ends(v, c, w.server.obj, w.clients[c].uid)
  {
    Plays(w, c, ReleaseHeld(presented, confirm), Open(w.clients[c], ReleaseHeld(presented, confirm)));
  }

  /** A note changes the stage of the client's own lock, and nothing else. */
  lemma NoteAlone(w: World, c: nat, stage: string)
    requires Enabled(w, Begin(c, Note(stage)))
    ensures var k, v := w.clients[c], Alone(w, c, Note(stage));
            if k.uid.Some? && w.server.obj.Some? && w.server.obj.value.uid == k.uid.value
               && w.server.obj.value.owner == k.owner
            then Ends(v, c, Some(Obj(k.uid.value, w.server.version, k.owner, stage)), k.uid)
            else Ends(v, c, w.server.obj, k.uid)
  {
    Plays(w, c, Note(stage), Open(w.clients[c], Note(stage)));
  }

  lemma CheckAlone(w: World, c: nat)
    requires Enabled(w, Begin(c, Check))
    ensures Ends(Alone(w, c, Check), c, w.server.obj, w.clients[c].uid)
  {
    Plays(w, c, Check, Open(w.clients[c], Check));
  }

  /** The holder in any run, as long as nobody released its token, can release the lock, and whoever
      acquires next has it. */
  lemma HandsOver(ws: seq<World>, acts: seq<Action>, i: nat, c: nat, d: nat, token: Token)
    requires LockProtocol.Follows(ws, acts) && i < |ws| && c < |ws[i].clients| && d < |ws[i].clients| && c != d
    requires var w := ws[i];
             && w.clients[c].uid.Some? && w.clients[c].owner !in w.released && w.clients[c].phase.Idle?
             && w.clients[d].uid.None? && w.clients[d].phase.Idle? && token != "" && token !in w.used
    ensures var u := Alone(ws[i], c, Release);
            && Ends(u, c, Some(Obj(ws[i].clients[c].uid.value, ws[i].server.version, "", "")), None)
            && Enabled(u, Begin(d, Acquire(token)))
            && var v := Alone(u, d, Acquire(token));
               && v.server.obj.Some? && v.server.obj.value.owner == token && v.server.obj.value.stage == "acquired"
               && v.server.obj.value.uid == ws[i].clients[c].uid.value && v.clients[d].uid == ws[i].clients[c].uid
  {
    HolderOwns(ws, acts, i, c);
    ReleaseAlone(ws[i], c);
    Untouched(ws[i], c, Release, d);
    AcquireAlone(Alone(ws[i], c, Release), d, token);
  }

  /** A call concerns its own client only, and only an acquisition draws a token. */
  lemma Untouched(w: World, c: nat, call: Call, d: nat)
    requires Enabled(w, Begin(c, call)) && d < |w.clients| && d != c
    ensures var v := Alone(w, c, call);
            && |v.clients| == |w.clients| && v.clients[d] == w.clients[d]
            && v.used == w.used + if call.Acquire? then {call.token} else {}
  {
  }
}
