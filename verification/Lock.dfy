/** The deployment lock: one ConfigMap changed only by guarded writes (`lock.go`). */
module Lock {
  import opened Common

  type Token = string

  const FREE: Token := ""

  /** The lock object; its owner is empty when nobody holds it. */
  datatype Obj = Obj(uid: nat, rv: nat, owner: Token, stage: string)

  /** A patch tests UID, owner and, if given, resourceVersion; it replaces the owner, if given, and
      the stage. */
  datatype Request =
    | Get
    | Create(owner: Token, stage: string)
    | Patch(uid: nat, rv: Option<nat>, test: Token, change: Option<Token>, stage: string)

  datatype Reply = Failed | Absent | Object(obj: Obj)

  /** The API server: at most one object of this name, never deleted; every write takes a new version. */
  datatype Server = Server(obj: Option<Obj>, version: nat)

  datatype Executed = Executed(server: Server, reply: Reply)

  predicate Applies(o: Obj, r: Request)
    requires r.Patch?
  {
    o.uid == r.uid && (r.rv.Some? ==> o.rv == r.rv.value) && o.owner == r.test
  }

  function Execute(s: Server, r: Request): Executed {
    if r.Get? then Executed(s, if s.obj.Some? then Object(s.obj.value) else Absent)
    else if r.Create? then
      if s.obj.Some? then Executed(s, Failed) else
      var o := Obj(s.version, s.version + 1, r.owner, r.stage);
      Executed(Server(Some(o), s.version + 2), Object(o))
    else if s.obj.Some? && Applies(s.obj.value, r) then
      var o := s.obj.value.(rv := s.version, owner := if r.change.Some? then r.change.value else s.obj.value.owner,
                            stage := r.stage);
      Executed(Server(Some(o), s.version + 1), Object(o))
    else Executed(s, Failed)
  }

  // ----- decisions of a client

  /** `Acquire` after its read: create the object, claim a free one, or give up. */
  function ClaimAfter(read: Reply, token: Token): Option<Request> {
    if read.Absent? then Some(Create(token, "acquired"))
    else if read.Object? && read.obj.owner == FREE then
      Some(Patch(read.obj.uid, Some(read.obj.rv), FREE, Some(token), "acquired"))
    else None
  }

  /** `Acquire` after its write: the object's UID, when the reply confirms ownership. */
  function ClaimedBy(written: Reply, token: Token): Option<nat> {
    if written.Object? && written.obj.owner == token then Some(written.obj.uid) else None
  }

  predicate Owns(read: Reply, uid: nat, token: Token) {
    read.Object? && read.obj.uid == uid && read.obj.owner == token
  }

  function Clearing(o: Obj): Request {
    Patch(o.uid, Some(o.rv), o.owner, Some(FREE), "")
  }

  predicate Cleared(written: Reply, uid: nat) {
    written.Object? && written.obj.uid == uid && written.obj.owner == FREE
  }

  function Noting(uid: nat, token: Token, stage: string): Request {
    Patch(uid, None, token, None, stage)
  }

  // ----- the client as a machine

  datatype Phase =
    | Idle
    | AcquireRead | AcquireWrite
    | CheckRead | NoteWrite
    | ReleaseRead | ReleaseWrite
    | HeldRead(presented: Token, confirm: bool) | HeldWrite

  /** A client: its token and UID, what it is doing, and the request it waits for. */
  datatype Client = Client(owner: Token, uid: Option<nat>, phase: Phase, flight: nat)

  datatype Call =
    | Acquire(token: Token) | Check | Note(stage: string) | Release | ReleaseHeld(presented: Token, confirm: bool)

  /** A client's reaction: its next state and perhaps a request, which may release a token. */
  datatype Reaction = Reaction(client: Client, request: Option<Request>, clears: Option<Token>)

  function Stop(k: Client): Reaction {
    Reaction(k.(phase := Idle), None, None)
  }

  function Receive(k: Client, reply: Reply): Reaction {
    match k.phase
    case Idle => Stop(k)
    case AcquireRead =>
      var claim := ClaimAfter(reply, k.owner);
      if claim.None? then Stop(k) else Reaction(k.(phase := AcquireWrite), claim, None)
    case AcquireWrite => Stop(k.(uid := ClaimedBy(reply, k.owner)))
    case CheckRead => Stop(k)
    case NoteWrite => Stop(k)
    case ReleaseRead =>
      if k.uid.Some? && Owns(reply, k.uid.value, k.owner)
      then Reaction(k.(phase := ReleaseWrite), Some(Clearing(reply.obj)), Some(k.owner)) else Stop(k)
    case ReleaseWrite =>
      Stop(if k.uid.Some? && Cleared(reply, k.uid.value) then k.(uid := None) else k)
    case HeldRead(presented, confirm) =>
      if reply.Object? && reply.obj.owner == presented && confirm
      then Reaction(k.(phase := HeldWrite), Some(Clearing(reply.obj)), Some(presented)) else Stop(k)
    case HeldWrite => Stop(k)
  }

  /** The first request of a call, if its local checks pass. */
  function Open(k: Client, call: Call): Reaction {
    match call
    case Acquire(token) =>
      if k.uid.Some? then Stop(k) else Reaction(k.(owner := token, phase := AcquireRead), Some(Get), None)
    case Check => if k.uid.None? then Stop(k) else Reaction(k.(phase := CheckRead), Some(Get), None)
    case Note(stage) =>
      if k.uid.None? then Stop(k)
      else Reaction(k.(phase := NoteWrite), Some(Noting(k.uid.value, k.owner, stage)), None)
    case Release => if k.uid.None? then Stop(k) else Reaction(k.(phase := ReleaseRead), Some(Get), None)
    case ReleaseHeld(presented, confirm) =>
      if presented == FREE then Stop(k) else Reaction(k.(phase := HeldRead(presented, confirm)), Some(Get), None)
  }

  datatype Exchange = Exchange(request: Request, reply: Reply)

  /** Where a client that reacted with `r` is after exactly these exchanges: each sends the request
      the machine waits for, and each reply is what it reacts to next. */
  function Play(r: Reaction, sent: seq<Exchange>): Option<Client>
    decreases |sent|
  {
    if r.request.None? then if sent == [] then Some(r.client) else None
    else if sent == [] || Some(sent[0].request) != r.request then None
    else Play(Receive(r.client, sent[0].reply), sent[1..])
  }

  lemma PlayOne(r: Reaction, x: Exchange)
    requires r.request == Some(x.request) && Receive(r.client, x.reply).request.None?
    ensures Play(r, [x]) == Some(Receive(r.client, x.reply).client)
  {
    assert [x][1..] == [];
  }

  lemma PlayTwo(r: Reaction, x: Exchange, y: Exchange)
    requires r.request == Some(x.request)
    requires var s := Receive(r.client, x.reply);
             s.request == Some(y.request) && Receive(s.client, y.reply).request.None?
    ensures Play(r, [x, y]) == Some(Receive(Receive(r.client, x.reply).client, y.reply).client)
  {
    assert [x, y][1..] == [y];
    PlayOne(Receive(r.client, x.reply), y);
  }

  // ----- the client object

  /** The command line to the API server: any reply may come back, also a failure of a write that
      took effect. */
  class Api {
    var log: seq<Exchange>

    constructor ()
      ensures log == []
    {
      log := [];
    }

    method Send(r: Request) returns (reply: Reply)
      modifies this
      ensures log == old(log) + [Exchange(r, reply)]
    {
      reply := *;
      log := log + [Exchange(r, reply)];
    }
  }

  class DeploymentLock {
    var owner: Token
    var uid: Option<nat>

    /** This client between two calls. */
    function View(): Client
      reads this
    {
      Client(owner, uid, Idle, 0)
    }

    constructor ()
      ensures owner == FREE && uid.None?
    {
      owner, uid := FREE, None;
    }

    /** What the exchanges of one acquisition decide. */
    method Acquire(api: Api, token: Token) returns (ok: bool)
      modifies this, api
      ensures old(api.log) <= api.log
      ensures Play(Open(old(View()), Call.Acquire(token)), api.log[|old(api.log)|..]) == Some(View())
      ensures old(uid).Some? ==> !ok && api.log == old(api.log) && owner == old(owner) && uid == old(uid)
      ensures old(uid).None? ==>
                && owner == token && |api.log| > |old(api.log)| && old(api.log) < api.log
                && var sent := api.log[|old(api.log)|..];
                   var read := sent[0].reply;
                   && sent[0].request == Get && |sent| <= 2
                   && (read.Failed? || (read.Object? && read.obj.owner != "") ==> |sent| == 1 && uid.None?)
                   && (read.Absent? ==> |sent| == 2 && sent[1].request == Create(token, "acquired"))
                   && (read.Object? && read.obj.owner == "" ==>
                         && |sent| == 2
                         && sent[1].request == Patch(read.obj.uid, Some(read.obj.rv), "", Some(token), "acquired"))
                   && (|sent| == 2 ==>
                         uid == if sent[1].reply.Object? && sent[1].reply.obj.owner == token
                                then Some(sent[1].reply.obj.uid) else None)
                   && ok == uid.Some?
    {
      if uid.Some? {
        return false;
      }
      ghost var open := Open(View(), Call.Acquire(token));
      owner := token;
      var read := api.Send(Get);
      if read.Failed? || (read.Object? && read.obj.owner != FREE) {
        PlayOne(open, Exchange(Get, read));
        return false;
      }
      var written: Reply;
      if read.Absent? {
        written := api.Send(Create(owner, "acquired"));
      } else {
        written := api.Send(Patch(read.obj.uid, Some(read.obj.rv), read.obj.owner, Some(owner), "acquired"));
      }
      PlayTwo(open, Exchange(Get, read), Exchange(ClaimAfter(read, token).value, written));
      if !written.Object? || written.obj.owner != owner {
        return false;
      }
      uid := Some(written.obj.uid);
      return true;
    }

    method Check(api: Api) returns (ok: bool)
      modifies api
      ensures old(api.log) <= api.log
      ensures Play(Open(old(View()), Call.Check), api.log[|old(api.log)|..]) == Some(View())
      ensures uid.None? ==> !ok && api.log == old(api.log)
      ensures uid.Some? ==>
                exists read ::
                  && api.log == old(api.log) + [Exchange(Get, read)]
                  && ok == (read.Object? && read.obj.uid == uid.value && read.obj.owner == owner)
    {
      if uid.None? {
        return false;
      }
      var read := api.Send(Get);
      PlayOne(Open(View(), Call.Check), Exchange(Get, read));
      return read.Object? && read.obj.uid == uid.value && read.obj.owner == owner;
    }

    /** Clears ownership of the object it still owns, and forgets it only on confirmation. */
    method Release(api: Api) returns (ok: bool)
      modifies this, api
      ensures old(api.log) <= api.log
      ensures Play(Open(old(View()), Call.Release), api.log[|old(api.log)|..]) == Some(View())
      ensures owner == old(owner)
      ensures old(uid).None? ==> !ok && api.log == old(api.log) && uid.None?
      ensures old(uid).Some? ==>
                && |api.log| > |old(api.log)|
                && var sent := api.log[|old(api.log)|..];
                   var read := sent[0].reply;
                   var owned := read.Object? && read.obj.uid == old(uid).value && read.obj.owner == owner;
                   && sent[0].request == Get
                   && (!owned ==> |sent| == 1 && !ok)
                   && (owned ==>
                         && |sent| == 2
                         && sent[1].request == Patch(old(uid).value, Some(read.obj.rv), owner, Some(""), "")
                         && ok == (sent[1].reply.Object? && sent[1].reply.obj.uid == old(uid).value
                                   && sent[1].reply.obj.owner == ""))
                   && uid == if ok then None else old(uid)
    {
      if uid.None? {
        return false;
      }
      ghost var open := Open(View(), Call.Release);
      var read := api.Send(Get);
      if !Owns(read, uid.value, owner) {
        PlayOne(open, Exchange(Get, read));
        return false;
      }
      var written := api.Send(Clearing(read.obj));
      PlayTwo(open, Exchange(Get, read), Exchange(Clearing(read.obj), written));
      if !written.Object? || written.obj.uid != uid.value || written.obj.owner != FREE {
        return false;
      }
      uid := None;
      return true;
    }

    method Note(api: Api, stage: string) returns (ok: bool)
      modifies api
      ensures old(api.log) <= api.log
      ensures Play(Open(old(View()), Call.Note(stage)), api.log[|old(api.log)|..]) == Some(View())
      ensures uid.None? ==> !ok && api.log == old(api.log)
      ensures uid.Some? ==>
                exists reply ::
                  && api.log == old(api.log) + [Exchange(Patch(uid.value, None, owner, None, stage), reply)]
                  && ok == !reply.Failed?
    {
      if uid.None? {
        return false;
      }
      var reply := api.Send(Noting(uid.value, owner, stage));
      PlayOne(Open(View(), Call.Note(stage)), Exchange(Noting(uid.value, owner, stage), reply));
      return !reply.Failed?;
    }

    /** An operator clears the lock of a run that died: only with the current token, only confirmed. */
    method ReleaseHeld(api: Api, token: Token, confirm: bool) returns (ok: bool)
      modifies api
      ensures old(api.log) <= api.log
      ensures Play(Open(old(View()), Call.ReleaseHeld(token, confirm)), api.log[|old(api.log)|..]) == Some(View())
      ensures token == FREE ==> !ok && api.log == old(api.log)
      ensures token != FREE ==>
                && |api.log| > |old(api.log)|
                && var sent := api.log[|old(api.log)|..];
                   var read := sent[0].reply;
                   var matches := read.Object? && read.obj.owner == token;
                   && sent[0].request == Get
                   && (!matches || !confirm ==> |sent| == 1 && !ok)
                   && (matches && confirm ==>
                         && |sent| == 2
                         && sent[1].request == Patch(read.obj.uid, Some(read.obj.rv), token, Some(""), "")
                         && ok == (sent[1].reply.Object? && sent[1].reply.obj.uid == read.obj.uid
                                   && sent[1].reply.obj.owner == ""))
    {
      if token == FREE {
        return false;
      }
      var read := api.Send(Get);
      ghost var open := Open(View(), Call.ReleaseHeld(token, confirm));
      if !read.Object? || read.obj.owner == FREE || read.obj.owner != token || !confirm {
        PlayOne(open, Exchange(Get, read));
        return false;
      }
      var written := api.Send(Clearing(read.obj));
      PlayTwo(open, Exchange(Get, read), Exchange(Clearing(read.obj), written));
      return written.Object? && written.obj.uid == read.obj.uid && written.obj.owner == FREE;
    }
  }
}
