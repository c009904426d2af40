/** The engine's identity decisions over its life (`control.rs`): restarts, connection attempts,
    issued certificates, promotions and refusals, with a crash possible after every disk step. */
module Renewal {
  import opened Common
  import opened Identity

  datatype Loaded = Loaded(id: Text, cert: Text, key: Text, ca: Text) | Absent | Unreadable

  /** `load_identity_dir`. */
  function Load(d: Option<Dir>): Loaded {
    if d.None? || ID !in d.value then Absent
    else if CERT !in d.value || KEY !in d.value || CA !in d.value then Unreadable
    else Loaded(d.value[ID], d.value[CERT], d.value[KEY], d.value[CA])
  }

  /** What enrolment fixed: the pinned CA and the engine's ID. */
  datatype Base = Base(ca: Text, id: Text)

  /** A complete identity of this engine whose certificate and key were issued together. */
  predicate Genuine(base: Base, issued: map<Text, Text>, d: Dir) {
    && Complete(d) && d[CERT] in issued && issued[d[CERT]] == d[KEY]
    && d[CA] == base.ca && d[ID] == base.id
  }

  predicate Confirmed(base: Base, issued: map<Text, Text>, accepted: set<Text>, d: Option<Dir>) {
    d.Some? && Genuine(base, issued, d.value) && d.value[CERT] in accepted
  }

  /** What every disk state satisfies, also one a crash froze: the identity in place is genuine and
      has authenticated a stream, or it is missing between two renames and the staged one is and has. */
  predicate Safe(base: Base, issued: map<Text, Text>, accepted: set<Text>, t: Tree) {
    && (if t.current.Some? then Confirmed(base, issued, accepted, t.current)
        else Confirmed(base, issued, accepted, t.staged))
    && (CompleteAt(t, Staged) ==> Genuine(base, issued, t.staged.value))
  }

  /** Recovery from any safe state ends with a complete, genuine, confirmed identity in place, and
      keeps a staged one only if it is genuine. */
  lemma RecoveredInService(base: Base, issued: map<Text, Text>, accepted: set<Text>, t: Tree)
    requires Safe(base, issued, accepted, t)
    ensures var r := Recovered(t);
            && Confirmed(base, issued, accepted, r.current) && Safe(base, issued, accepted, r)
            && (r.staged.Some? ==> Genuine(base, issued, r.staged.value)) && r.old_.None? && r.tmp.None?
            && Recovered(r) == r
    ensures t.current.Some? ==> Recovered(t).current == t.current
    ensures t.current.None? ==> Recovered(t).current == t.staged
  {
  }

  /** More issued pairs and accepted certificates never make a state unsafe. */
  lemma SafeGrows(base: Base, issued: map<Text, Text>, accepted: set<Text>, t: Tree, cert: Text, key: Text)
    requires Safe(base, issued, accepted, t) && (cert in issued ==> issued[cert] == key)
    ensures Safe(base, issued[cert := key], accepted, t) && Safe(base, issued, accepted + {cert}, t)
  {
  }

  lemma SubStaysSafe(base: Base, issued: map<Text, Text>, accepted: set<Text>, t: Tree, staged: Option<Dir>)
    requires Safe(base, issued, accepted, t) && t.current.Some? && Sub(staged, t.staged)
    ensures Safe(base, issued, accepted, t.(staged := staged))
  {
  }

  /** Staging keeps the CA and the engine ID and carries exactly the issued pair. */
  lemma RenewalGenuine(base: Base, issued: map<Text, Text>, d: Dir, cert: Text, key: Text)
    requires Genuine(base, issued, d) && cert in issued && issued[cert] == key
    ensures Genuine(base, issued, Renewal(d, cert, key))
  {
    assert !Temporary(CA) && !Temporary(ID);
  }

  /** A stream asked for with the identity of certificate `cert`, and the plane's answer. */
  datatype Stream = Stream(cert: Text, accepted: bool)

  /** The management plane: the pairs it issued, each certificate with one key, the certificates
      whose streams it accepted, and every stream it was asked for. */
  class Management {
    var issued: map<Text, Text>
    var accepted: set<Text>
    var streams: seq<Stream>

    constructor (cert: Text, key: Text)
      ensures issued == map[cert := key] && accepted == {cert} && streams == []
    {
      issued, accepted, streams := map[cert := key], {cert}, [];
    }

    /** Whether a stream with this certificate is accepted is the plane's choice. */
    method Connect(cert: Text) returns (ok: bool)
      modifies this
      ensures issued == old(issued) && accepted == if ok then old(accepted) + {cert} else old(accepted)
      ensures streams == old(streams) + [Stream(cert, ok)]
    {
      ok := *;
      if ok {
        accepted := accepted + {cert};
      }
      streams := streams + [Stream(cert, ok)];
    }

    /** Perhaps a certificate for a key of the engine's, paired with no other key. */
    method Issue() returns (pair: Option<(Text, Text)>)
      modifies this
      ensures accepted == old(accepted) && streams == old(streams)
      ensures pair.None? ==> issued == old(issued)
      ensures pair.Some? ==> issued == old(issued)[pair.value.0 := pair.value.1]
                             && (pair.value.0 in old(issued) ==> old(issued)[pair.value.0] == pair.value.1)
    {
      var cert: Text, key: Text := *, *;
      if cert in issued && issued[cert] != key {
        return None;
      }
      issued := issued[cert := key];
      return Some((cert, key));
    }
  }

  /** The identity a restart would find. */
  function Found(t: Tree): Option<Dir> {
    Recovered(t).current
  }

  /** The identity stays, or the staged one with certificate `cert` takes its place whole. */
  predicate Moves(t: Tree, u: Tree, cert: Text) {
    || Found(u) == Found(t)
    || (t.staged.Some? && Found(u) == t.staged && CERT in t.staged.value && t.staged.value[CERT] == cert)
  }

  datatype Ending = Denied | OtherError | Renewed

  /** How one control stream went: whether it was accepted, the pair issued over it, why it ended. */
  datatype Outcome = Outcome(accepted: bool, pair: Option<(Text, Text)>, ending: Ending)

  /** A complete identity with certificate `cert`. */
  predicate Holds(d: Option<Dir>, cert: Text) {
    && d.Some? && "engine_id" in d.value && "ca.pem" in d.value && "key.pem" in d.value
    && "cert.pem" in d.value && d.value["cert.pem"] == cert
  }

  /** `d` is the identity `from` with the pair in place of its own. */
  predicate Renews(d: Option<Dir>, from: Option<Dir>, pair: (Text, Text)) {
    && d.Some? && from.Some? && Holds(d, pair.0) && d.value["key.pem"] == pair.1
    && Complete(from.value) && d.value["ca.pem"] == from.value["ca.pem"]
    && d.value["engine_id"] == from.value["engine_id"]
  }

  class Engine {
    const disk: Disk
    const plane: Management
    var identity: Loaded
    var fallback: Option<Loaded>
    ghost const base: Base

    /** An enrolled engine: a complete identity the plane issued and accepted. */
    constructor (disk: Disk, plane: Management, d: Dir)
      requires Complete(d) && disk.tree == Tree(Some(d), None, None, None)
      requires plane.issued == map[d[CERT] := d[KEY]] && plane.accepted == {d[CERT]}
      ensures this.disk == disk && this.plane == plane && base == Base(d[CA], d[ID]) && Running()
    {
      this.disk, this.plane, identity, fallback := disk, plane, Load(Some(d)), None;
      base := Base(d[CA], d[ID]);
    }

    ghost predicate Valid()
      reads this, disk, plane
    {
      Safe(base, plane.issued, plane.accepted, disk.tree)
    }

    /** While the engine runs, its identity is in place. */
    ghost predicate Running()
      reads this, disk, plane
    {
      Valid() && identity.Loaded? && (disk.alive ==> disk.tree.current.Some?)
    }

    /** A restart: recovery first, then the identity is loaded. A crash inside leaves a safe state,
        from which the next restart ends where this one would have. */
    method Boot()
      requires Valid() && identity.Loaded?
      modifies this, disk
      ensures Running()
      ensures disk.alive ==>
                && disk.tree == Recovered(old(disk.tree)) && identity == Load(disk.tree.current)
                && Confirmed(base, plane.issued, plane.accepted, disk.tree.current) && fallback.None?
                && Holds(disk.tree.current, identity.cert) && identity.key == disk.tree.current.value["key.pem"]
      ensures Recovered(disk.tree) == Recovered(old(disk.tree))
    {
      disk.alive, fallback := true, None;
      ghost var was := disk.tree;
      disk.Recover();
      RecoveredInService(base, plane.issued, plane.accepted, was);
      if was.current.Some? {
        SubStaysSafe(base, plane.issued, plane.accepted, was, disk.tree.staged);
      }
      if disk.alive {
        identity := Load(disk.tree.current);
      }
    }

    /** The stream was accepted with the current identity: the renewed one that failed is dropped. */
    method DropFailed()
      requires Running()
      modifies disk
      ensures Running() && Found(disk.tree) == Found(old(disk.tree)) && (disk.alive ==> old(disk.alive))
      ensures disk.alive ==>
                disk.tree == if fallback.Some? && fallback.value.Loaded?
                                && Holds(old(disk.tree).staged, fallback.value.cert)
                             then old(disk.tree).(staged := None)
                             else old(disk.tree)
      ensures fallback.None? ==> disk.tree == old(disk.tree) && disk.alive == old(disk.alive)
    {
      var onDisk := Load(disk.tree.staged);
      if disk.alive && fallback.Some? && fallback.value.Loaded? && onDisk.Loaded?
         && onDisk.cert == fallback.value.cert {
        Discard();
      }
    }

    method Discard()
      requires Running() && disk.alive
      modifies disk
      ensures Running() && Found(disk.tree) == Found(old(disk.tree))
      ensures disk.alive ==> disk.tree == old(disk.tree).(staged := None)
    {
      ghost var was := disk.tree;
      disk.DiscardStaged();
      SubStaysSafe(base, plane.issued, plane.accepted, was, disk.tree.staged);
    }

    /** The stream was accepted with a staged identity: it is promoted if it still is the staged one. */
    method PromoteUsed(used: Loaded)
      requires Running() && used.Loaded? && used.cert in plane.accepted
      modifies disk
      ensures Running() && Moves(old(disk.tree), disk.tree, used.cert) && (disk.alive ==> old(disk.alive))
      ensures !old(disk.alive) ==> disk.tree == old(disk.tree)
      ensures disk.alive ==>
                if Holds(old(disk.tree).staged, used.cert)
                then disk.tree.current == old(disk.tree.staged) && disk.tree.staged.None?
                else disk.tree == old(disk.tree)
    {
      var onDisk := Load(disk.tree.staged);
      if disk.alive && onDisk.Loaded? && onDisk.cert == used.cert {
        var ok := disk.Promote();
      }
    }

    /** An issued pair is staged beside the current identity. */
    method StageIssued(cert: Text, key: Text)
      requires Running() && cert in plane.issued && plane.issued[cert] == key
      modifies disk
      ensures Running() && Found(disk.tree) == Found(old(disk.tree))
      ensures disk.alive ==>
                && old(disk.alive) && disk.tree.current == old(disk.tree.current)
                && Renews(disk.tree.staged, disk.tree.current, (cert, key))
    {
      ghost var was := disk.tree;
      disk.Stage(cert, key);
      if was.current.Some? {
        RenewalGenuine(base, plane.issued, was.current.value, cert, key);
        if Sub(disk.tree.staged, was.staged) {
          SubStaysSafe(base, plane.issued, plane.accepted, was, disk.tree.staged);
        }
      }
    }

    /** One control stream with `used`; its outcome is the plane's choice. An accepted stream drops the
        renewal that failed before, promotes `used` if it still is the staged identity, and stages the
        pair issued over it. */
    method Session(used: Loaded, staged: bool) returns (o: Outcome)
      requires Running() && used.Loaded?
      modifies disk, plane
      ensures Running() && (disk.alive ==> old(disk.alive))
      ensures plane.accepted == if o.accepted then old(plane.accepted) + {used.cert} else old(plane.accepted)
      ensures plane.streams == old(plane.streams) + [Stream(used.cert, o.accepted)]
      ensures Found(disk.tree) == Found(old(disk.tree))
              || (staged && o.accepted && Moves(old(disk.tree), disk.tree, used.cert))
      ensures o.pair.Some? <==> o.ending.Renewed?
      ensures !o.accepted ==> o.pair.None? && disk.tree == old(disk.tree) && disk.alive == old(disk.alive)
      ensures o.accepted && disk.alive ==>
                disk.tree.current == if Promoted(old(disk.tree), used, staged) then old(disk.tree.staged)
                                     else old(disk.tree.current)
      ensures o.accepted && disk.alive && o.pair.None? ==>
                disk.tree.staged == if Dropped(old(disk.tree)) || Promoted(old(disk.tree), used, staged) then None
                                    else old(disk.tree.staged)
      ensures disk.alive && o.pair.Some? ==> Renews(disk.tree.staged, disk.tree.current, o.pair.value)
    {
      var denied: bool := *;
      o := Outcome(false, None, if denied then Denied else OtherError);
      ghost var issued, accepted := plane.issued, plane.accepted;
      var connected := plane.Connect(used.cert);
      if !connected {
        return;
      }
      o := o.(accepted := true);
      SafeGrows(base, issued, accepted, disk.tree, used.cert,
                if used.cert in issued then issued[used.cert] else used.key);
      DropFailed();
      if staged {
        PromoteUsed(used);
      }
      issued, accepted := plane.issued, plane.accepted;
      var pair := plane.Issue();
      if pair.Some? {
        SafeGrows(base, issued, accepted, disk.tree, pair.value.0, pair.value.1);
        StageIssued(pair.value.0, pair.value.1);
        o := o.(pair := pair, ending := Renewed);
      }
    }

    /** The staged identity is the renewal the engine fell back from. */
    ghost predicate Dropped(t: Tree)
      reads this
    {
      fallback.Some? && fallback.value.Loaded? && Holds(t.staged, fallback.value.cert)
    }

    ghost predicate Promoted(t: Tree, used: Loaded, staged: bool)
      requires used.Loaded?
      reads this
    {
      staged && Holds(t.staged, used.cert) && !Dropped(t)
    }

    /** The certificate the next stream is asked for with: the staged one, unless it just failed. */
    ghost function Next(): (cert: Text)
      requires Running() && disk.alive
      reads this, disk, plane
      ensures fallback.None? && CompleteAt(disk.tree, Staged) ==> Holds(disk.tree.staged, cert)
      ensures fallback.Some? || !CompleteAt(disk.tree, Staged) ==> Holds(disk.tree.current, cert)
    {
      (if Trying() then disk.tree.staged.value else disk.tree.current.value)["cert.pem"]
    }

    ghost predicate Trying()
      reads this, disk
    {
      fallback.None? && CompleteAt(disk.tree, Staged)
    }

    /** One round of the control loop: pick the staged identity unless it just failed, run a session,
        then discard a refused renewal or fall back from a failed one. A staged identity whose stream is
        accepted is the identity in place afterwards. */
    method Round() returns (o: Outcome)
      requires Running()
      modifies this, disk, plane
      ensures Running() && (disk.alive ==> old(disk.alive))
      ensures Found(disk.tree) == Found(old(disk.tree))
              || (exists cert :: cert in plane.accepted && Moves(old(disk.tree), disk.tree, cert))
      ensures old(disk.alive) ==> plane.streams == old(plane.streams) + [Stream(old(Next()), o.accepted)]
      ensures disk.alive ==>
                disk.tree.current == if o.accepted && old(Trying()) then old(disk.tree.staged)
                                     else old(disk.tree.current)
      ensures disk.alive && o.pair.Some? ==>
                o.accepted && Renews(disk.tree.staged, disk.tree.current, o.pair.value) && fallback.None?
      ensures disk.alive && o.accepted && o.pair.None? ==>
                disk.tree.staged == if old(Trying()) || old(Dropped(disk.tree)) then None
                                    else old(disk.tree.staged)
      ensures disk.alive && !o.accepted ==>
                disk.tree.staged == if old(Trying()) && o.ending.Denied? then None else old(disk.tree.staged)
      ensures disk.alive && o.pair.None? ==>
                if old(Trying()) && (o.accepted || !o.ending.Denied?)
                then fallback.Some? && fallback.value.Loaded? && Holds(old(disk.tree).staged, fallback.value.cert)
                else fallback.None?
    {
      var current := Load(disk.tree.current);
      if current.Loaded? {
        identity := current;
      }
      var staged := if fallback.Some? then Absent else Load(disk.tree.staged);
      o := Session(if staged.Loaded? then staged else identity, staged.Loaded?);
      if o.ending.Renewed? {
        fallback := None;
        return;
      }
      var refused := staged.Loaded? && disk.tree.staged.Some? && o.ending.Denied?;
      if refused {
        var onDisk := Load(disk.tree.staged);
        if disk.alive && !(onDisk.Loaded? && onDisk.cert != staged.cert) {
          Discard();
        }
        return;
      }
      fallback := if staged.Loaded? then Some(staged) else None;
    }

    /** A renewal in two rounds: the pair issued in the first is the identity after the second, if that
        stream is accepted. A renewal that fails without being refused is passed over once: with both
        failing, the staged and the current identity alternate and the disk stays. */
    method TwoRounds() returns (one: Outcome, two: Outcome)
      requires Running()
      modifies this, disk, plane
      ensures Running()
      ensures disk.alive && one.pair.Some? && two.accepted ==>
                && |plane.streams| == |old(plane.streams)| + 2
                && plane.streams[|plane.streams| - 1] == Stream(one.pair.value.0, true)
                && Holds(disk.tree.current, one.pair.value.0)
                && disk.tree.current.value["key.pem"] == one.pair.value.1
      ensures disk.alive && old(Trying()) && !one.accepted && !one.ending.Denied? && !two.accepted ==>
                && |plane.streams| == |old(plane.streams)| + 2
                && Holds(disk.tree.staged, plane.streams[|plane.streams| - 2].cert)
                && Holds(disk.tree.current, plane.streams[|plane.streams| - 1].cert)
                && disk.tree.staged == old(disk.tree.staged) && disk.tree.current == old(disk.tree.current)
                && fallback.None?
    {
      one := Round();
      two := Round();
    }

    /** Any life: rounds, crashes anywhere in them, restarts, crashes in restarts. Every state it
        reaches is safe, and whenever the engine is up after a restart the identity in place is complete,
        of one issued pair, with the enrolled CA and engine ID, and has authenticated a stream. */
    method Live(rounds: nat)
      requires Running()
      modifies this, disk, plane
      ensures Running()
      ensures Confirmed(base, plane.issued, plane.accepted, Recovered(disk.tree).current)
    {
      var n := 0;
      while n < rounds
        invariant Running()
      {
        if disk.alive {
          var o := Round();
        } else {
          Boot();
        }
        n := n + 1;
      }
      RecoveredInService(base, plane.issued, plane.accepted, disk.tree);
    }
  }
}
