/** Staging, promoting, discarding and recovering an engine identity on disk (`cert_renewal.rs`). */
module Identity {
  import opened Common

  type Text = string
  type Dir = map<string, Text>

  /** The directories `identity`, `identity.new`, `identity.old` and `identity.new.tmp`. */
  datatype Tree = Tree(current: Option<Dir>, staged: Option<Dir>, old_: Option<Dir>, tmp: Option<Dir>)

  datatype Place = Current | Staged | Old | Tmp

  const CERT: string := "cert.pem"
  const KEY: string := "key.pem"
  const CA: string := "ca.pem"
  const ID: string := "engine_id"

  function At(t: Tree, p: Place): Option<Dir> {
    if p.Current? then t.current else if p.Staged? then t.staged else if p.Old? then t.old_ else t.tmp
  }

  function With(t: Tree, p: Place, d: Option<Dir>): Tree {
    if p.Current? then t.(current := d)
    else if p.Staged? then t.(staged := d)
    else if p.Old? then t.(old_ := d)
    else t.(tmp := d)
  }

  predicate Complete(d: Dir) {
    CERT in d && KEY in d && CA in d && ID in d
  }

  predicate CompleteAt(t: Tree, p: Place) {
    At(t, p).Some? && Complete(At(t, p).value)
  }

  predicate Temporary(name: string) {
    |name| >= 4 && name[|name| - 4..] == ".tmp"
  }

  predicate Copied(name: string) {
    name != CERT && name != KEY && !Temporary(name)
  }

  function Others(current: Dir): Dir {
    map f | f in current && Copied(f) :: current[f]
  }

  /** What staging builds: the other files of the current identity, and the new pair. */
  function Renewal(current: Dir, cert: Text, key: Text): Dir {
    Others(current)[CERT := cert][KEY := key]
  }

  /** What recovery makes of a state directory. */
  function Recovered(t: Tree): Tree {
    if t.current.None? && CompleteAt(t, Staged) then Tree(t.staged, None, None, None)
    else
      Tree(if t.current.Some? then t.current else t.old_, if CompleteAt(t, Staged) then t.staged else None, None, None)
  }

  /** Recovery told case by case: an identity in place stays, and a complete staged one beside it; with
      none in place a complete staged one takes it, else the old one does. Nothing else is left. */
  lemma RecoveredExact(t: Tree)
    ensures var r := Recovered(t);
            && r.old_.None? && r.tmp.None?
            && (t.current.Some? ==> r.current == t.current && r.staged == (if Whole(t.staged) then t.staged else None))
            && (t.current.None? && Whole(t.staged) ==> r.current == t.staged && r.staged.None?)
            && (t.current.None? && !Whole(t.staged) ==> r.current == t.old_ && r.staged.None?)
  {
  }

  /** Every file an identity must have is there. */
  predicate Whole(d: Option<Dir>) {
    d.Some? && forall f :: f in ["cert.pem", "key.pem", "ca.pem", "engine_id"] ==> f in d.value
  }

  /** A renewal holds the new pair and exactly the other files of the current identity, temporary ones
      left out. */
  lemma RenewalContents(d: Dir, cert: Text, key: Text, f: string)
    ensures var r := Renewal(d, cert, key);
            && "cert.pem" in r && r["cert.pem"] == cert && "key.pem" in r && r["key.pem"] == key
            && (f != "cert.pem" && f != "key.pem" ==>
                  && (f in r <==> f in d && !(|f| >= 4 && f[|f| - 4..] == ".tmp"))
                  && (f in r ==> r[f] == d[f]))
  {
    assert "cert.pem"[0] != "key.pem"[0];
  }

  /** `d` is `e` with some files gone. */
  predicate Sub(d: Option<Dir>, e: Option<Dir>) {
    d.Some? ==> e.Some? && forall f :: f in d.value ==> f in e.value && d.value[f] == e.value[f]
  }

  /** A directory tree that a crash may freeze after any step: once `alive` is false nothing changes. */
  class Disk {
    var tree: Tree
    var alive: bool

    constructor (tree: Tree)
      ensures this.tree == tree && alive
    {
      this.tree, alive := tree, true;
    }

    /** The engine may be killed here. */
    method MayCrash()
      modifies `alive
      ensures alive ==> old(alive)
    {
      var survives: bool := *;
      alive := alive && survives;
    }

    method CreateDir(p: Place)
      modifies this
      ensures alive ==> old(alive)
      ensures tree == if old(alive) then With(old(tree), p, Some(map[])) else old(tree)
    {
      if alive {
        tree := With(tree, p, Some(map[]));
      }
      MayCrash();
    }

    /** Creates a file, fills it and syncs it; a crash may leave any part of the text. */
    method WriteSynced(p: Place, name: string, text: Text)
      requires alive ==> At(tree, p).Some?
      modifies this
      ensures alive ==> old(alive) && tree == With(old(tree), p, Some(At(old(tree), p).value[name := text]))
      ensures tree == With(old(tree), p, At(tree, p))
      ensures !old(alive) ==> tree == old(tree)
    {
      if alive {
        ghost var was := tree;
        var d, part: Text := At(tree, p).value, *;
        tree := With(tree, p, Some(d[name := part]));
        MayCrash();
        if alive {
          tree := With(tree, p, Some(d[name := text]));
          MayCrash();
        }
      }
    }

    method Rename(p: Place, q: Place)
      requires p != q && (alive ==> At(tree, p).Some? && At(tree, q).None?)
      modifies this
      ensures alive ==> old(alive)
      ensures tree == if old(alive) then With(With(old(tree), p, None), q, At(old(tree), p)) else old(tree)
    {
      if alive {
        tree := With(With(tree, p, None), q, At(tree, p));
      }
      MayCrash();
    }

    /** Removes files in any order, then the directory. */
    method RemoveTree(p: Place)
      modifies this
      ensures alive ==> old(alive) && At(tree, p).None?
      ensures tree == With(old(tree), p, At(tree, p)) && Sub(At(tree, p), At(old(tree), p))
      ensures !old(alive) ==> tree == old(tree)
    {
      if !alive || At(tree, p).None? {
        return;
      }
      ghost var was := tree;
      var d := At(tree, p).value;
      while alive && d != map[]
        invariant tree == With(was, p, Some(d)) && Sub(Some(d), At(was, p))
        decreases |d|
      {
        var name :| name in d;
        ghost var before := d.Keys;
        d := d - {name};
        assert d.Keys == before - {name};
        tree := With(tree, p, Some(d));
        MayCrash();
      }
      if alive {
        tree := With(tree, p, None);
        MayCrash();
      }
    }

    /** Copies the files that staging keeps. */
    method CopyOthers()
      requires alive ==> tree.current.Some? && tree.tmp == Some(map[])
      modifies this
      ensures alive ==> old(alive) && tree.tmp == Some(Others(old(tree).current.value))
      ensures tree == old(tree).(tmp := tree.tmp)
      ensures !old(alive) ==> tree == old(tree)
    {
      if !alive {
        return;
      }
      ghost var was := tree;
      var all := tree.current.value;
      var left := all.Keys;
      while left != {}
        invariant alive && left <= all.Keys && tree.tmp.Some? && tree == was.(tmp := tree.tmp)
        invariant tree.tmp.value == map f | f in all && f !in left && Copied(f) :: all[f]
        decreases |left|
      {
        var name :| name in left;
        left := left - {name};
        if Copied(name) {
          WriteSynced(Tmp, name, all[name]);
        }
        if !alive {
          return;
        }
      }
      assert tree.tmp.value == Others(all);
    }

    /** `stage_identity`: the new pair beside copies of the other files, complete once visible. */
    method Stage(cert: Text, key: Text)
      requires alive ==> tree.current.Some?
      modifies this
      ensures alive ==> old(alive) && tree.staged == Some(Renewal(old(tree).current.value, cert, key)) && tree.tmp.None?
      ensures tree == old(tree).(staged := tree.staged, tmp := tree.tmp)
      ensures Sub(tree.staged, old(tree).staged)
              || (tree.current.Some? && tree.staged == Some(Renewal(tree.current.value, cert, key)))
      ensures !old(alive) ==> tree == old(tree)
    {
      RemoveTree(Tmp);
      RemoveTree(Staged);
      CreateDir(Tmp);
      CopyOthers();
      WriteSynced(Tmp, CERT, cert);
      WriteSynced(Tmp, KEY, key);
      Rename(Tmp, Staged);
    }

    /** `promote_identity`; refused when nothing complete is staged. Whenever it stops, recovery finds
        either the identity from before or the staged one, whole. */
    method Promote() returns (ok: bool)
      requires alive ==> tree.current.Some?
      modifies this
      ensures ok == CompleteAt(old(tree), Staged)
      ensures !ok || !old(alive) ==> tree == old(tree) && alive == old(alive)
      ensures ok && alive ==> old(alive) && tree == Tree(old(tree).staged, None, None, old(tree).tmp)
      ensures ok && old(alive) ==>
                || (tree.current == old(tree).current && tree.staged == old(tree).staged)
                || (tree.current.None? && tree.staged == old(tree).staged)
                || (tree.current == old(tree).staged && tree.staged.None?)
    {
      ok := CompleteAt(tree, Staged);
      if !ok || !alive {
        return;
      }
      RemoveTree(Old);
      if !alive {
        return;
      }
      Rename(Current, Old);
      Rename(Staged, Current);
      RemoveTree(Old);
    }

    method DiscardStaged()
      modifies this
      ensures alive ==> old(alive) && tree.staged.None?
      ensures tree == old(tree).(staged := tree.staged) && Sub(tree.staged, old(tree).staged)
      ensures !old(alive) ==> tree == old(tree)
    {
      RemoveTree(Staged);
    }

    /** `recover_identity`. Stopping it anywhere and recovering again ends in the same place. */
    method Recover()
      modifies this
      ensures alive ==> old(alive) && tree == Recovered(old(tree))
      ensures Recovered(tree) == Recovered(old(tree))
      ensures old(tree).current.Some? ==> tree.current == old(tree).current && Sub(tree.staged, old(tree).staged)
      ensures old(alive) && old(tree).current.None? && CompleteAt(old(tree), Staged) ==>
                tree.current == old(tree).staged && tree.staged.None?
      ensures !old(alive) ==> tree == old(tree)
    {
      if alive && tree.current.None? {
        if CompleteAt(tree, Staged) {
          Rename(Staged, Current);
        } else if tree.old_.Some? {
          Rename(Old, Current);
        }
      }
      RemoveTree(Old);
      RemoveTree(Tmp);
      if tree.staged.Some? && !Complete(tree.staged.value) {
        RemoveTree(Staged);
      }
    }
  }
}
