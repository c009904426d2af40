/** Client policy by the longest matching CIDR (`filter.rs`). */
module Policy {
  import opened Common
  import opened Acl

  /** Network bits at a prefix length: the host bits cleared. */
  function Masked(bits: nat, v6: bool, len: nat): nat
    requires len <= Width(v6)
  {
    var p := Pow2(Width(v6) - len);
    DivMod(bits, p);
    bits / p * p
  }

  predicate Truncated(c: Cidr) {
    CidrOk(c) && c.bits == Masked(c.bits, c.v6, c.len)
  }

  /** Which group owns which CIDR. */
  type Nets = map<Cidr, nat>

  predicate NetsOk(nets: Nets) {
    forall c :: c in nets ==> Truncated(c)
  }

  lemma ContainsByMask(c: Cidr, ip: Ip)
    requires Truncated(c) && c.v6 == ip.V6?
    ensures Contains(c, ip) <==> Masked(ip.bits, c.v6, c.len) == c.bits
  {
    var p := Pow2(Width(c.v6) - c.len);
    if ip.bits / p * p == c.bits / p * p {
      SameQuotient(ip.bits / p, c.bits / p, p);
    }
  }

  lemma SameQuotient(m: nat, n: nat, p: nat)
    requires p > 0 && m * p == n * p
    ensures m == n
  {
    if m < n {
      MulLess(m, n, p);
    } else if n < m {
      MulLess(n, m, p);
    }
  }

  // ----- building

  type Groups = seq<seq<Option<Cidr>>>

  predicate At(groups: Groups, g: int, i: int) {
    0 <= g < |groups| && 0 <= i < |groups[g]|
  }

  /** Position `(g, i)` comes before `(h, j)` in visiting order. */
  predicate Earlier(g: int, i: int, h: int, j: int) {
    g < h || (g == h && i < j)
  }

  predicate Wellformed(o: Option<Cidr>) {
    o.Some? && Truncated(o.value)
  }

  /** `nets` holds exactly the CIDRs of the positions before `(h, j)`, each once, with its group. */
  ghost predicate Holds(nets: Nets, groups: Groups, h: nat, j: nat) {
    && (forall g, i {:trigger groups[g][i]} :: At(groups, g, i) && Earlier(g, i, h, j) ==>
          Wellformed(groups[g][i]) && groups[g][i].value in nets && nets[groups[g][i].value] == g)
    && (forall c {:trigger c in nets} :: c in nets ==>
          exists g, i {:trigger groups[g][i]} :: At(groups, g, i) && Earlier(g, i, h, j) && groups[g][i] == Some(c))
    && (forall g, i, k, l {:trigger groups[g][i], groups[k][l]} ::
          At(groups, g, i) && At(groups, k, l) && Earlier(k, l, h, j) && Earlier(g, i, k, l) ==>
            groups[g][i] != groups[k][l])
  }

  /** The list is refused at a text that is no truncated CIDR, or at a repeated CIDR. */
  ghost predicate Clashes(groups: Groups, h: nat, j: nat) {
    && At(groups, h, j)
    && (!Wellformed(groups[h][j]) || exists g, i {:trigger groups[g][i]} ::
          At(groups, g, i) && Earlier(g, i, h, j) && groups[g][i] == groups[h][j])
  }

  /** Nothing before position `(h, j)` is refused. */
  ghost predicate CleanBefore(groups: Groups, h: nat, j: nat) {
    forall g, i {:trigger groups[g][i]} :: At(groups, g, i) && Earlier(g, i, h, j) ==> !Clashes(groups, g, i)
  }

  lemma HoldsClean(nets: Nets, groups: Groups, h: nat, j: nat)
    requires Holds(nets, groups, h, j)
    ensures CleanBefore(groups, h, j)
  {
    forall k, l | At(groups, k, l) && Earlier(k, l, h, j)
      ensures !Clashes(groups, k, l)
    {
      assert Wellformed(groups[k][l]);
    }
  }

  lemma HoldsStep(nets: Nets, groups: Groups, h: nat, j: nat)
    requires At(groups, h, j) && Holds(nets, groups, h, j) && Wellformed(groups[h][j]) && groups[h][j].value !in nets
    ensures Holds(nets[groups[h][j].value := h], groups, h, j + 1)
  {
    var c := groups[h][j].value;
    var more := nets[c := h];
    forall g, i | At(groups, g, i) && Earlier(g, i, h, j + 1)
      ensures Wellformed(groups[g][i]) && groups[g][i].value in more && more[groups[g][i].value] == g
    {
      if (g, i) != (h, j) {
        assert Earlier(g, i, h, j);
        assert groups[g][i].value in nets;
      }
    }
    forall d | d in more
      ensures exists g, i {:trigger groups[g][i]} ::
                At(groups, g, i) && Earlier(g, i, h, j + 1) && groups[g][i] == Some(d)
    {
      if d == c {
        assert groups[h][j] == Some(d);
      } else {
        assert d in nets;
      }
    }
    forall g, i, k, l | At(groups, g, i) && At(groups, k, l) && Earlier(k, l, h, j + 1) && Earlier(g, i, k, l)
      ensures groups[g][i] != groups[k][l]
    {
      assert Earlier(g, i, h, j) && Wellformed(groups[g][i]) && groups[g][i].value in nets;
    }
  }

  lemma HoldsNextGroup(nets: Nets, groups: Groups, h: nat)
    requires h < |groups| && Holds(nets, groups, h, |groups[h]|)
    ensures Holds(nets, groups, h + 1, 0)
  {
    forall g, i | At(groups, g, i) && Earlier(g, i, h + 1, 0)
      ensures Earlier(g, i, h, |groups[h]|)
    {
    }
    forall c | c in nets
      ensures exists g, i {:trigger groups[g][i]} ::
                At(groups, g, i) && Earlier(g, i, h + 1, 0) && groups[g][i] == Some(c)
    {
      var g, i :| At(groups, g, i) && Earlier(g, i, h, |groups[h]|) && groups[g][i] == Some(c);
      assert Earlier(g, i, h + 1, 0);
    }
  }

  /** The CIDR part of `PolicyTable::build`: each CIDR to its group, or the first position that is refused. */
  method Build(groups: Groups) returns (nets: Option<Nets>, ghost at: (nat, nat))
    ensures nets.Some? ==>
              Holds(nets.value, groups, |groups|, 0) && NetsOk(nets.value) && CleanBefore(groups, |groups|, 0)
    ensures nets.None? ==> Clashes(groups, at.0, at.1) && CleanBefore(groups, at.0, at.1)
  {
    at := (0, 0);
    var all: Nets := map[];
    var h := 0;
    while h < |groups|
      invariant 0 <= h <= |groups| && Holds(all, groups, h, 0)
    {
      var j := 0;
      while j < |groups[h]|
        invariant 0 <= j <= |groups[h]| && Holds(all, groups, h, j)
      {
        var o := groups[h][j];
        HoldsClean(all, groups, h, j);
        if o.None? || !CidrOk(o.value) || o.value.bits != Masked(o.value.bits, o.value.v6, o.value.len) {
          return None, (h, j);
        }
        if o.value in all {
          return None, (h, j);
        }
        HoldsStep(all, groups, h, j);
        all := all[o.value := h];
        j := j + 1;
      }
      HoldsNextGroup(all, groups, h);
      h := h + 1;
    }
    HoldsClean(all, groups, |groups|, 0);
    forall c | c in all
      ensures Truncated(c)
    {
      var g, i :| At(groups, g, i) && Earlier(g, i, |groups|, 0) && groups[g][i] == Some(c);
      assert Wellformed(groups[g][i]);
    }
    nets := Some(all);
  }

  // ----- per-length maps, longest first

  datatype Level = Level(len: nat, map_: map<nat, nat>)

  /** The level holds the given CIDRs of its length. */
  predicate LevelOf(l: Level, nets: Nets, v6: bool) {
    && (forall b :: b in l.map_ ==> Cidr(v6, b, l.len) in nets && nets[Cidr(v6, b, l.len)] == l.map_[b])
    && (forall c :: c in nets && c.v6 == v6 && c.len == l.len ==> c.bits in l.map_)
    && l.map_ != map[]
  }

  predicate DistinctLens(ls: seq<Level>) {
    forall i, j :: 0 <= i < j < |ls| ==> ls[i].len != ls[j].len
  }

  predicate Descending(ls: seq<Level>) {
    forall i, j :: 0 <= i < j < |ls| ==> ls[i].len > ls[j].len
  }

  predicate HasLen(ls: seq<Level>, len: nat) {
    exists i :: 0 <= i < |ls| && ls[i].len == len
  }

  predicate LevelsOf(ls: seq<Level>, nets: Nets, v6: bool) {
    && (forall i :: 0 <= i < |ls| ==> LevelOf(ls[i], nets, v6))
    && (forall c :: c in nets && c.v6 == v6 ==> HasLen(ls, c.len))
  }

  /** Adds one CIDR to the level of its length, opening one if there is none. */
  method AddTo(ls: seq<Level>, ghost nets: Nets, c: Cidr, group: nat) returns (r: seq<Level>)
    requires DistinctLens(ls) && LevelsOf(ls, nets, c.v6) && c !in nets
    ensures DistinctLens(r) && LevelsOf(r, nets[c := group], c.v6)
  {
    var i := 0;
    while i < |ls| && ls[i].len != c.len
      invariant 0 <= i <= |ls| && forall k :: 0 <= k < i ==> ls[k].len != c.len
    {
      i := i + 1;
    }
    ghost var more := nets[c := group];
    if i < |ls| {
      r := ls[i := Level(c.len, ls[i].map_[c.bits := group])];
    } else {
      assert !HasLen(ls, c.len);
      r := ls + [Level(c.len, map[c.bits := group])];
    }
    LevelsGrow(ls, r, i, nets, c, group);
  }

  lemma LevelsGrow(ls: seq<Level>, r: seq<Level>, i: nat, nets: Nets, c: Cidr, group: nat)
    requires DistinctLens(ls) && LevelsOf(ls, nets, c.v6) && c !in nets && i <= |ls|
    requires i < |ls| ==> ls[i].len == c.len && r == ls[i := Level(c.len, ls[i].map_[c.bits := group])]
    requires i == |ls| ==> !HasLen(ls, c.len) && r == ls + [Level(c.len, map[c.bits := group])]
    ensures LevelsOf(r, nets[c := group], c.v6)
  {
    var more := nets[c := group];
    forall k | 0 <= k < |r|
      ensures LevelOf(r[k], more, c.v6)
    {
      if k < |ls| {
        assert LevelOf(ls[k], nets, c.v6);
      }
    }
    forall d | d in more && d.v6 == c.v6
      ensures HasLen(r, d.len)
    {
      if d == c {
        assert r[i].len == d.len;
      } else {
        assert HasLen(ls, d.len);
        var k :| 0 <= k < |ls| && ls[k].len == d.len;
        assert r[k].len == d.len;
      }
    }
  }

  function InsertLevel(l: Level, ls: seq<Level>): (r: seq<Level>)
    requires Descending(ls) && forall i :: 0 <= i < |ls| ==> ls[i].len != l.len
    ensures Descending(r) && forall x :: x in r <==> x == l || x in ls
  {
    if ls == [] || l.len > ls[0].len then [l] + ls
    else
      var rest := InsertLevel(l, ls[1..]);
      assert forall x :: x in ls[1..] ==> x.len < ls[0].len;
      assert forall i :: 0 <= i < |rest| ==> rest[i] in rest && rest[i].len < ls[0].len;
      [ls[0]] + rest
  }

  /** Longest first. */
  function SortLevels(ls: seq<Level>): (r: seq<Level>)
    requires DistinctLens(ls)
    ensures Descending(r) && forall x :: x in r <==> x in ls
  {
    if ls == [] then []
    else
      var r := SortLevels(ls[1..]);
      assert forall i :: 0 <= i < |r| ==> r[i] in r && r[i] in ls[1..];
      InsertLevel(ls[0], r)
  }

  lemma SortedLevelsOf(ls: seq<Level>, nets: Nets, v6: bool)
    requires DistinctLens(ls) && LevelsOf(ls, nets, v6)
    ensures LevelsOf(SortLevels(ls), nets, v6)
  {
    var r := SortLevels(ls);
    forall i | 0 <= i < |r|
      ensures LevelOf(r[i], nets, v6)
    {
      assert r[i] in ls;
    }
    forall c | c in nets && c.v6 == v6
      ensures HasLen(r, c.len)
    {
      var i :| 0 <= i < |ls| && ls[i].len == c.len;
      assert ls[i] in r;
      var k :| 0 <= k < |r| && r[k] == ls[i];
    }
  }

  /** `by_prefix_len`, whatever order the hash map yields its entries in. */
  method ByPrefixLen(nets: Nets, v6: bool) returns (ls: seq<Level>)
    ensures Descending(ls) && LevelsOf(ls, nets, v6)
  {
    var found: seq<Level> := [];
    var left := nets.Keys;
    assert Visited(nets, left, v6) == map[];
    while left != {}
      invariant left <= nets.Keys && DistinctLens(found) && LevelsOf(found, Visited(nets, left, v6), v6)
      decreases |left|
    {
      var c :| c in left;
      VisitStep(nets, left, c, v6);
      if c.v6 == v6 {
        found := AddTo(found, Visited(nets, left, v6), c, nets[c]);
      }
      left := left - {c};
    }
    SortedLevelsOf(found, Visited(nets, {}, v6), v6);
    ls := SortLevels(found);
    SameFamily(ls, Visited(nets, {}, v6), nets, v6);
  }

  /** The family's entries already taken from the map. */
  ghost function Visited(nets: Nets, left: set<Cidr>, v6: bool): Nets {
    map c | c in nets && c !in left && c.v6 == v6 :: nets[c]
  }

  lemma VisitStep(nets: Nets, left: set<Cidr>, c: Cidr, v6: bool)
    requires c in left && left <= nets.Keys
    ensures c !in Visited(nets, left, v6)
    ensures Visited(nets, left - {c}, v6)
            == if c.v6 == v6 then Visited(nets, left, v6)[c := nets[c]] else Visited(nets, left, v6)
  {
  }

  lemma SameFamily(ls: seq<Level>, done: Nets, nets: Nets, v6: bool)
    requires LevelsOf(ls, done, v6) && done == Visited(nets, {}, v6)
    ensures LevelsOf(ls, nets, v6)
  {
    forall i | 0 <= i < |ls|
      ensures LevelOf(ls[i], nets, v6)
    {
      assert LevelOf(ls[i], done, v6);
    }
  }

  // ----- selecting

  /** `c` is a longest CIDR of the table that contains the address. */
  predicate Longest(nets: Nets, c: Cidr, ip: Ip)
    requires NetsOk(nets)
  {
    c in nets && Contains(c, ip) && forall d :: d in nets && Contains(d, ip) ==> d.len <= c.len
  }

  /** There is at most one. */
  lemma LongestUnique(nets: Nets, c: Cidr, d: Cidr, ip: Ip)
    requires NetsOk(nets) && Longest(nets, c, ip) && Longest(nets, d, ip)
    ensures c == d
  {
    ContainsByMask(c, ip);
    ContainsByMask(d, ip);
  }

  /** The search over one family's levels. */
  method Search(ls: seq<Level>, ghost nets: Nets, ip: Ip) returns (r: Option<nat>)
    requires NetsOk(nets) && Descending(ls) && LevelsOf(ls, nets, ip.V6?)
    ensures r.Some? ==> exists c :: Longest(nets, c, ip) && nets[c] == r.value
    ensures r.None? ==> forall c :: c in nets ==> !Contains(c, ip)
  {
    var n := 0;
    while n < |ls|
      invariant 0 <= n <= |ls|
      invariant forall c, k :: c in nets && 0 <= k < n && c.len == ls[k].len ==> !Contains(c, ip)
    {
      assert LevelOf(ls[n], nets, ip.V6?);
      LevelLength(ls[n], nets, ip.V6?);
      var bits := Masked(ip.bits, ip.V6?, ls[n].len);
      if bits in ls[n].map_ {
        ghost var c := Cidr(ip.V6?, bits, ls[n].len);
        LevelHit(ls, n, nets, ip, c);
        return Some(ls[n].map_[bits]);
      }
      LevelMiss(ls[n], nets, ip);
      n := n + 1;
    }
    forall c | c in nets
      ensures !Contains(c, ip)
    {
      if c.v6 == ip.V6? {
        assert HasLen(ls, c.len);
        var k :| 0 <= k < |ls| && ls[k].len == c.len;
      }
    }
    return None;
  }

  lemma LevelLength(l: Level, nets: Nets, v6: bool)
    requires NetsOk(nets) && LevelOf(l, nets, v6)
    ensures l.len <= Width(v6)
  {
    var b :| b in l.map_;
    assert Truncated(Cidr(v6, b, l.len));
  }

  lemma LevelMiss(l: Level, nets: Nets, ip: Ip)
    requires NetsOk(nets) && LevelOf(l, nets, ip.V6?) && l.len <= Width(ip.V6?)
             && Masked(ip.bits, ip.V6?, l.len) !in l.map_
    ensures forall c :: c in nets && c.len == l.len ==> !Contains(c, ip)
  {
    forall c | c in nets && c.len == l.len
      ensures !Contains(c, ip)
    {
      if c.v6 == ip.V6? {
        ContainsByMask(c, ip);
      }
    }
  }

  lemma LevelHit(ls: seq<Level>, n: nat, nets: Nets, ip: Ip, c: Cidr)
    requires NetsOk(nets) && Descending(ls) && LevelsOf(ls, nets, ip.V6?) && n < |ls| && ls[n].len <= Width(ip.V6?)
    requires c == Cidr(ip.V6?, Masked(ip.bits, ip.V6?, ls[n].len), ls[n].len) && c.bits in ls[n].map_
    requires forall d, k :: d in nets && 0 <= k < n && d.len == ls[k].len ==> !Contains(d, ip)
    ensures Longest(nets, c, ip) && nets[c] == ls[n].map_[c.bits]
  {
    assert LevelOf(ls[n], nets, ip.V6?);
    ContainsByMask(c, ip);
    NoneLonger(ls, n, nets, ip);
  }

  lemma NoneLonger(ls: seq<Level>, n: nat, nets: Nets, ip: Ip)
    requires NetsOk(nets) && Descending(ls) && LevelsOf(ls, nets, ip.V6?) && n < |ls|
    requires forall d, k :: d in nets && 0 <= k < n && d.len == ls[k].len ==> !Contains(d, ip)
    ensures forall d :: d in nets && Contains(d, ip) ==> d.len <= ls[n].len
  {
    forall d | d in nets && Contains(d, ip)
      ensures d.len <= ls[n].len
    {
      assert HasLen(ls, d.len);
      var k :| 0 <= k < |ls| && ls[k].len == d.len;
      assert !(k < n);
    }
  }

  datatype PolicyTable = PolicyTable(v4: seq<Level>, v6: seq<Level>)

  ghost predicate Serves(t: PolicyTable, nets: Nets) {
    && NetsOk(nets) && Descending(t.v4) && Descending(t.v6)
    && LevelsOf(t.v4, nets, false) && LevelsOf(t.v6, nets, true)
  }

  method TableOf(nets: Nets) returns (t: PolicyTable)
    requires NetsOk(nets)
    ensures Serves(t, nets)
  {
    var v4 := ByPrefixLen(nets, false);
    var v6 := ByPrefixLen(nets, true);
    t := PolicyTable(v4, v6);
  }

  /** `PolicyTable::select`: the group of the longest CIDR that contains the address, or none. */
  method Select(t: PolicyTable, ghost nets: Nets, ip: Ip) returns (r: Option<nat>)
    requires Serves(t, nets)
    ensures r.Some? ==> exists c :: Longest(nets, c, Unmapped(ip)) && nets[c] == r.value
    ensures r.None? ==> forall c :: c in nets ==> !Contains(c, Unmapped(ip))
  {
    var u := Unmapped(ip);
    if u.V4? {
      r := Search(t.v4, nets, u);
    } else {
      r := Search(t.v6, nets, u);
    }
  }
}
