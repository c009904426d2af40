/** What a possibly compressed name spells, as a relation, and that reading finds exactly that
    (`read_name` in `wire.rs`). */
module NameSpelling {
  import opened Common
  import opened Bytes
  import opened DnsNames
  import opened WireNames

  /** `key` begins with the octets of the label at `pos`, its length first, letters in lowercase. */
  predicate Labelled(msg: seq<byte>, pos: nat, key: seq<byte>, n: nat) {
    && n <= |key| && pos + n <= |msg|
    && forall k :: 0 <= k < n ==> key[k] == if 65 <= msg[pos + k] <= 90 then msg[pos + k] + 32 else msg[pos + k]
  }

  function Pointed(msg: seq<byte>, pos: nat): int
    requires pos + 1 < |msg|
  {
    (msg[pos] as int - 192) * 256 + msg[pos + 1]
  }

  /** The name at `pos` spells `key`: labels of at most 63 octets in lowercase, pointers, each strictly
      back, of which there are `hops`, and the root. */
  predicate Spells(msg: seq<byte>, pos: nat, key: seq<byte>, hops: nat)
    decreases |key|, pos
  {
    && pos < |msg|
    && if msg[pos] == 0 then key == [0] && hops == 0
       else if msg[pos] < 64 then
         var n := 1 + msg[pos] as int;
         n < |key| && Labelled(msg, pos, key, n) && Spells(msg, pos + n, key[n..], hops)
       else
         && 192 <= msg[pos] && pos + 1 < |msg| && hops > 0 && 0 <= Pointed(msg, pos) < pos
         && Spells(msg, Pointed(msg, pos), key, hops - 1)
  }

  /** The name at `pos` stands until `end`: up to its root, or past its first pointer. */
  predicate Until(msg: seq<byte>, pos: nat, end: nat)
    decreases end - pos
  {
    && pos < end <= |msg|
    && if msg[pos] == 0 then end == pos + 1
       else if msg[pos] < 64 then Until(msg, pos + 1 + msg[pos] as int, end)
       else end == pos + 2
  }

  lemma LabelledIs(msg: seq<byte>, pos: nat, key: seq<byte>, n: nat)
    requires n <= |key| && pos + n <= |msg|
    ensures Labelled(msg, pos, key, n) <==> key[..n] == LowerSeq(msg[pos..pos + n])
  {
    if key[..n] == LowerSeq(msg[pos..pos + n]) {
      forall k | 0 <= k < n
        ensures key[k] == LowerByte(msg[pos + k])
      {
        assert key[k] == key[..n][k] == LowerByte(msg[pos..pos + n][k]);
      }
    }
  }

  lemma LabelSpells(msg: seq<byte>, pos: nat, rest: seq<byte>, hops: nat)
    requires pos < |msg| && 0 < msg[pos] < 64 && pos + msg[pos] as int < |msg|
    requires Spells(msg, pos + 1 + msg[pos] as int, rest, hops)
    ensures Spells(msg, pos, LowerSeq(msg[pos..pos + 1 + msg[pos] as int]) + rest, hops)
  {
    var n := 1 + msg[pos] as int;
    var key := LowerSeq(msg[pos..pos + n]) + rest;
    assert key[..n] == LowerSeq(msg[pos..pos + n]) && key[n..] == rest;
    LabelledIs(msg, pos, key, n);
    SpelledLength(msg, pos + n, rest, hops);
  }

  lemma {:induction false} SpelledLength(msg: seq<byte>, pos: nat, key: seq<byte>, hops: nat)
    requires Spells(msg, pos, key, hops)
    ensures |key| > 0
    decreases pos
  {
    if msg[pos] >= 64 {
      SpelledLength(msg, Pointed(msg, pos), key, hops - 1);
    }
  }

  lemma JumpTarget(msg: seq<byte>, pos: nat, room: nat, hops: nat, target: nat)
    requires Look(msg, pos, room, true, Some(hops)) == Jump(target)
    ensures msg[pos] >= 192 && target == Pointed(msg, pos) && hops < 128
  {
  }

  /** What was found is spelled there. */
  predicate Matches(msg: seq<byte>, pos: nat, f: Found, n: nat) {
    Inside(msg, f.trail) && Spells(msg, pos, KeyOf(msg, f.trail), n) && Until(msg, pos, f.end)
  }

  lemma LabelMatches(msg: seq<byte>, pos: nat, f: Found, n: nat)
    requires pos < |msg| && 0 < msg[pos] < 64 && pos + msg[pos] as int < |msg|
    requires Matches(msg, pos + 1 + msg[pos] as int, f, n)
    ensures Matches(msg, pos, Found(Part(pos, msg[pos], f.trail), f.end), n)
  {
    LabelSpells(msg, pos, KeyOf(msg, f.trail), n);
  }

  lemma JumpMatches(msg: seq<byte>, pos: nat, f: Found, n: nat)
    requires pos + 1 < |msg| && msg[pos] >= 192 && Pointed(msg, pos) < pos && Matches(msg, Pointed(msg, pos), f, n)
    ensures Matches(msg, pos, Found(f.trail, pos + 2), n + 1)
  {
  }

  lemma RootMatches(msg: seq<byte>, pos: nat, room: nat, hops: nat)
    requires Look(msg, pos, room, true, Some(hops)).Finish?
    ensures var f := Follow(msg, pos, room, true, Some(hops)); f.Some? && Matches(msg, pos, f.value, 0)
  {
  }

  lemma LabelMatched(msg: seq<byte>, pos: nat, room: nat, hops: nat, size: nat, n: nat)
    requires Look(msg, pos, room, true, Some(hops)) == Label(size)
    requires var f := Follow(msg, pos + 1 + size, room - 1 - size, true, Some(hops));
             f.Some? && Matches(msg, pos + 1 + size, f.value, n)
    ensures var f := Follow(msg, pos, room, true, Some(hops)); f.Some? && Matches(msg, pos, f.value, n)
  {
    FollowLabel(msg, pos, room, true, Some(hops), size);
    LabelMatches(msg, pos, Follow(msg, pos + 1 + size, room - 1 - size, true, Some(hops)).value, n);
  }

  lemma JumpMatched(msg: seq<byte>, pos: nat, room: nat, hops: nat, target: nat, n: nat)
    requires Look(msg, pos, room, true, Some(hops)) == Jump(target)
    requires var f := Follow(msg, target, room, true, Some(hops + 1)); f.Some? && Matches(msg, target, f.value, n)
    ensures var f := Follow(msg, pos, room, true, Some(hops));
            f.Some? && Matches(msg, pos, f.value, n + 1) && hops < 128
  {
    JumpTarget(msg, pos, room, hops, target);
    FollowJump(msg, pos, room, true, Some(hops), target);
    JumpMatches(msg, pos, Follow(msg, target, room, true, Some(hops + 1)).value, n);
  }

  lemma {:induction false} FollowedSpells(msg: seq<byte>, pos: nat, room: nat, hops: nat) returns (n: nat)
    requires Follow(msg, pos, room, true, Some(hops)).Some?
    ensures Matches(msg, pos, Follow(msg, pos, room, true, Some(hops)).value, n) && (n == 0 || hops + n <= 128)
    decreases room, pos
  {
    match Look(msg, pos, room, true, Some(hops))
    case Finish =>
      RootMatches(msg, pos, room, hops);
      n := 0;
    case Label(size) =>
      n := FollowedSpells(msg, pos + 1 + size, room - 1 - size, hops);
      LabelMatched(msg, pos, room, hops, size, n);
    case Jump(target) =>
      n := FollowedSpells(msg, target, room, hops + 1);
      JumpMatched(msg, pos, room, hops, target, n);
      n := n + 1;
  }

  lemma LabelLooks(msg: seq<byte>, pos: nat, room: nat, key: seq<byte>, n: nat, hops: nat)
    requires Spells(msg, pos, key, n) && |key| <= room && 0 < msg[pos] < 64
    ensures Look(msg, pos, room, true, Some(hops)) == Label(msg[pos])
    ensures var m := 1 + msg[pos] as int; key == LowerSeq(msg[pos..pos + m]) + key[m..]
  {
    var m := 1 + msg[pos] as int;
    LabelledIs(msg, pos, key, m);
    assert key == key[..m] + key[m..];
  }

  /** What is spelled there is found. */
  predicate Finds(msg: seq<byte>, f: Option<Found>, key: seq<byte>, end: nat) {
    f.Some? && Inside(msg, f.value.trail) && KeyOf(msg, f.value.trail) == key && f.value.end == end
  }

  lemma LabelFinds(msg: seq<byte>, pos: nat, f: Found, key: seq<byte>, end: nat)
    requires pos < |msg| && 0 < msg[pos] < 64 && pos + msg[pos] as int < |msg| && 1 + msg[pos] as int <= |key|
    requires Finds(msg, Some(f), key[1 + msg[pos] as int..], end)
    requires key == LowerSeq(msg[pos..pos + 1 + msg[pos] as int]) + key[1 + msg[pos] as int..]
    ensures Finds(msg, Some(Found(Part(pos, msg[pos], f.trail), f.end)), key, end)
  {
  }

  lemma RootFinds(msg: seq<byte>, pos: nat, room: nat, key: seq<byte>, n: nat, hops: nat, end: nat)
    requires Spells(msg, pos, key, n) && Until(msg, pos, end) && msg[pos] == 0 && room > 0
    ensures Finds(msg, Follow(msg, pos, room, true, Some(hops)), key, end)
  {
  }

  lemma JumpLooks(msg: seq<byte>, pos: nat, room: nat, key: seq<byte>, n: nat, hops: nat)
    requires Spells(msg, pos, key, n) && hops + n <= 128 && msg[pos] >= 64
    ensures n > 0 && pos + 1 < |msg| && Look(msg, pos, room, true, Some(hops)) == Jump(Pointed(msg, pos))
    ensures Spells(msg, Pointed(msg, pos), key, n - 1)
  {
  }

  lemma LabelGoesOn(msg: seq<byte>, pos: nat, key: seq<byte>, n: nat, end: nat)
    requires Spells(msg, pos, key, n) && Until(msg, pos, end) && 0 < msg[pos] < 64
    ensures var m := 1 + msg[pos] as int;
            m < |key| && pos + m <= |msg| && Spells(msg, pos + m, key[m..], n) && Until(msg, pos + m, end)
  {
  }

  lemma LabelFound(msg: seq<byte>, pos: nat, room: nat, key: seq<byte>, n: nat, hops: nat, end: nat)
    requires Spells(msg, pos, key, n) && |key| <= room && 0 < msg[pos] < 64
    requires var m := 1 + msg[pos] as int;
             m < |key| && Finds(msg, Follow(msg, pos + m, room - m, true, Some(hops)), key[m..], end)
    ensures Finds(msg, Follow(msg, pos, room, true, Some(hops)), key, end)
  {
    var m := 1 + msg[pos] as int;
    LabelLooks(msg, pos, room, key, n, hops);
    FollowLabel(msg, pos, room, true, Some(hops), msg[pos]);
    LabelFinds(msg, pos, Follow(msg, pos + m, room - m, true, Some(hops)).value, key, end);
  }

  lemma JumpFound(msg: seq<byte>, pos: nat, room: nat, key: seq<byte>, n: nat, hops: nat, e: nat, end: nat)
    requires Spells(msg, pos, key, n) && hops + n <= 128 && msg[pos] >= 64 && Until(msg, pos, end)
    requires pos + 1 < |msg| && 0 <= Pointed(msg, pos)
             && Finds(msg, Follow(msg, Pointed(msg, pos), room, true, Some(hops + 1)), key, e)
    ensures Finds(msg, Follow(msg, pos, room, true, Some(hops)), key, end)
  {
    JumpLooks(msg, pos, room, key, n, hops);
    FollowJump(msg, pos, room, true, Some(hops), Pointed(msg, pos));
  }

  lemma {:induction false} SpellsFollowed(msg: seq<byte>, pos: nat, room: nat, key: seq<byte>, n: nat, hops: nat,
                                          end: nat)
    requires Spells(msg, pos, key, n) && |key| <= room && hops + n <= 128 && Until(msg, pos, end)
    ensures Finds(msg, Follow(msg, pos, room, true, Some(hops)), key, end)
    decreases |key|, pos
  {
    if 0 < msg[pos] < 64 {
      var m := 1 + msg[pos] as int;
      LabelGoesOn(msg, pos, key, n, end);
      SpellsFollowed(msg, pos + m, room - m, key[m..], n, hops, end);
      LabelFound(msg, pos, room, key, n, hops, end);
    } else if msg[pos] >= 64 {
      var target := Pointed(msg, pos);
      var e := SpellsEnds(msg, target, key, n - 1);
      SpellsFollowed(msg, target, room, key, n - 1, hops + 1, e);
      JumpFound(msg, pos, room, key, n, hops, e, end);
    } else {
      RootFinds(msg, pos, room, key, n, hops, end);
    }
  }

  lemma {:induction false} SpellsEnds(msg: seq<byte>, pos: nat, key: seq<byte>, n: nat) returns (end: nat)
    requires Spells(msg, pos, key, n)
    ensures Until(msg, pos, end)
    decreases |key|
  {
    if msg[pos] == 0 {
      end := pos + 1;
    } else if msg[pos] < 64 {
      end := SpellsEnds(msg, pos + 1 + msg[pos] as int, key[1 + msg[pos] as int..], n);
    } else {
      end := pos + 2;
    }
  }

  /** Reading with pointers, exactly: the name found is spelled there with at most 128 pointers in at most
      255 octets, and ends there. */
  lemma ReadSpells(msg: seq<byte>, start: nat) returns (hops: nat)
    requires ReadName(msg, start, true).Some?
    ensures var n := ReadName(msg, start, true).value;
            Spells(msg, start, n.key, hops) && hops <= 128 && |n.key| <= 255 && Until(msg, start, n.end)
  {
    hops := FollowedSpells(msg, start, 255, 0);
    FollowedInside(msg, start, 255, true, Some(0));
  }

  /** And every such name is read. */
  lemma SpellsRead(msg: seq<byte>, start: nat, key: seq<byte>, hops: nat, end: nat)
    requires Spells(msg, start, key, hops) && hops <= 128 && |key| <= 255 && Until(msg, start, end)
    ensures ReadName(msg, start, true) == Some(Named(key, end))
  {
    SpellsFollowed(msg, start, 255, key, hops, 0, end);
  }
}
