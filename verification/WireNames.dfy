/** Reading possibly compressed names into lowercase keys (`wire.rs`). */
module WireNames {
  import opened Common
  import opened Bytes
  import opened DnsNames

  const MAX_NAME_LEN: nat := 255
  const MAX_POINTER_HOPS: nat := 128

  /** Where the labels of a name stand in a message, in order, down to the root. */
  datatype Trail = Root(at: nat) | Part(at: nat, size: nat, rest: Trail)

  /** The labels and the offset just past the name as it stands at its start. */
  datatype Found = Found(trail: Trail, end: nat)

  function KeyLen(t: Trail): nat {
    if t.Root? then 1 else 1 + t.size + KeyLen(t.rest)
  }

  predicate Inside(msg: seq<byte>, t: Trail) {
    match t
    case Root(at) => at < |msg| && msg[at] == 0
    case Part(at, size, rest) =>
      0 < size < 64 && at + size < |msg| && msg[at] == size && Inside(msg, rest)
  }

  /** What the octet at `pos` asks for, with `room` octets of the key left and `hops` pointers
      already followed (or no cap on them). */
  datatype Move = Stop | Finish | Label(size: nat) | Jump(target: nat)

  function Look(msg: seq<byte>, pos: nat, room: nat, compressed: bool, hops: Option<nat>): (m: Move)
    ensures m.Label? ==> 0 < m.size < 64 && m.size < room && pos + m.size < |msg| && msg[pos] == m.size
    ensures m.Jump? ==> m.target < pos && pos + 1 < |msg|
    ensures m.Finish? ==> pos < |msg| && msg[pos] == 0 && room > 0
  {
    if pos >= |msg| then Stop else
    var b := msg[pos] as int;
    if b < 64 then
      if 1 + b > room || pos + 1 + b > |msg| then Stop else if b == 0 then Finish else Label(b)
    else if b >= 192 && compressed && pos + 1 < |msg| then
      var target := (b - 192) * 256 + msg[pos + 1] as int;
      if target >= pos || (hops.Some? && hops.value + 1 > MAX_POINTER_HOPS) then Stop else Jump(target)
    else Stop
  }

  function Hop(hops: Option<nat>): Option<nat> {
    if hops.None? then None else Some(hops.value + 1)
  }

  /** Follows the name at `pos`. The measure does not mention the hops: pointers go strictly back
      and labels use up the key. */
  function Follow(msg: seq<byte>, pos: nat, room: nat, compressed: bool, hops: Option<nat>): (r: Option<Found>)
    ensures r.Some? ==> pos < r.value.end <= |msg|
    decreases room, pos
  {
    match Look(msg, pos, room, compressed, hops)
    case Stop => None
    case Finish => Some(Found(Root(pos), pos + 1))
    case Label(size) =>
      (match Follow(msg, pos + 1 + size, room - 1 - size, compressed, hops)
       case None => None
       case Some(f) => Some(Found(Part(pos, size, f.trail), f.end)))
    case Jump(target) =>
      match Follow(msg, target, room, compressed, Hop(hops))
      case None => None
      case Some(f) => Some(Found(f.trail, pos + 2))
  }

  lemma {:induction false} FollowedInside(msg: seq<byte>, pos: nat, room: nat, compressed: bool, hops: Option<nat>)
    requires Follow(msg, pos, room, compressed, hops).Some?
    ensures var t := Follow(msg, pos, room, compressed, hops).value.trail; Inside(msg, t) && KeyLen(t) <= room
    decreases room, pos
  {
    match Look(msg, pos, room, compressed, hops)
    case Finish =>
    case Label(size) => FollowedInside(msg, pos + 1 + size, room - 1 - size, compressed, hops);
    case Jump(target) => FollowedInside(msg, target, room, compressed, Hop(hops));
  }

  /** Following one label and what comes after it. */
  lemma FollowLabel(msg: seq<byte>, pos: nat, room: nat, compressed: bool, hops: Option<nat>, size: nat)
    requires Look(msg, pos, room, compressed, hops) == Label(size)
    ensures var f := Follow(msg, pos + 1 + size, room - 1 - size, compressed, hops);
            var g := Follow(msg, pos, room, compressed, hops);
            && (g.Some? <==> f.Some?)
            && (f.Some? ==> g.value == Found(Part(pos, size, f.value.trail), f.value.end))
  {
  }

  lemma FollowJump(msg: seq<byte>, pos: nat, room: nat, compressed: bool, hops: Option<nat>, target: nat)
    requires Look(msg, pos, room, compressed, hops) == Jump(target)
    ensures var f := Follow(msg, target, room, compressed, Hop(hops));
            var g := Follow(msg, pos, room, compressed, hops);
            (g.Some? <==> f.Some?) && (f.Some? ==> g.value == Found(f.value.trail, pos + 2))
  {
  }

  /** The octets of a trail, lowercased; the length octets, being below 64, are no letters. */
  function KeyOf(msg: seq<byte>, t: Trail): (k: seq<byte>)
    requires Inside(msg, t)
    ensures |k| == KeyLen(t)
  {
    match t
    case Root(_) => [0]
    case Part(at, size, rest) => LowerSeq(msg[at..at + 1 + size]) + KeyOf(msg, rest)
  }

  /** A lowercase uncompressed key and the offset past the name. */
  datatype Named = Named(key: seq<byte>, end: nat)

  function Reading(msg: seq<byte>, start: nat, compressed: bool, hops: Option<nat>): Option<Named> {
    match Follow(msg, start, MAX_NAME_LEN, compressed, hops)
    case None => None
    case Some(f) =>
      FollowedInside(msg, start, MAX_NAME_LEN, compressed, hops);
      Some(Named(KeyOf(msg, f.trail), f.end))
  }

  function ReadName(msg: seq<byte>, start: nat, compressed: bool): Option<Named> {
    Reading(msg, start, compressed, Some(0))
  }

  /** The same without the hop cap. */
  function ReadNameUncapped(msg: seq<byte>, start: nat, compressed: bool): Option<Named> {
    Reading(msg, start, compressed, None)
  }

  function FromWireLowercase(wire: seq<byte>): Option<seq<byte>> {
    match ReadName(wire, 0, false)
    case Some(n) => if n.end == |wire| then Some(n.key) else None
    case None => None
  }

  /** A complete uncompressed name stands at `pos..end`: labels of 1 to 63 octets, then the root. */
  predicate NameAt(msg: seq<byte>, pos: nat, end: nat)
    decreases end - pos
  {
    && pos < end <= |msg|
    && (msg[pos] == 0 ==> end == pos + 1)
    && (msg[pos] != 0 ==> msg[pos] < 64 && NameAt(msg, pos + 1 + msg[pos] as int, end))
  }

  predicate IsName(k: seq<byte>) {
    NameAt(k, 0, |k|)
  }

  predicate IsKey(k: seq<byte>) {
    IsName(k) && |k| <= MAX_NAME_LEN && LowerSeq(k) == k
  }

  // ----- the loop

  /** Lowercases a label into the key. */
  method CopyLabel(buf: array<byte>, len: nat, msg: seq<byte>, pos: nat, size: nat)
    requires len + size <= buf.Length && pos + size <= |msg|
    modifies buf
    ensures buf[..len + size] == old(buf[..len]) + LowerSeq(msg[pos..pos + size])
  {
    var i := 0;
    while i < size
      invariant 0 <= i <= size
      invariant buf[..len] == old(buf[..len])
      invariant forall k :: len <= k < len + i ==> buf[k] == LowerByte(msg[pos + (k - len)])
    {
      buf[len + i] := LowerByte(msg[pos + i]);
      i := i + 1;
    }
    assert buf[..len + size] == buf[..len] + LowerSeq(msg[pos..pos + size]);
  }

  lemma LengthThenLabel(msg: seq<byte>, pos: nat)
    requires pos < |msg| && msg[pos] < 64 && pos + msg[pos] as int < |msg|
    ensures var end := pos + 1 + msg[pos] as int;
            LowerSeq(msg[pos..end]) == [msg[pos]] + LowerSeq(msg[pos + 1..end])
  {
  }

  /** One label with its length octet. */
  method TakeLabel(buf: array<byte>, len: nat, msg: seq<byte>, pos: nat)
    requires pos < |msg| && msg[pos] < 64 && pos + msg[pos] as int < |msg|
    requires len + msg[pos] as int < buf.Length
    modifies buf
    ensures var n := 1 + msg[pos] as int; buf[..len + n] == old(buf[..len]) + LowerSeq(msg[pos..pos + n])
  {
    ghost var got := buf[..len];
    buf[len] := msg[pos];
    assert buf[..len + 1] == got + [msg[pos]];
    CopyLabel(buf, len + 1, msg, pos + 1, msg[pos]);
    LengthThenLabel(msg, pos);
  }

  /** What the rest of a name contributes, after `got` octets of key and a first pointer, if any. */
  function Continued(msg: seq<byte>, got: seq<byte>, end: Option<nat>, f: Option<Found>): Option<Named>
    requires f.Some? ==> Inside(msg, f.value.trail)
  {
    match f
    case None => None
    case Some(f) => Some(Named(got + KeyOf(msg, f.trail), if end.Some? then end.value else f.end))
  }

  /** The same as the loop goes: after `got` octets of key and a first pointer, if any. */
  function Rest(msg: seq<byte>, got: seq<byte>, end: Option<nat>, pos: nat, room: nat, compressed: bool, hops: nat)
    : Option<Named>
    decreases room, pos
  {
    match Look(msg, pos, room, compressed, Some(hops))
    case Stop => None
    case Finish => Some(Named(got + [0], if end.Some? then end.value else pos + 1))
    case Label(size) =>
      Rest(msg, got + LowerSeq(msg[pos..pos + 1 + size]), end, pos + 1 + size, room - 1 - size, compressed, hops)
    case Jump(target) =>
      Rest(msg, got, if end.Some? then end else Some(pos + 2), target, room, compressed, hops + 1)
  }

  /** What the loop still makes of the name is what following it gives. */
  ghost predicate Agrees(msg: seq<byte>, got: seq<byte>, end: Option<nat>, pos: nat, room: nat, compressed: bool,
                         hops: nat)
  {
    var f := Follow(msg, pos, room, compressed, Some(hops));
    && (f.Some? ==> Inside(msg, f.value.trail))
    && Rest(msg, got, end, pos, room, compressed, hops) == Continued(msg, got, end, f)
  }

  lemma LabelAgrees(msg: seq<byte>, got: seq<byte>, end: Option<nat>, pos: nat, room: nat, compressed: bool, hops: nat,
                    size: nat)
    requires Look(msg, pos, room, compressed, Some(hops)) == Label(size)
    requires Agrees(msg, got + LowerSeq(msg[pos..pos + 1 + size]), end, pos + 1 + size, room - 1 - size, compressed,
                    hops)
    ensures Agrees(msg, got, end, pos, room, compressed, hops)
  {
    var f := Follow(msg, pos + 1 + size, room - 1 - size, compressed, Some(hops));
    var g := Follow(msg, pos, room, compressed, Some(hops));
    assert g == if f.None? then None else Some(Found(Part(pos, size, f.value.trail), f.value.end)) by {
      FollowLabel(msg, pos, room, compressed, Some(hops), size);
    }
    PartContinues(msg, got, end, pos, size, f, g);
    RestLabel(msg, got, end, pos, room, compressed, hops, size);
  }

  lemma RestLabel(msg: seq<byte>, got: seq<byte>, end: Option<nat>, pos: nat, room: nat, compressed: bool, hops: nat,
                  size: nat)
    requires Look(msg, pos, room, compressed, Some(hops)) == Label(size)
    ensures Rest(msg, got, end, pos, room, compressed, hops)
            == Rest(msg, got + LowerSeq(msg[pos..pos + 1 + size]), end, pos + 1 + size, room - 1 - size, compressed,
                    hops)
  {
  }

  lemma PartContinues(msg: seq<byte>, got: seq<byte>, end: Option<nat>, pos: nat, size: nat, f: Option<Found>,
                      g: Option<Found>)
    requires 0 < size < 64 && pos + size < |msg| && msg[pos] == size
    requires f.Some? ==> Inside(msg, f.value.trail)
    requires g == if f.None? then None else Some(Found(Part(pos, size, f.value.trail), f.value.end))
    ensures g.Some? ==> Inside(msg, g.value.trail)
    ensures Continued(msg, got, end, g) == Continued(msg, got + LowerSeq(msg[pos..pos + 1 + size]), end, f)
  {
    if f.Some? {
      ContinuedPart(msg, got, end, pos, f.value);
    }
  }

  lemma JumpAgrees(msg: seq<byte>, got: seq<byte>, end: Option<nat>, pos: nat, room: nat, compressed: bool, hops: nat,
                   target: nat)
    requires Look(msg, pos, room, compressed, Some(hops)) == Jump(target)
    requires Agrees(msg, got, if end.Some? then end else Some(pos + 2), target, room, compressed, hops + 1)
    ensures Agrees(msg, got, end, pos, room, compressed, hops)
  {
    FollowJump(msg, pos, room, compressed, Some(hops), target);
  }

  lemma EndAgrees(msg: seq<byte>, got: seq<byte>, end: Option<nat>, pos: nat, room: nat, compressed: bool, hops: nat)
    requires var m := Look(msg, pos, room, compressed, Some(hops)); m.Stop? || m.Finish?
    ensures Agrees(msg, got, end, pos, room, compressed, hops)
  {
  }

  lemma {:induction false} RestContinues(msg: seq<byte>, got: seq<byte>, end: Option<nat>, pos: nat, room: nat,
                                         compressed: bool, hops: nat)
    ensures Agrees(msg, got, end, pos, room, compressed, hops)
    decreases room, pos
  {
    match Look(msg, pos, room, compressed, Some(hops))
    case Label(size) =>
      RestContinues(msg, got + LowerSeq(msg[pos..pos + 1 + size]), end, pos + 1 + size, room - 1 - size, compressed,
                    hops);
      LabelAgrees(msg, got, end, pos, room, compressed, hops, size);
    case Jump(target) =>
      RestContinues(msg, got, if end.Some? then end else Some(pos + 2), target, room, compressed, hops + 1);
      JumpAgrees(msg, got, end, pos, room, compressed, hops, target);
    case _ => EndAgrees(msg, got, end, pos, room, compressed, hops);
  }

  lemma ContinuedPart(msg: seq<byte>, got: seq<byte>, end: Option<nat>, pos: nat, f: Found)
    requires pos < |msg| && Inside(msg, Part(pos, msg[pos], f.trail))
    ensures Continued(msg, got, end, Some(Found(Part(pos, msg[pos], f.trail), f.end)))
            == Continued(msg, got + LowerSeq(msg[pos..pos + 1 + msg[pos] as int]), end, Some(f))
  {
    var part, rest := LowerSeq(msg[pos..pos + 1 + msg[pos] as int]), KeyOf(msg, f.trail);
    assert got + (part + rest) == got + part + rest;
  }

  lemma RestIsName(msg: seq<byte>, start: nat, compressed: bool)
    ensures Rest(msg, [], None, start, MAX_NAME_LEN, compressed, 0) == ReadName(msg, start, compressed)
  {
    RestContinues(msg, [], None, start, MAX_NAME_LEN, compressed, 0);
    var f := Follow(msg, start, MAX_NAME_LEN, compressed, Some(0));
    if f.Some? {
      assert [] + KeyOf(msg, f.value.trail) == KeyOf(msg, f.value.trail);
    }
  }

  /** The loop has `len` octets of the key in the buffer and stands at `pos`. */
  ghost predicate Underway(want: Option<Named>, msg: seq<byte>, buf: array<byte>, len: nat, end: Option<nat>,
                           pos: nat, compressed: bool, hops: nat)
    reads buf
  {
    len <= buf.Length && Rest(msg, buf[..len], end, pos, buf.Length - len, compressed, hops) == want
  }

  method ReadLabel(ghost want: Option<Named>, msg: seq<byte>, buf: array<byte>, len: nat, ghost end: Option<nat>,
                   pos: nat, ghost compressed: bool, ghost hops: nat, size: nat)
    requires Underway(want, msg, buf, len, end, pos, compressed, hops)
    requires Look(msg, pos, buf.Length - len, compressed, Some(hops)) == Label(size)
    modifies buf
    ensures len + 1 + size <= buf.Length
    ensures Underway(want, msg, buf, len + 1 + size, end, pos + 1 + size, compressed, hops)
  {
    TakeLabel(buf, len, msg, pos);
  }

  method ReadRoot(ghost want: Option<Named>, msg: seq<byte>, buf: array<byte>, len: nat, end: Option<nat>,
                  pos: nat, ghost compressed: bool, ghost hops: nat)
    returns (r: Named)
    requires Underway(want, msg, buf, len, end, pos, compressed, hops)
    requires Look(msg, pos, buf.Length - len, compressed, Some(hops)).Finish?
    modifies buf
    ensures want == Some(r)
  {
    ghost var got := buf[..len];
    buf[len] := 0;
    assert buf[..len + 1] == got + [0];
    return Named(buf[..len + 1], if end.Some? then end.value else pos + 1);
  }

  method Read(msg: seq<byte>, start: nat, compressed: bool) returns (r: Option<Named>)
    ensures r == ReadName(msg, start, compressed)
  {
    var buf := new byte[MAX_NAME_LEN];
    var len: nat, pos: nat, hops: nat := 0, start, 0;
    var end: Option<nat> := None;
    ghost var want := ReadName(msg, start, compressed);
    RestIsName(msg, start, compressed);
    assert buf[..0] == [];
    while true
      invariant Underway(want, msg, buf, len, end, pos, compressed, hops)
      decreases buf.Length - len, pos
    {
      var move := Look(msg, pos, buf.Length - len, compressed, Some(hops));
      if move.Stop? {
        return None;
      } else if move.Finish? {
        var n := ReadRoot(want, msg, buf, len, end, pos, compressed, hops);
        return Some(n);
      } else if move.Label? {
        ReadLabel(want, msg, buf, len, end, pos, compressed, hops, move.size);
        len, pos := len + 1 + move.size, pos + 1 + move.size;
      } else {
        end := if end.Some? then end else Some(pos + 2);
        pos, hops := move.target, hops + 1;
      }
    }
  }

  // ----- what a read yields

  lemma LowerConcat(a: seq<byte>, b: seq<byte>)
    ensures LowerSeq(a + b) == LowerSeq(a) + LowerSeq(b)
  {
  }

  lemma LowerSeqTwice(a: seq<byte>)
    ensures LowerSeq(LowerSeq(a)) == LowerSeq(a)
  {
  }

  /** A name stands wherever its octets do. */
  lemma {:induction false} NameMoves(b: seq<byte>, pos: nat, end: nat, c: seq<byte>, at: nat)
    requires NameAt(b, pos, end) && at + (end - pos) <= |c|
    requires forall i {:trigger b[i]} :: pos <= i < end ==> b[i] == c[at + (i - pos)]
    ensures NameAt(c, at, at + (end - pos))
    decreases end - pos
  {
    if b[pos] != 0 {
      var n := 1 + b[pos] as int;
      NameMoves(b, pos + n, end, c, at + n);
    }
  }

  lemma KeyCons(part: seq<byte>, rest: seq<byte>)
    requires |part| > 1 && part[0] < 64 && |part| == 1 + part[0] as int && LowerSeq(part) == part
    requires IsName(rest) && LowerSeq(rest) == rest
    ensures IsName(part + rest) && LowerSeq(part + rest) == part + rest
  {
    NameMoves(rest, 0, |rest|, part + rest, |part|);
    LowerConcat(part, rest);
  }

  /** Every trail spells a valid lowercase uncompressed name. */
  lemma {:induction false} TrailIsKey(msg: seq<byte>, t: Trail)
    requires Inside(msg, t)
    ensures IsName(KeyOf(msg, t)) && LowerSeq(KeyOf(msg, t)) == KeyOf(msg, t)
  {
    if t.Part? {
      var part := msg[t.at..t.at + 1 + t.size];
      TrailIsKey(msg, t.rest);
      LowerSeqTwice(part);
      KeyCons(LowerSeq(part), KeyOf(msg, t.rest));
    }
  }

  /** The trail of the plain name at `pos..end`. */
  function PlainTrail(msg: seq<byte>, pos: nat, end: nat): (t: Trail)
    requires NameAt(msg, pos, end)
    ensures Inside(msg, t) && KeyLen(t) == end - pos
    decreases end - pos
  {
    if msg[pos] == 0 then Root(pos)
    else Part(pos, msg[pos], PlainTrail(msg, pos + 1 + msg[pos] as int, end))
  }

  lemma {:induction false} PlainKey(msg: seq<byte>, pos: nat, end: nat)
    requires NameAt(msg, pos, end)
    ensures KeyOf(msg, PlainTrail(msg, pos, end)) == LowerSeq(msg[pos..end])
    decreases end - pos
  {
    if msg[pos] == 0 {
      assert LowerSeq(msg[pos..end]) == [0];
    } else {
      var next := pos + 1 + msg[pos] as int;
      PlainKey(msg, next, end);
      assert msg[pos..end] == msg[pos..next] + msg[next..end];
      LowerConcat(msg[pos..next], msg[next..end]);
    }
  }

  /** A plain name is followed to its end, with or without pointers allowed. */
  lemma {:induction false} NameFollowed(msg: seq<byte>, pos: nat, end: nat, room: nat, compressed: bool,
                                        hops: Option<nat>)
    requires NameAt(msg, pos, end) && end - pos <= room
    ensures Follow(msg, pos, room, compressed, hops) == Some(Found(PlainTrail(msg, pos, end), end))
    decreases end - pos
  {
    if msg[pos] != 0 {
      var n := 1 + msg[pos] as int;
      NameFollowed(msg, pos + n, end, room - n, compressed, hops);
    }
  }

  /** What is followed without pointers is a plain name. */
  lemma {:induction false} FollowedIsPlain(msg: seq<byte>, pos: nat, room: nat, hops: Option<nat>)
    requires Follow(msg, pos, room, false, hops).Some?
    ensures NameAt(msg, pos, Follow(msg, pos, room, false, hops).value.end)
    decreases room, pos
  {
    match Look(msg, pos, room, false, hops)
    case Finish =>
    case Label(size) => FollowedIsPlain(msg, pos + 1 + size, room - 1 - size, hops);
  }

  /** Reading without pointers, exactly: a plain name of at most 255 octets, lowercased. */
  lemma ReadPlain(msg: seq<byte>, pos: nat, end: nat)
    ensures (exists key :: ReadName(msg, pos, false) == Some(Named(key, end)))
            <==> NameAt(msg, pos, end) && end - pos <= MAX_NAME_LEN
    ensures NameAt(msg, pos, end) && end - pos <= MAX_NAME_LEN
            ==> ReadName(msg, pos, false) == Some(Named(LowerSeq(msg[pos..end]), end))
  {
    if NameAt(msg, pos, end) && end - pos <= MAX_NAME_LEN {
      NameFollowed(msg, pos, end, MAX_NAME_LEN, false, Some(0));
      PlainKey(msg, pos, end);
    } else if key :| ReadName(msg, pos, false) == Some(Named(key, end)) {
      FollowedIsPlain(msg, pos, MAX_NAME_LEN, Some(0));
      PlainLength(msg, pos, MAX_NAME_LEN, Some(0));
    }
  }

  lemma PlainLength(msg: seq<byte>, pos: nat, room: nat, hops: Option<nat>)
    requires Follow(msg, pos, room, false, hops).Some?
    ensures Follow(msg, pos, room, false, hops).value.end - pos <= room
    decreases room, pos
  {
  }

  /** The cap only refuses: a capped read that succeeds is the uncapped one. */
  lemma {:induction false} CapOnlyRefuses(msg: seq<byte>, pos: nat, room: nat, compressed: bool, hops: nat)
    requires Follow(msg, pos, room, compressed, Some(hops)).Some?
    ensures Follow(msg, pos, room, compressed, None) == Follow(msg, pos, room, compressed, Some(hops))
    decreases room, pos
  {
    LookUncapped(msg, pos, room, compressed, hops);
    match Look(msg, pos, room, compressed, Some(hops))
    case Finish =>
    case Label(size) =>
      FollowLabel(msg, pos, room, compressed, Some(hops), size);
      FollowLabel(msg, pos, room, compressed, None, size);
      CapOnlyRefuses(msg, pos + 1 + size, room - 1 - size, compressed, hops);
    case Jump(target) =>
      FollowJump(msg, pos, room, compressed, Some(hops), target);
      FollowJump(msg, pos, room, compressed, None, target);
      CapOnlyRefuses(msg, target, room, compressed, hops + 1);
  }

  lemma LookUncapped(msg: seq<byte>, pos: nat, room: nat, compressed: bool, hops: nat)
    ensures var m := Look(msg, pos, room, compressed, Some(hops));
            !m.Stop? ==> Look(msg, pos, room, compressed, None) == m
  {
  }

  /** `read_name`: the key is a valid lowercase name of at most 255 octets which
      `from_wire_lowercase` maps to itself, the end lies past the start and inside the message, and
      reading without the hop cap gives the same. */
  lemma ReadNameYieldsKey(msg: seq<byte>, start: nat, compressed: bool)
    requires ReadName(msg, start, compressed).Some?
    ensures var n := ReadName(msg, start, compressed).value;
            && IsKey(n.key) && FromWireLowercase(n.key) == Some(n.key)
            && start < n.end <= |msg|
            && ReadNameUncapped(msg, start, compressed) == Some(n)
  {
    var f := Follow(msg, start, MAX_NAME_LEN, compressed, Some(0)).value;
    FollowedInside(msg, start, MAX_NAME_LEN, compressed, Some(0));
    var key := KeyOf(msg, f.trail);
    TrailIsKey(msg, f.trail);
    FromWireExact(key);
    CapOnlyRefuses(msg, start, MAX_NAME_LEN, compressed, 0);
  }

  /** `from_wire_lowercase` accepts exactly the valid names of at most 255 octets, lowercasing them. */
  lemma FromWireExact(wire: seq<byte>)
    ensures FromWireLowercase(wire) == if IsName(wire) && |wire| <= MAX_NAME_LEN then Some(LowerSeq(wire)) else None
  {
    ReadPlain(wire, 0, |wire|);
    assert wire[0..|wire|] == wire;
  }
}
