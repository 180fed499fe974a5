/** Loc frames: delta-coded chains of points and the greedy splitter
    (src/tracking/codec.rs:206-327 and 378-403). */
module Loc {
  import opened Wrappers
  import opened Bytes
  import opened Points
  import opened Reading

  const C_LOC: Byte := 0x04
  const MAX_LOC_POINTS: nat := 100

  const PF_ALT: nat := 1
  const PF_ACC: nat := 2
  const PF_TIME: nat := 16

  datatype Place = Place(lat: I32, lon: I32)

  function PlaceOf(f: Fix): Place {
    Place(f.lat, f.lon)
  }

  /** micro_delta_fits: both differences are i16. */
  predicate DeltaFits(p: Place, q: Place) {
    -0x8000 <= q.lat - p.lat < 0x8000 && -0x8000 <= q.lon - p.lon < 0x8000
  }

  predicate Has(flags: Byte, bit: nat)
    requires bit > 0
  {
    flags / bit % 2 == 1
  }

  /** No bit set besides altitude, accuracy and time. */
  predicate KnownFlags(flags: Byte) {
    flags / 4 % 4 == 0 && flags / 32 == 0
  }

  function Flags(f: Fix): (flags: Byte)
    ensures KnownFlags(flags)
    ensures Has(flags, PF_ALT) == f.alt.Some? && Has(flags, PF_ACC) == f.acc.Some? && Has(flags, PF_TIME) == f.time.Some?
  {
    (if f.alt.Some? then PF_ALT else 0) + (if f.acc.Some? then PF_ACC else 0) + (if f.time.Some? then PF_TIME else 0)
  }

  // ---- One point ----

  predicate Follows(prev: Option<Place>, f: Fix) {
    prev.Some? ==> DeltaFits(prev.value, PlaceOf(f))
  }

  function PlaceBytes(q: Place, prev: Option<Place>): seq<Byte>
    requires prev.Some? ==> DeltaFits(prev.value, q)
  {
    match prev
    case None => PutI32(q.lat) + PutI32(q.lon)
    case Some(p) => PutI16(q.lat - p.lat) + PutI16(q.lon - p.lon)
  }

  function AltBytes(alt: Option<I32>): seq<Byte> {
    if alt.Some? then PutI32(alt.value) else []
  }

  function AccBytes(acc: Option<U16>): seq<Byte> {
    if acc.Some? then PutU16(acc.value) else []
  }

  function TimeBytes(time: Option<I64>): seq<Byte> {
    if time.Some? then PutI64(time.value) else []
  }

  function Extras(alt: Option<I32>, acc: Option<U16>, time: Option<I64>): seq<Byte> {
    AltBytes(alt) + (AccBytes(acc) + TimeBytes(time))
  }

  function PointBytes(f: Fix, prev: Option<Place>): seq<Byte>
    requires Follows(prev, f)
  {
    [Flags(f)] + (PlaceBytes(PlaceOf(f), prev) + Extras(f.alt, f.acc, f.time))
  }

  function SaturatingAdd(a: I32, d: I16): I32 {
    Clamp(a + d, -0x8000_0000, 0x7FFF_FFFF)
  }

  function PlaceAt(b: seq<Byte>, i: nat, prev: Option<Place>): (r: Read<Place>)
    requires i <= |b|
    ensures r.Got? ==> i <= r.next <= |b|
  {
    match prev
    case Some(p) =>
      var (dlat, j) :- I16At(b, i);
      var (dlon, k) :- I16At(b, j);
      Got(Place(SaturatingAdd(p.lat, dlat), SaturatingAdd(p.lon, dlon)), k)
    case None =>
      var (lat, j) :- I32At(b, i);
      var (lon, k) :- I32At(b, j);
      Got(Place(lat, lon), k)
  }

  function OptI32At(b: seq<Byte>, i: nat, present: bool): (r: Read<Option<I32>>)
    requires i <= |b|
    ensures r.Got? ==> i <= r.next <= |b|
  {
    if !present then Got(None, i) else
      var (v, j) :- I32At(b, i);
      Got(Some(v), j)
  }

  function OptU16At(b: seq<Byte>, i: nat, present: bool): (r: Read<Option<U16>>)
    requires i <= |b|
    ensures r.Got? ==> i <= r.next <= |b|
  {
    if !present then Got(None, i) else
      var (v, j) :- U16At(b, i);
      Got(Some(v), j)
  }

  function OptI64At(b: seq<Byte>, i: nat, present: bool): (r: Read<Option<I64>>)
    requires i <= |b|
    ensures r.Got? ==> i <= r.next <= |b|
  {
    if !present then Got(None, i) else
      var (v, j) :- I64At(b, i);
      Got(Some(v), j)
  }

  datatype Extra = Extra(alt: Option<I32>, acc: Option<U16>, time: Option<I64>)

  /** What the flags say is there. */
  function ExtrasAt(b: seq<Byte>, i: nat, flags: Byte): (r: Read<Extra>)
    requires i <= |b|
    ensures r.Got? ==> i <= r.next <= |b|
  {
    var (alt, j) :- OptI32At(b, i, Has(flags, PF_ALT));
    var (acc, k) :- OptU16At(b, j, Has(flags, PF_ACC));
    var (time, l) :- OptI64At(b, k, Has(flags, PF_TIME));
    Got(Extra(alt, acc, time), l)
  }

  function FixAt(b: seq<Byte>, i: nat, prev: Option<Place>): (r: Read<Fix>)
    requires i <= |b|
    ensures r.Got? ==> i < r.next <= |b| && CoordOk(r.value.lat, r.value.lon)
  {
    var (flags, i1) :- U8At(b, i);
    var (p, i2) :- PlaceAt(b, i1, prev);
    if !CoordOk(p.lat, p.lon) then Fail(Invalid) else
      var (x, i3) :- ExtrasAt(b, i2, flags);
      Got(Fix(p.lat, p.lon, x.alt, x.acc, x.time), i3)
  }

  /** A written point reads back exactly, delta or not; nothing clips. The reader refuses it
      exactly when it lies off the globe. */
  lemma FixBack(b: seq<Byte>, i: nat, f: Fix, prev: Option<Place>)
    requires Follows(prev, f) && At(b, i, PointBytes(f, prev))
    ensures FixAt(b, i, prev) ==
            if CoordOk(f.lat, f.lon) then Got(f, i + |PointBytes(f, prev)|) else Fail(Invalid)
  {
    hide PlaceAt, PlaceBytes, Extras, ExtrasAt, Flags, U8At, At;
    var place, extras := PlaceBytes(PlaceOf(f), prev), Extras(f.alt, f.acc, f.time);
    AtSplit(b, i, [Flags(f)], place + extras);
    AtSplit(b, i + 1, place, extras);
    U8Back(b, i, Flags(f));
    PlaceBack(b, i + 1, PlaceOf(f), prev);
    ExtrasBack(b, i + 1 + |place|, Flags(f), f.alt, f.acc, f.time);
  }

  lemma ExtrasBack(b: seq<Byte>, i: nat, flags: Byte, alt: Option<I32>, acc: Option<U16>, time: Option<I64>)
    requires At(b, i, Extras(alt, acc, time))
    requires Has(flags, PF_ALT) == alt.Some? && Has(flags, PF_ACC) == acc.Some? && Has(flags, PF_TIME) == time.Some?
    ensures ExtrasAt(b, i, flags) == Got(Extra(alt, acc, time), i + |Extras(alt, acc, time)|)
  {
    hide Has, At, PutI32, PutU16, PutI64, I32At, U16At, I64At;
    var j := i + |AltBytes(alt)|;
    AtSplit(b, i, AltBytes(alt), AccBytes(acc) + TimeBytes(time));
    AtSplit(b, j, AccBytes(acc), TimeBytes(time));
    if alt.Some? {
      I32Back(b, i, alt.value);
    }
    if acc.Some? {
      U16Back(b, j, acc.value);
    }
    if time.Some? {
      I64Back(b, j + |AccBytes(acc)|, time.value);
    }
  }

  lemma PlaceBack(b: seq<Byte>, i: nat, q: Place, prev: Option<Place>)
    requires prev.Some? ==> DeltaFits(prev.value, q)
    requires At(b, i, PlaceBytes(q, prev))
    ensures PlaceAt(b, i, prev) == Got(q, i + |PlaceBytes(q, prev)|)
  {
    match prev
    case None =>
      AtSplit(b, i, PutI32(q.lat), PutI32(q.lon));
      I32Back(b, i, q.lat);
      I32Back(b, i + 4, q.lon);
    case Some(p) =>
      AtSplit(b, i, PutI16(q.lat - p.lat), PutI16(q.lon - p.lon));
      I16Back(b, i, q.lat - p.lat);
      I16Back(b, i + 2, q.lon - p.lon);
  }

  /** The other direction: the bytes of a point that was read are the bytes that would be written
      for it exactly when its flag byte has no unknown bit. */
  lemma FixForth(b: seq<Byte>, i: nat, prev: Option<Place>)
    requires i <= |b| && FixAt(b, i, prev).Got?
    requires prev.Some? ==> CoordOk(prev.value.lat, prev.value.lon)
    ensures var r := FixAt(b, i, prev);
            && Follows(prev, r.value)
            && |PointBytes(r.value, prev)| == r.next - i
            && (PointBytes(r.value, prev) == b[i..r.next] <==> KnownFlags(b[i]))
  {
    hide PlaceAt, ExtrasAt, Extras, PlaceBytes, Flags;
    var r := FixAt(b, i, prev);
    var f := r.value;
    var i2 := PlaceAt(b, i + 1, prev).next;
    PlaceForth(b, i + 1, prev);
    ExtrasForth(b, i2, b[i]);
    FlagsForth(f, b[i]);
    Slices(b, i + 1, i2, r.next);
    Slices(b, i, i + 1, r.next);
    HeadDecides(PointBytes(f, prev), Flags(f), b[i], b[i + 1..r.next]);
    assert b[i..i + 1] == [b[i]];
  }

  lemma HeadDecides(whole: seq<Byte>, x: Byte, y: Byte, rest: seq<Byte>)
    requires whole == [x] + rest
    ensures whole == [y] + rest <==> x == y
  {
    assert ([y] + rest)[0] == y && whole[0] == x;
  }

  lemma FlagsForth(f: Fix, flags: Byte)
    requires Has(flags, PF_ALT) == f.alt.Some? && Has(flags, PF_ACC) == f.acc.Some? && Has(flags, PF_TIME) == f.time.Some?
    ensures Flags(f) == flags <==> KnownFlags(flags)
  {
  }

  /** Optional fields: what was read is what would be written. */
  lemma ExtrasForth(b: seq<Byte>, i: nat, flags: Byte)
    requires i <= |b| && ExtrasAt(b, i, flags).Got?
    ensures var r := ExtrasAt(b, i, flags);
            var x := r.value;
            && x.alt.Some? == Has(flags, PF_ALT) && x.acc.Some? == Has(flags, PF_ACC) && x.time.Some? == Has(flags, PF_TIME)
            && Extras(x.alt, x.acc, x.time) == b[i..r.next]
  {
    hide Has;
    var alt := OptI32At(b, i, Has(flags, PF_ALT));
    var acc := OptU16At(b, alt.next, Has(flags, PF_ACC));
    var time := OptI64At(b, acc.next, Has(flags, PF_TIME));
    AltForth(b, i, Has(flags, PF_ALT));
    AccForth(b, alt.next, Has(flags, PF_ACC));
    TimeForth(b, acc.next, Has(flags, PF_TIME));
    hide OptI32At, OptU16At, OptI64At, AltBytes, AccBytes, TimeBytes;
    Slices(b, i, alt.next, time.next);
    Slices(b, alt.next, acc.next, time.next);
  }

  lemma AltForth(b: seq<Byte>, i: nat, present: bool)
    requires i <= |b| && OptI32At(b, i, present).Got?
    ensures AltBytes(OptI32At(b, i, present).value) == b[i..OptI32At(b, i, present).next]
    ensures OptI32At(b, i, present).value.Some? == present
  {
    if present {
      PutGetSigned([0, 0], b[i..i + 4], NIL[..8]);
      hide GetI32, PutI32;
    }
  }

  lemma AccForth(b: seq<Byte>, i: nat, present: bool)
    requires i <= |b| && OptU16At(b, i, present).Got?
    ensures AccBytes(OptU16At(b, i, present).value) == b[i..OptU16At(b, i, present).next]
    ensures OptU16At(b, i, present).value.Some? == present
  {
    if present {
      PutGetU16(b[i..i + 2]);
      hide GetU16, PutU16;
    }
  }

  lemma TimeForth(b: seq<Byte>, i: nat, present: bool)
    requires i <= |b| && OptI64At(b, i, present).Got?
    ensures TimeBytes(OptI64At(b, i, present).value) == b[i..OptI64At(b, i, present).next]
    ensures OptI64At(b, i, present).value.Some? == present
  {
    if present {
      PutGetSigned([0, 0], [0, 0, 0, 0], b[i..i + 8]);
      hide GetI64, PutI64;
    }
  }

  lemma PlaceForth(b: seq<Byte>, i: nat, prev: Option<Place>)
    requires i <= |b| && PlaceAt(b, i, prev).Got?
    requires var q := PlaceAt(b, i, prev).value; CoordOk(q.lat, q.lon)
    requires prev.Some? ==> CoordOk(prev.value.lat, prev.value.lon)
    ensures var r := PlaceAt(b, i, prev);
            && (prev.Some? ==> DeltaFits(prev.value, r.value))
            && PlaceBytes(r.value, prev) == b[i..r.next]
  {
    match prev
    case None =>
      PutGetSigned([0, 0], b[i..i + 4], NIL[..8]);
      PutGetSigned([0, 0], b[i + 4..i + 8], NIL[..8]);
      hide GetI32, PutI32;
      Slices(b, i, i + 4, i + 8);
    case Some(_) =>
      PutGetSigned(b[i..i + 2], [0, 0, 0, 0], NIL[..8]);
      PutGetSigned(b[i + 2..i + 4], [0, 0, 0, 0], NIL[..8]);
      hide GetI16, PutI16;
      Slices(b, i, i + 2, i + 4);
  }

  // ---- A chain of points ----

  predicate Linked(fs: seq<Fix>, prev: Option<Place>) {
    fs == [] || (Follows(prev, fs[0]) && Linked(fs[1..], Some(PlaceOf(fs[0]))))
  }

  predicate AllOnGlobe(fs: seq<Fix>) {
    forall i :: 0 <= i < |fs| ==> CoordOk(fs[i].lat, fs[i].lon)
  }

  function PointsBytes(fs: seq<Fix>, prev: Option<Place>): seq<Byte>
    requires Linked(fs, prev)
  {
    if fs == [] then [] else PointBytes(fs[0], prev) + PointsBytes(fs[1..], Some(PlaceOf(fs[0])))
  }

  function FixesAt(b: seq<Byte>, i: nat, n: nat, prev: Option<Place>): (r: Read<seq<Fix>>)
    requires i <= |b|
    ensures r.Got? ==> i <= r.next <= |b| && |r.value| == n && AllOnGlobe(r.value)
    decreases n
  {
    if n == 0 then Got([], i) else
      var (f, j) :- FixAt(b, i, prev);
      var (fs, k) :- FixesAt(b, j, n - 1, Some(PlaceOf(f)));
      Got([f] + fs, k)
  }

  lemma {:induction false} FixesBack(b: seq<Byte>, i: nat, fs: seq<Fix>, prev: Option<Place>)
    requires Linked(fs, prev) && At(b, i, PointsBytes(fs, prev))
    ensures FixesAt(b, i, |fs|, prev) ==
            if AllOnGlobe(fs) then Got(fs, i + |PointsBytes(fs, prev)|) else Fail(Invalid)
    decreases fs
  {
    hide PointBytes, FixAt;
    if fs != [] {
      var x := PointBytes(fs[0], prev);
      AtSplit(b, i, x, PointsBytes(fs[1..], Some(PlaceOf(fs[0]))));
      FixBack(b, i, fs[0], prev);
      FixesBack(b, i + |x|, fs[1..], Some(PlaceOf(fs[0])));
      assert fs == [fs[0]] + fs[1..];
      assert AllOnGlobe(fs) <==> CoordOk(fs[0].lat, fs[0].lon) && AllOnGlobe(fs[1..]);
    }
  }

  /** Every flag byte of the `n` points that start at `i` is known. */
  ghost predicate ChainFlagsKnown(b: seq<Byte>, i: nat, n: nat, prev: Option<Place>)
    requires i <= |b|
    decreases n
  {
    n == 0 ||
    (var r := FixAt(b, i, prev);
     r.Got? && KnownFlags(b[i]) && ChainFlagsKnown(b, r.next, n - 1, Some(PlaceOf(r.value))))
  }

  lemma {:induction false} FixesForth(b: seq<Byte>, i: nat, n: nat, prev: Option<Place>)
    requires i <= |b| && FixesAt(b, i, n, prev).Got?
    requires prev.Some? ==> CoordOk(prev.value.lat, prev.value.lon)
    ensures var r := FixesAt(b, i, n, prev);
            && Linked(r.value, prev)
            && |PointsBytes(r.value, prev)| <= r.next - i
            && (PointsBytes(r.value, prev) == b[i..r.next] <==> ChainFlagsKnown(b, i, n, prev))
    decreases n
  {
    hide PointBytes, FixAt;
    if n > 0 {
      var f := FixAt(b, i, prev);
      var r := FixesAt(b, f.next, n - 1, Some(PlaceOf(f.value)));
      FixForth(b, i, prev);
      FixesForth(b, f.next, n - 1, Some(PlaceOf(f.value)));
      var all := [f.value] + r.value;
      assert all[1..] == r.value;
      var x, y := PointBytes(f.value, prev), PointsBytes(r.value, Some(PlaceOf(f.value)));
      assert b[i..r.next] == b[i..f.next] + b[f.next..r.next];
      if x + y == b[i..r.next] {
        assert |x| == f.next - i && |y| == r.next - f.next;
        assert (x + y)[..|x|] == x && (x + y)[|x|..] == y;
        assert b[i..r.next][..|x|] == b[i..f.next] && b[i..r.next][|x|..] == b[f.next..r.next];
      }
    }
  }

  // ---- One frame ----

  datatype LocBody = LocBody(num: U32, fixes: seq<Fix>)

  function LocBytes(num: U32, fs: seq<Fix>): seq<Byte>
    requires Linked(fs, None) && |fs| <= MAX_LOC_POINTS
  {
    [C_LOC] + (PutU32(num) + ([|fs|] + PointsBytes(fs, None)))
  }

  /** The body of a Loc frame, after its type byte. */
  function LocAt(b: seq<Byte>, i: nat): (r: Read<LocBody>)
    requires i <= |b|
    ensures r.Got? ==> i <= r.next <= |b| && 1 <= |r.value.fixes| <= MAX_LOC_POINTS && AllOnGlobe(r.value.fixes)
  {
    var (num, i1) :- U32At(b, i);
    var (count, i2) :- U8At(b, i1);
    if count == 0 || count > MAX_LOC_POINTS then Fail(Invalid) else
      var (fs, i3) :- FixesAt(b, i2, count, None);
      Got(LocBody(num, fs), i3)
  }

  lemma LocBack(b: seq<Byte>, i: nat, num: U32, fs: seq<Fix>)
    requires Linked(fs, None) && 1 <= |fs| <= MAX_LOC_POINTS && At(b, i, LocBytes(num, fs))
    ensures U8At(b, i) == Got(C_LOC, i + 1)
    ensures LocAt(b, i + 1) ==
            if AllOnGlobe(fs) then Got(LocBody(num, fs), i + |LocBytes(num, fs)|) else Fail(Invalid)
  {
    AtSplit(b, i, [C_LOC], PutU32(num) + ([|fs|] + PointsBytes(fs, None)));
    AtSplit(b, i + 1, PutU32(num), [|fs|] + PointsBytes(fs, None));
    AtSplit(b, i + 5, [|fs|], PointsBytes(fs, None));
    U8Back(b, i, C_LOC);
    U32Back(b, i + 1, num);
    U8Back(b, i + 5, |fs|);
    FixesBack(b, i + 6, fs, None);
  }

  /** Every accepted Loc frame is the canonical encoding of what it says, up to unknown flag bits. */
  lemma LocForth(b: seq<Byte>, i: nat)
    requires i < |b| && b[i] == C_LOC && LocAt(b, i + 1).Got?
    ensures var r := LocAt(b, i + 1);
            && Linked(r.value.fixes, None)
            && (LocBytes(r.value.num, r.value.fixes) == b[i..r.next]
                <==> ChainFlagsKnown(b, i + 6, |r.value.fixes|, None))
  {
    var r := LocAt(b, i + 1);
    var fs := r.value.fixes;
    FixesForth(b, i + 6, |fs|, None);
    LocHeaderForth(b, i);
    LocBytesShape(r.value.num, fs);
    Slices(b, i, i + 6, r.next);
    Cancel(b[i..i + 6], PointsBytes(fs, None), b[i + 6..r.next]);
  }

  lemma LocBytesShape(num: U32, fs: seq<Fix>)
    requires Linked(fs, None) && |fs| <= MAX_LOC_POINTS
    ensures LocBytes(num, fs) == ([C_LOC] + (PutU32(num) + [|fs|])) + PointsBytes(fs, None)
  {
    hide PutU32, PointsBytes;
  }

  lemma LocHeaderForth(b: seq<Byte>, i: nat)
    requires i < |b| && b[i] == C_LOC && LocAt(b, i + 1).Got?
    ensures var r := LocAt(b, i + 1);
            && i + 6 <= r.next
            && [C_LOC] + (PutU32(r.value.num) + [|r.value.fixes|]) == b[i..i + 6]
            && FixesAt(b, i + 6, |r.value.fixes|, None) == Got(r.value.fixes, r.next)
  {
    hide FixesAt;
    PutGetU32(b[i + 1..i + 5]);
    hide GetU32, PutU32;
    Slices(b, i, i + 1, i + 6);
    Slices(b, i + 1, i + 5, i + 6);
    assert b[i..i + 1] == [b[i]] && b[i + 5..i + 6] == [b[i + 5]];
  }

  // ---- The greedy splitter ----

  /** `fs[s..e]` may travel as one frame. */
  predicate Chunk(fs: seq<Fix>, s: nat, e: nat) {
    && s < e <= |fs|
    && e - s <= MAX_LOC_POINTS
    && forall i :: s < i < e ==> DeltaFits(PlaceOf(fs[i - 1]), PlaceOf(fs[i]))
  }

  /** The inner loop: extend the frame `fs[s..i]` as far as it goes. */
  function ChunkEnd(fs: seq<Fix>, s: nat, i: nat): (e: nat)
    requires Chunk(fs, s, i)
    ensures Chunk(fs, s, e) && i <= e
    ensures e < |fs| ==> !Chunk(fs, s, e + 1)
    decreases |fs| - i
  {
    if i < |fs| && i - s < MAX_LOC_POINTS && DeltaFits(PlaceOf(fs[i - 1]), PlaceOf(fs[i]))
    then ChunkEnd(fs, s, i + 1)
    else i
  }

  datatype Piece = Piece(num: nat, fixes: seq<Fix>)

  /** What the outer loop still has to emit at `s`; `first` is the number of `fs[0]`. */
  function Pieces(first: nat, fs: seq<Fix>, s: nat): (pieces: seq<Piece>)
    requires s <= |fs|
    ensures s < |fs| ==> pieces != []
    decreases |fs| - s
  {
    if s == |fs| then [] else
      var e := ChunkEnd(fs, s, s + 1);
      [Piece(first + e - 1, fs[s..e])] + Pieces(first, fs, e)
  }

  /** Fits one frame, numbered so that its points have positive places in the count. */
  predicate PieceOk(p: Piece) {
    1 <= |p.fixes| <= MAX_LOC_POINTS && Linked(p.fixes, None)
  }

  lemma {:induction false} ChunkLinked(fs: seq<Fix>, s: nat, e: nat, prev: Option<Place>)
    requires s <= e <= |fs|
    requires forall i :: s < i < e ==> DeltaFits(PlaceOf(fs[i - 1]), PlaceOf(fs[i]))
    requires s < e ==> Follows(prev, fs[s])
    ensures Linked(fs[s..e], prev)
    decreases e - s
  {
    if s < e {
      ChunkLinked(fs, s + 1, e, Some(PlaceOf(fs[s])));
      assert fs[s..e][1..] == fs[s + 1..e];
    }
  }

  lemma {:induction false} LinkedIsChunk(fs: seq<Fix>, prev: Option<Place>)
    requires Linked(fs, prev)
    ensures forall i :: 0 < i < |fs| ==> DeltaFits(PlaceOf(fs[i - 1]), PlaceOf(fs[i]))
    decreases fs
  {
    if fs != [] {
      LinkedIsChunk(fs[1..], Some(PlaceOf(fs[0])));
      forall i | 0 < i < |fs| ensures DeltaFits(PlaceOf(fs[i - 1]), PlaceOf(fs[i])) {
        if i > 1 {
          assert DeltaFits(PlaceOf(fs[1..][i - 2]), PlaceOf(fs[1..][i - 1]));
        }
      }
    }
  }

  /** Numbers run through the pieces without a gap and every piece is encodable. */
  predicate Chained(pieces: seq<Piece>, next: nat) {
    pieces == [] ||
    (PieceOk(pieces[0]) && pieces[0].num + 1 == next + |pieces[0].fixes| && Chained(pieces[1..], pieces[0].num + 1))
  }

  function Joined(pieces: seq<Piece>): seq<Fix> {
    if pieces == [] then [] else pieces[0].fixes + Joined(pieces[1..])
  }

  lemma {:induction false} PiecesPartition(first: nat, fs: seq<Fix>, s: nat)
    requires s <= |fs|
    ensures Chained(Pieces(first, fs, s), first + s)
    ensures Joined(Pieces(first, fs, s)) == fs[s..]
    decreases |fs| - s
  {
    if s < |fs| {
      var e := ChunkEnd(fs, s, s + 1);
      ChunkLinked(fs, s, e, None);
      PiecesPartition(first, fs, e);
      var ps := Pieces(first, fs, s);
      assert ps[1..] == Pieces(first, fs, e);
      assert fs[s..] == fs[s..e] + fs[e..];
    }
  }

  lemma {:induction false} ChainedPrefix(pieces: seq<Piece>, next: nat, n: nat)
    requires Chained(pieces, next) && n <= |pieces|
    ensures Chained(pieces[..n], next)
    ensures |Joined(pieces[..n])| <= |Joined(pieces)| && Joined(pieces[..n]) == Joined(pieces)[..|Joined(pieces[..n])|]
    decreases pieces
  {
    if n > 0 {
      ChainedPrefix(pieces[1..], pieces[0].num + 1, n - 1);
      assert pieces[..n][1..] == pieces[1..][..n - 1];
    }
  }

  function PieceBytes(p: Piece): seq<Byte>
    requires PieceOk(p)
  {
    LocBytes(p.num % TWO32, p.fixes)
  }

  function Frames(pieces: seq<Piece>, next: nat): (frames: seq<seq<Byte>>)
    requires Chained(pieces, next)
    ensures |frames| == |pieces|
  {
    if pieces == [] then [] else [PieceBytes(pieces[0])] + Frames(pieces[1..], pieces[0].num + 1)
  }

  /** encode_loc_frames needs room for its numbers: `last_seq + 1 - n` is a u64 subtraction. */
  predicate Numbered(last: nat, n: nat) {
    n <= last + 1 < TWO64
  }

  function LocFrames(last: nat, fs: seq<Fix>): seq<seq<Byte>>
    requires fs != [] ==> Numbered(last, |fs|)
  {
    if fs == [] then [] else
      var first := last + 1 - |fs|;
      PiecesPartition(first, fs, 0);
      Frames(Pieces(first, fs, 0), first)
  }

  /** The receiving side: decode frame after frame, insisting that the numbers continue. */
  function Reassemble(frames: seq<seq<Byte>>, next: nat): Option<seq<Fix>> {
    if frames == [] then Some([]) else
      var b := frames[0];
      if b == [] || b[0] != C_LOC then None else
        var r := LocAt(b, 1);
        if r.Fail? || r.next != |b| || r.value.num + 1 != next + |r.value.fixes| then None else
          match Reassemble(frames[1..], r.value.num + 1)
          case None => None
          case Some(rest) => Some(r.value.fixes + rest)
  }

  lemma OnGlobeConcat(x: seq<Fix>, y: seq<Fix>)
    ensures AllOnGlobe(x + y) <==> AllOnGlobe(x) && AllOnGlobe(y)
  {
    if AllOnGlobe(x + y) {
      forall i | 0 <= i < |x| ensures CoordOk(x[i].lat, x[i].lon) {
        assert (x + y)[i] == x[i];
      }
      forall i | 0 <= i < |y| ensures CoordOk(y[i].lat, y[i].lon) {
        assert (x + y)[|x| + i] == y[i];
      }
    }
  }

  lemma U8AtHead(b: seq<Byte>)
    requires U8At(b, 0) == Got(C_LOC, 1)
    ensures b != [] && b[0] == C_LOC
  {
  }

  /** One frame on its own: what the receiver makes of it. */
  lemma PieceReads(p: Piece)
    requires PieceOk(p) && p.num < TWO32
    ensures var b := PieceBytes(p);
            && b != [] && b[0] == C_LOC
            && LocAt(b, 1) == if AllOnGlobe(p.fixes) then Got(LocBody(p.num, p.fixes), |b|) else Fail(Invalid)
  {
    var b := PieceBytes(p);
    assert p.num % TWO32 == p.num;
    hide LocBytes, LocAt, PutU32, Linked, AllOnGlobe;
    assert b[0..|b|] == b;
    LocBack(b, 0, p.num, p.fixes);
    U8AtHead(b);
  }

  lemma {:induction false} FramesReassemble(pieces: seq<Piece>, next: nat)
    requires Chained(pieces, next)
    requires next + |Joined(pieces)| <= TWO32
    ensures Reassemble(Frames(pieces, next), next) ==
            if AllOnGlobe(Joined(pieces)) then Some(Joined(pieces)) else None
    decreases pieces
  {
    hide LocAt, PieceBytes, PieceOk;
    if pieces != [] {
      var p, rest := pieces[0], pieces[1..];
      PieceReads(p);
      FramesReassemble(rest, p.num + 1);
      assert Joined(pieces) == p.fixes + Joined(rest);
      OnGlobeConcat(p.fixes, Joined(rest));
      assert Frames(pieces, next)[1..] == Frames(rest, p.num + 1);
    }
  }

  /** The frames carry every point, in order, under consecutive numbers that end at `last`,
      exactly when every point lies on the globe. */
  lemma LocFramesLossless(last: nat, fs: seq<Fix>)
    requires fs != [] && |fs| <= last + 1 <= TWO32
    ensures Reassemble(LocFrames(last, fs), last + 1 - |fs|) == if AllOnGlobe(fs) then Some(fs) else None
  {
    var first := last + 1 - |fs|;
    hide Reassemble, AllOnGlobe, Pieces, Chained, Joined, Frames;
    PiecesPartition(first, fs, 0);
    FramesReassemble(Pieces(first, fs, 0), first);
    assert fs[0..] == fs;
  }

  /** What the receiver rebuilds is the sender's path, each coordinate within half a microdegree
      however long the chain of differences. */
  lemma LocFramesAccurate(last: nat, points: seq<LatLng>, i: nat)
    requires |points| <= last + 1 <= TWO32 && i < |points|
    requires forall k :: 0 <= k < |points| ==> InRange(points[k])
    ensures var fs := Reassemble(LocFrames(last, QuantiseAll(points)), last + 1 - |points|);
            && fs.Some? && |fs.value| == |points|
            && -0.0000005 <= Degrees(fs.value[i]).latitude - points[i].latitude <= 0.0000005
            && -0.0000005 <= Degrees(fs.value[i]).longitude - points[i].longitude <= 0.0000005
  {
    var fs := QuantiseAll(points);
    hide Reassemble, LocFrames;
    forall k | 0 <= k < |fs| ensures CoordOk(fs[k].lat, fs[k].lon) {
      assert InRange(points[k]);
    }
    LocFramesLossless(last, fs);
    HalfMicrodegree(points[i].latitude);
    HalfMicrodegree(points[i].longitude);
    assert fs[i] == Quantise(points[i]);
  }

  // ---- The greedy splitter is optimal ----

  /** `ends` cuts `fs[s..]` into consecutive chunks. */
  ghost predicate IsSplit(fs: seq<Fix>, s: nat, ends: seq<nat>)
    decreases ends
  {
    if ends == [] then s == |fs| else Chunk(fs, s, ends[0]) && IsSplit(fs, ends[0], ends[1..])
  }

  lemma {:induction false} ChunkEndReaches(fs: seq<Fix>, s: nat, i: nat, e: nat)
    requires Chunk(fs, s, i) && i <= e && Chunk(fs, s, e)
    ensures e <= ChunkEnd(fs, s, i)
    decreases e - i
  {
    if i < e {
      ChunkEndReaches(fs, s, i + 1, e);
    }
  }

  lemma {:induction false} GreedyStaysAhead(first: nat, fs: seq<Fix>, s: nat, g: nat, ends: seq<nat>)
    requires s <= g <= |fs| && IsSplit(fs, s, ends)
    ensures |Pieces(first, fs, g)| <= |ends|
    decreases ends
  {
    if g < |fs| {
      if ends[0] <= g {
        GreedyStaysAhead(first, fs, ends[0], g, ends[1..]);
      } else {
        var e := ChunkEnd(fs, g, g + 1);
        ChunkEndReaches(fs, g, g + 1, ends[0]);
        GreedyStaysAhead(first, fs, ends[0], e, ends[1..]);
      }
    }
  }

  /** No split into consecutive chunks uses fewer frames. */
  lemma GreedyOptimal(last: nat, fs: seq<Fix>, ends: seq<nat>)
    requires fs != [] && Numbered(last, |fs|) && IsSplit(fs, 0, ends)
    ensures |LocFrames(last, fs)| <= |ends|
  {
    GreedyStaysAhead(last + 1 - |fs|, fs, 0, 0, ends);
  }
}
