/** The wire, field by field (src/tracking/codec.rs): which byte of a message says what, in plain
    offsets and numbers. Decoding inverts the encoders (RoundTrip), so this fixes both. */
module Layout {
  import opened Wrappers
  import opened Bytes
  import opened Points
  import opened Utf8
  import opened Reading
  import opened Loc
  import opened Messages
  import opened RoundTrip
  import T = Types

  // ---- Fields ----

  /** `n` bytes at `i` hold `v`, lowest byte first. */
  predicate Num(b: seq<Byte>, i: nat, n: nat, v: int) {
    i + n <= |b| && Positional(b[i..i + n]) == v
  }

  /** Sixteen bytes of a UUID, or sixteen zeros for what is no UUID. */
  predicate UidField(b: seq<Byte>, i: nat, u: Uid) {
    i + 16 <= |b| && b[i..i + 16] == if u.Uid? then u.bytes else [0, 0, 0, 0, 0, 0, 0, 0, 0, 0, 0, 0, 0, 0, 0, 0]
  }

  function TextLen(s: seq<Byte>): nat {
    if |s| <= 4096 then |s| else 4096
  }

  /** Two bytes of length and at most the first 4096 bytes. */
  predicate Text(b: seq<Byte>, i: nat, s: seq<Byte>) {
    && Num(b, i, 2, TextLen(s))
    && i + 2 + TextLen(s) <= |b| && b[i + 2..i + 2 + TextLen(s)] == s[..TextLen(s)]
  }

  function Mod16(v: int): int { if v < 0 then v + 65_536 else v }

  function Mod32(v: int): int { if v < 0 then v + 4_294_967_296 else v }

  function Mod64(v: int): int { if v < 0 then v + 18_446_744_073_709_551_616 else v }

  /** An optional time: absent is zero. */
  predicate TimeField(b: seq<Byte>, i: nat, t: Option<I64>) {
    Num(b, i, 8, if t.Some? then Mod64(t.value) else 0)
  }

  function FlagByte(f: Fix): int {
    (if f.alt.Some? then 1 else 0) + (if f.acc.Some? then 2 else 0) + (if f.time.Some? then 16 else 0)
  }

  function ExtrasLen(f: Fix): nat {
    (if f.alt.Some? then 4 else 0) + (if f.acc.Some? then 2 else 0) + (if f.time.Some? then 8 else 0)
  }

  /** Altitude, accuracy and time, those that are there, in this order. */
  predicate ExtrasField(b: seq<Byte>, i: nat, f: Fix) {
    var j := i + if f.alt.Some? then 4 else 0;
    var k := j + if f.acc.Some? then 2 else 0;
    && (f.alt.Some? ==> Num(b, i, 4, Mod32(f.alt.value)))
    && (f.acc.Some? ==> Num(b, j, 2, f.acc.value))
    && (f.time.Some? ==> Num(b, k, 8, Mod64(f.time.value)))
  }

  /** A point by itself: flags, latitude and longitude of four bytes each, then the extras. */
  predicate PointField(b: seq<Byte>, i: nat, f: Fix) {
    && i < |b| && b[i] == FlagByte(f)
    && Num(b, i + 1, 4, Mod32(f.lat)) && Num(b, i + 5, 4, Mod32(f.lon))
    && ExtrasField(b, i + 9, f)
  }

  /** A point after another: differences of two bytes each. */
  predicate StepField(b: seq<Byte>, i: nat, p: Fix, f: Fix) {
    && i < |b| && b[i] == FlagByte(f)
    && Num(b, i + 1, 2, Mod16(f.lat - p.lat)) && Num(b, i + 3, 2, Mod16(f.lon - p.lon))
    && ExtrasField(b, i + 5, f)
  }

  predicate StepsField(b: seq<Byte>, i: nat, p: Fix, fs: seq<Fix>)
    decreases fs
  {
    fs == [] || (StepField(b, i, p, fs[0]) && StepsField(b, i + 5 + ExtrasLen(fs[0]), fs[0], fs[1..]))
  }

  /** Two bytes of count, then eight bytes a position. */
  predicate RouteField(b: seq<Byte>, i: nat, route: seq<LatLng>) {
    var n := if |route| <= 65_535 then |route| else 65_535;
    && Num(b, i, 2, n)
    && forall k :: 0 <= k < n ==> PlaceField(b, i, k, Quantise(route[k]))
  }

  predicate PlaceField(b: seq<Byte>, i: nat, k: nat, f: Fix) {
    Num(b, i + 2 + 8 * k, 4, Mod32(f.lat)) && Num(b, i + 6 + 8 * k, 4, Mod32(f.lon))
  }

  function RouteLen(route: seq<LatLng>): nat {
    2 + 8 * if |route| <= 65_535 then |route| else 65_535
  }

  // ---- The fields where the writers put them ----

  lemma NumsAt(b: seq<Byte>, i: nat, u: U16, v: U32)
    ensures At(b, i, PutU16(u)) ==> Num(b, i, 2, u)
    ensures At(b, i, PutU32(v)) ==> Num(b, i, 4, v)
  {
    PutLittleEndian(u, v, 0);
    hide PutU16, PutU32, Positional;
  }

  lemma SignedAt(b: seq<Byte>, i: nat, x: I16, y: I32, z: I64)
    ensures At(b, i, PutI16(x)) ==> Num(b, i, 2, Mod16(x))
    ensures At(b, i, PutI32(y)) ==> Num(b, i, 4, Mod32(y))
    ensures At(b, i, PutI64(z)) ==> Num(b, i, 8, Mod64(z))
  {
    PutTwosComplement(x, y, z);
    hide PutI16, PutI32, PutI64, Positional;
  }

  lemma UidAt(b: seq<Byte>, i: nat, u: Uid)
    requires At(b, i, UidBytes(u))
    ensures UidField(b, i, u)
  {
  }

  lemma TextAt(b: seq<Byte>, i: nat, s: seq<Byte>)
    requires At(b, i, PutBytes(s))
    ensures Text(b, i, s) && |PutBytes(s)| == 2 + TextLen(s)
  {
    AtSplit(b, i, PutU16(|Cut(s)|), Cut(s));
    NumsAt(b, i, |Cut(s)|, 0);
    hide Num, PutU16;
  }

  lemma TimeAt(b: seq<Byte>, i: nat, t: Option<I64>)
    requires At(b, i, ZeroTimeBytes(t))
    ensures TimeField(b, i, t)
  {
    SignedAt(b, i, 0, 0, t.GetOr(0));
    hide Num, PutI64;
  }

  lemma ExtrasAtField(b: seq<Byte>, i: nat, f: Fix)
    requires At(b, i, Extras(f.alt, f.acc, f.time))
    ensures ExtrasField(b, i, f) && |Extras(f.alt, f.acc, f.time)| == ExtrasLen(f)
  {
    hide At, Num, PutI32, PutU16, PutI64;
    var j := i + |AltBytes(f.alt)|;
    AtSplit(b, i, AltBytes(f.alt), AccBytes(f.acc) + TimeBytes(f.time));
    AtSplit(b, j, AccBytes(f.acc), TimeBytes(f.time));
    SignedAt(b, i, 0, f.alt.GetOr(0), 0);
    NumsAt(b, j, f.acc.GetOr(0), 0);
    SignedAt(b, j + |AccBytes(f.acc)|, 0, 0, f.time.GetOr(0));
  }

  lemma FlagsAre(f: Fix)
    ensures Flags(f) == FlagByte(f)
  {
  }

  lemma PointAt(b: seq<Byte>, i: nat, f: Fix)
    requires At(b, i, PointBytes(f, None))
    ensures PointField(b, i, f) && |PointBytes(f, None)| == 9 + ExtrasLen(f)
  {
    var place, extras := PutI32(f.lat) + PutI32(f.lon), Extras(f.alt, f.acc, f.time);
    PointParts(f);
    hide At, Num, PutI32, Extras, PointBytes, Flags, FlagByte, ExtrasField;
    AtSplit(b, i, [FlagByte(f)], place + extras);
    AtSplit(b, i + 1, place, extras);
    AtSplit(b, i + 1, PutI32(f.lat), PutI32(f.lon));
    SignedAt(b, i + 1, 0, f.lat, 0);
    SignedAt(b, i + 5, 0, f.lon, 0);
    ExtrasAtField(b, i + 9, f);
    HeadByte(b, i, FlagByte(f));
  }

  lemma PointParts(f: Fix)
    ensures 0 <= FlagByte(f) < 256
    ensures PointBytes(f, None) == [FlagByte(f)] + ((PutI32(f.lat) + PutI32(f.lon)) + Extras(f.alt, f.acc, f.time))
  {
    FlagsAre(f);
    hide PutI32, Extras;
  }

  lemma StepParts(p: Fix, f: Fix)
    requires DeltaFits(PlaceOf(p), PlaceOf(f))
    ensures 0 <= FlagByte(f) < 256
    ensures PointBytes(f, Some(PlaceOf(p)))
            == [FlagByte(f)] + ((PutI16(f.lat - p.lat) + PutI16(f.lon - p.lon)) + Extras(f.alt, f.acc, f.time))
  {
    FlagsAre(f);
    hide PutI16, Extras;
  }

  lemma HeadByte(b: seq<Byte>, i: nat, x: Byte)
    requires At(b, i, [x])
    ensures i < |b| && b[i] == x
  {
  }

  lemma StepAt(b: seq<Byte>, i: nat, p: Fix, f: Fix)
    requires DeltaFits(PlaceOf(p), PlaceOf(f)) && At(b, i, PointBytes(f, Some(PlaceOf(p))))
    ensures StepField(b, i, p, f) && |PointBytes(f, Some(PlaceOf(p)))| == 5 + ExtrasLen(f)
  {
    var place, extras := PutI16(f.lat - p.lat) + PutI16(f.lon - p.lon), Extras(f.alt, f.acc, f.time);
    StepParts(p, f);
    hide At, Num, PutI16, Extras, PointBytes, Flags, FlagByte, ExtrasField;
    AtSplit(b, i, [FlagByte(f)], place + extras);
    AtSplit(b, i + 1, place, extras);
    AtSplit(b, i + 1, PutI16(f.lat - p.lat), PutI16(f.lon - p.lon));
    SignedAt(b, i + 1, f.lat - p.lat, 0, 0);
    SignedAt(b, i + 3, f.lon - p.lon, 0, 0);
    ExtrasAtField(b, i + 5, f);
    HeadByte(b, i, FlagByte(f));
  }

  lemma {:induction false} StepsAt(b: seq<Byte>, i: nat, p: Fix, fs: seq<Fix>)
    requires Linked(fs, Some(PlaceOf(p))) && At(b, i, PointsBytes(fs, Some(PlaceOf(p))))
    ensures StepsField(b, i, p, fs)
    decreases fs
  {
    if fs != [] {
      var x, rest := PointBytes(fs[0], Some(PlaceOf(p))), PointsBytes(fs[1..], Some(PlaceOf(fs[0])));
      AtSplit(b, i, x, rest);
      hide At, PointBytes, StepField, ExtrasLen;
      StepAt(b, i, p, fs[0]);
      StepsAt(b, i + |x|, fs[0], fs[1..]);
    }
  }

  lemma PlacesLen(route: seq<LatLng>)
    ensures |PlacesBytes(route)| == 8 * |route|
    decreases route
  {
    if route != [] {
      PlacesLen(route[1..]);
    }
  }

  lemma {:induction false} PlacesAt(b: seq<Byte>, i: nat, route: seq<LatLng>, k: nat)
    requires At(b, i + 2, PlacesBytes(route)) && k < |route|
    ensures PlaceField(b, i, k, Quantise(route[k]))
    decreases k
  {
    var p := Quantise(route[0]);
    AtSplit(b, i + 2, PutI32(p.lat) + PutI32(p.lon), PlacesBytes(route[1..]));
    hide Num, Quantise, PutI32;
    if k == 0 {
      AtSplit(b, i + 2, PutI32(p.lat), PutI32(p.lon));
      SignedAt(b, i + 2, 0, p.lat, 0);
      SignedAt(b, i + 6, 0, p.lon, 0);
    } else {
      PlacesAt(b, i + 8, route[1..], k - 1);
      assert route[1..][k - 1] == route[k];
    }
  }

  lemma RouteAtField(b: seq<Byte>, i: nat, route: seq<LatLng>)
    requires At(b, i, RouteBytes(route))
    ensures RouteField(b, i, route) && |RouteBytes(route)| == RouteLen(route)
  {
    var cut := RouteCut(route);
    AtSplit(b, i, PutU16(|cut|), PlacesBytes(cut));
    NumsAt(b, i, |cut|, 0);
    PlacesLen(cut);
    hide Num, PutU16, PlacesBytes, Quantise, PlaceField;
    forall k | 0 <= k < |cut| ensures PlaceField(b, i, k, Quantise(route[k])) {
      PlacesAt(b, i, cut, k);
      assert cut[k] == route[k];
    }
  }

  // ---- What the client sends ----

  lemma Whole(b: seq<Byte>)
    ensures At(b, 0, b)
  {
    assert b[0..|b|] == b;
  }

  lemma ResumeLayout(uid: Uid, last: U64)
    ensures var b := EncodeClient(Resume(uid, last));
            |b| == 21 && b[0] == 0x01 && UidField(b, 1, uid) && Num(b, 17, 4, last % 4_294_967_296)
  {
    var b := EncodeClient(Resume(uid, last));
    Whole(b);
    AtSplit(b, 0, [C_RESUME], UidBytes(uid) + PutU32(last % TWO32));
    AtSplit(b, 1, UidBytes(uid), PutU32(last % TWO32));
    UidAt(b, 1, uid);
    NumsAt(b, 17, 0, last % TWO32);
    hide Num, PutU32, UidBytes, UidField;
  }

  lemma TrackStartLayout(location: Option<LatLng>, route: seq<LatLng>, metadata: seq<Byte>)
    ensures var b := EncodeClient(TrackStart(location, route, metadata));
            var j := 2 + if location.Some? then 9 + ExtrasLen(Quantise(location.value)) else 0;
            && |b| == j + RouteLen(route) + 2 + TextLen(metadata)
            && b[0] == 0x02 && b[1] == (if location.Some? then 1 else 0)
            && (location.Some? ==> PointField(b, 2, Quantise(location.value)))
            && RouteField(b, j, route) && Text(b, j + RouteLen(route), metadata)
  {
    var b := EncodeClient(TrackStart(location, route, metadata));
    var x, y, z := OptPointBytes(location), RouteBytes(route), PutBytes(metadata);
    Whole(b);
    hide RouteBytes, PutBytes, Quantise, PointBytes, At;
    var flag := [BoolByte(location.Some?)];
    AtSplit(b, 0, [C_TRACK_START], flag + (x + (y + z)));
    AtSplit(b, 1, flag, x + (y + z));
    AtSplit(b, 2, x, y + z);
    AtSplit(b, 2 + |x|, y, z);
    hide Num, PointField, RouteField, Text, ExtrasLen, RouteLen, TextLen;
    if location.Some? {
      PointAt(b, 2, Quantise(location.value));
    }
    RouteAtField(b, 2 + |x|, route);
    TextAt(b, 2 + |x| + |y|, metadata);
  }

  /** One live point: type, number, count one, the point. */
  lemma LocationAddLayout(uid: Uid, num: U64, point: LatLng)
    ensures var b := EncodeClient(LocationAdd(uid, num, point));
            && |b| == 15 + ExtrasLen(Quantise(point)) && b[0] == 0x04 && Num(b, 1, 4, num % 4_294_967_296) && b[5] == 1
            && PointField(b, 6, Quantise(point))
  {
    hide Quantise, PointField, Num, ExtrasLen;
    LocLayout(num % TWO32, [Quantise(point)]);
    SinglePoint(num % TWO32, Quantise(point));
  }

  lemma SinglePoint(num: U32, f: Fix)
    ensures |LocBytes(num, [f])| == 15 + ExtrasLen(f)
  {
    Whole(PointBytes(f, None));
    PointAt(PointBytes(f, None), 0, f);
    hide PointBytes, PointField, ExtrasLen;
    assert PointsBytes([f], None) == PointBytes(f, None);
  }

  /** Five parts one behind the other. */
  function Nested(v: seq<Byte>, w: seq<Byte>, x: seq<Byte>, y: seq<Byte>, z: seq<Byte>): seq<Byte> {
    v + (w + (x + (y + z)))
  }

  predicate Laid(b: seq<Byte>, i: nat, v: seq<Byte>, w: seq<Byte>, x: seq<Byte>, y: seq<Byte>, z: seq<Byte>) {
    && At(b, i, v) && At(b, i + |v|, w) && At(b, i + |v| + |w|, x) && At(b, i + |v| + |w| + |x|, y)
    && At(b, i + |v| + |w| + |x| + |y|, z)
  }

  lemma Split5(b: seq<Byte>, i: nat, v: seq<Byte>, w: seq<Byte>, x: seq<Byte>, y: seq<Byte>, z: seq<Byte>)
    requires At(b, i, Nested(v, w, x, y, z))
    ensures Laid(b, i, v, w, x, y, z)
  {
    hide At;
    AtSplit(b, i, v, w + (x + (y + z)));
    AtSplit(b, i + |v|, w, x + (y + z));
    AtSplit(b, i + |v| + |w|, x, y + z);
    AtSplit(b, i + |v| + |w| + |x|, y, z);
  }

  lemma NestedLen(v: seq<Byte>, w: seq<Byte>, x: seq<Byte>, y: seq<Byte>, z: seq<Byte>)
    ensures |Nested(v, w, x, y, z)| == |v| + |w| + |x| + |y| + |z|
  {
  }

  /** A Loc frame: type, number of its last point, count, the first point whole and the others as steps. */
  lemma LocLayout(num: U32, fs: seq<Fix>)
    requires 1 <= |fs| <= 100 && Linked(fs, None)
    ensures var b := LocBytes(num, fs);
            && |b| > 6 && b[0] == 0x04 && Num(b, 1, 4, num) && b[5] == |fs|
            && PointField(b, 6, fs[0]) && StepsField(b, 15 + ExtrasLen(fs[0]), fs[0], fs[1..])
  {
    hide *;
    LocHeadField(num, fs);
    LocFirstField(num, fs);
    LocRestField(num, fs);
  }

  /** The five parts of a Loc frame. */
  predicate FrameLaid(b: seq<Byte>, num: U32, n: Byte, f: Fix, rest: seq<Fix>) {
    && |b| > 6 && Linked(rest, Some(PlaceOf(f)))
    && Laid(b, 0, [0x04], PutU32(num), [n], PointBytes(f, None), PointsBytes(rest, Some(PlaceOf(f))))
  }

  lemma LocLaid(num: U32, fs: seq<Fix>)
    requires 1 <= |fs| <= 100 && Linked(fs, None)
    ensures FrameLaid(LocBytes(num, fs), num, |fs|, fs[0], fs[1..])
  {
    LocParts(num, fs);
    LocNested(LocBytes(num, fs), num, |fs|, fs[0], fs[1..]);
  }

  lemma LocNested(b: seq<Byte>, num: U32, n: Byte, f: Fix, rest: seq<Fix>)
    requires Linked(rest, Some(PlaceOf(f))) && |PointBytes(f, None)| > 0
    requires b == Nested([0x04], PutU32(num), [n], PointBytes(f, None), PointsBytes(rest, Some(PlaceOf(f))))
    ensures FrameLaid(b, num, n, f, rest)
  {
    Whole(b);
    hide Linked, PointsBytes, PointBytes, PutU32, At, Laid, Nested;
    NestedLen([0x04], PutU32(num), [n], PointBytes(f, None), PointsBytes(rest, Some(PlaceOf(f))));
    Split5(b, 0, [0x04], PutU32(num), [n], PointBytes(f, None), PointsBytes(rest, Some(PlaceOf(f))));
  }

  lemma LocHeadField(num: U32, fs: seq<Fix>)
    requires 1 <= |fs| <= 100 && Linked(fs, None)
    ensures var b := LocBytes(num, fs); |b| > 6 && b[0] == 0x04 && Num(b, 1, 4, num) && b[5] == |fs|
  {
    hide LocBytes, Linked, FrameLaid, PointField, StepsField, ExtrasLen, Num;
    LocLaid(num, fs);
    HeadField(LocBytes(num, fs), num, |fs|, fs[0], fs[1..]);
  }

  lemma HeadField(b: seq<Byte>, num: U32, n: Byte, f: Fix, rest: seq<Fix>)
    requires FrameLaid(b, num, n, f, rest)
    ensures |b| > 6 && b[0] == 0x04 && Num(b, 1, 4, num) && b[5] == n
  {
    hide Linked, PointsBytes, PointBytes, PutU32, At, Num;
    HeadByte(b, 0, 0x04);
    HeadByte(b, 5, n);
    NumsAt(b, 1, 0, num);
  }

  lemma LocFirstField(num: U32, fs: seq<Fix>)
    requires 1 <= |fs| <= 100 && Linked(fs, None)
    ensures PointField(LocBytes(num, fs), 6, fs[0])
  {
    hide LocBytes, Linked, FrameLaid, PointField, StepsField, ExtrasLen, Num;
    LocLaid(num, fs);
    FirstField(LocBytes(num, fs), num, |fs|, fs[0], fs[1..]);
  }

  lemma FirstField(b: seq<Byte>, num: U32, n: Byte, f: Fix, rest: seq<Fix>)
    requires FrameLaid(b, num, n, f, rest)
    ensures PointField(b, 6, f)
  {
    hide Linked, PointsBytes, PointBytes, PutU32, At, PointField, ExtrasLen;
    PointAt(b, 6, f);
  }

  lemma LocRestField(num: U32, fs: seq<Fix>)
    requires 1 <= |fs| <= 100 && Linked(fs, None)
    ensures StepsField(LocBytes(num, fs), 15 + ExtrasLen(fs[0]), fs[0], fs[1..])
  {
    hide LocBytes, Linked, FrameLaid, PointField, StepsField, ExtrasLen, Num;
    LocLaid(num, fs);
    RestField(LocBytes(num, fs), num, |fs|, fs[0], fs[1..]);
  }

  lemma RestField(b: seq<Byte>, num: U32, n: Byte, f: Fix, rest: seq<Fix>)
    requires FrameLaid(b, num, n, f, rest)
    ensures StepsField(b, 15 + ExtrasLen(f), f, rest)
  {
    PointLen(f);
    hide Linked, PointsBytes, PointBytes, PutU32, At, Laid, ExtrasLen, StepsField;
    LaidLast(b, 0, [0x04], PutU32(num), [n], PointBytes(f, None), PointsBytes(rest, Some(PlaceOf(f))));
    StepsAt(b, 6 + |PointBytes(f, None)|, f, rest);
  }

  lemma PointLen(f: Fix)
    ensures |PointBytes(f, None)| == 9 + ExtrasLen(f)
  {
    Whole(PointBytes(f, None));
    hide *;
    PointAt(PointBytes(f, None), 0, f);
  }

  lemma LaidLast(b: seq<Byte>, i: nat, v: seq<Byte>, w: seq<Byte>, x: seq<Byte>, y: seq<Byte>, z: seq<Byte>)
    requires Laid(b, i, v, w, x, y, z)
    ensures At(b, i + |v| + |w| + |x| + |y|, z)
  {
    hide At;
  }

  lemma LocParts(num: U32, fs: seq<Fix>)
    requires 1 <= |fs| <= 100 && Linked(fs, None)
    ensures Linked(fs[1..], Some(PlaceOf(fs[0])))
    ensures LocBytes(num, fs)
            == Nested([0x04], PutU32(num), [|fs|], PointBytes(fs[0], None), PointsBytes(fs[1..], Some(PlaceOf(fs[0]))))
    ensures |PointBytes(fs[0], None)| > 0
  {
    hide PutU32, PlaceBytes, Extras;
  }

  lemma ShortLayouts(uid: Uid, events: bool, interval: U32, sub: Byte)
    ensures EncodeClient(TrackStop(uid)) == [0x03] && EncodeClient(Unsubscribe(sub)) == [0x06, sub]
    ensures var b := EncodeClient(Subscribe(uid, events, interval));
            && |b| == 20 && b[0] == 0x05 && UidField(b, 1, uid) && b[17] == (if events then 1 else 0)
            && Num(b, 18, 2, if interval <= 65_535 then interval else 65_535)
  {
    var b := EncodeClient(Subscribe(uid, events, interval));
    var n: U16 := if interval < 0xFFFF then interval else 0xFFFF;
    Whole(b);
    AtSplit(b, 0, [C_SUBSCRIBE], UidBytes(uid) + ([BoolByte(events)] + PutU16(n)));
    AtSplit(b, 1, UidBytes(uid), [BoolByte(events)] + PutU16(n));
    AtSplit(b, 17, [BoolByte(events)], PutU16(n));
    UidAt(b, 1, uid);
    NumsAt(b, 18, n, 0);
    hide Num, PutU16, UidBytes, UidField;
  }

  lemma EventLayout(uid: Uid, payload: seq<Byte>, time: Option<I64>)
    ensures var b := EncodeClient(Event(uid, payload, time));
            && |b| == 11 + TextLen(payload) && b[0] == 0x07 && Text(b, 1, payload) && TimeField(b, 3 + TextLen(payload), time)
  {
    var b := EncodeClient(Event(uid, payload, time));
    Whole(b);
    AtSplit(b, 0, [C_EVENT], PutBytes(payload) + ZeroTimeBytes(time));
    AtSplit(b, 1, PutBytes(payload), ZeroTimeBytes(time));
    hide PutBytes, PutI64, Text, TimeField, TextLen;
    TextAt(b, 1, payload);
    TimeAt(b, 1 + |PutBytes(payload)|, time);
  }

  lemma CommandAckLayout(id: Uid, status: T.AckStatus, message: Option<Str>)
    ensures var b := EncodeClient(CommandAck(id, status, message));
            var text := if message.Some? then message.value else [];
            && |b| == 20 + TextLen(text) && b[0] == 0x08 && UidField(b, 1, id)
            && b[17] == (if status.Unspecified? then 0 else if status.Okay? then 1 else if status.Rejected? then 2 else 3)
            && Text(b, 18, text)
  {
    var b := EncodeClient(CommandAck(id, status, message));
    var text := message.GetOr([]);
    Whole(b);
    hide UidBytes, PutBytes, Text, TextLen, UidField;
    AtSplit(b, 0, [C_COMMAND_ACK], UidBytes(id) + ([T.AckStatusByte(status)] + PutBytes(text)));
    AtSplit(b, 1, UidBytes(id), [T.AckStatusByte(status)] + PutBytes(text));
    AtSplit(b, 17, [T.AckStatusByte(status)], PutBytes(text));
    UidAt(b, 1, id);
    TextAt(b, 18, text);
  }

  // ---- What the server sends ----

  lemma HelloLayout(version: Byte, node: Uid, shard: U32)
    ensures var b := EncodeServer(Hello(version, node, shard));
            |b| == 20 && b[0] == 0x80 && b[1] == version && Num(b, 2, 2, shard % 65_536) && UidField(b, 4, node)
  {
    var b := EncodeServer(Hello(version, node, shard));
    Whole(b);
    AtSplit(b, 0, [S_HELLO], [version] + (PutU16(shard % TWO16) + UidBytes(node)));
    AtSplit(b, 1, [version], PutU16(shard % TWO16) + UidBytes(node));
    AtSplit(b, 2, PutU16(shard % TWO16), UidBytes(node));
    NumsAt(b, 2, shard % TWO16, 0);
    UidAt(b, 4, node);
    hide Num, PutU16, UidBytes, UidField;
  }

  lemma RelocateLayout(endpoint: Str, retry: U32)
    ensures var b := EncodeServer(Relocate(endpoint, retry));
            |b| == 7 + TextLen(endpoint) && b[0] == 0x81 && Num(b, 1, 4, retry) && Text(b, 5, endpoint)
  {
    var b := EncodeServer(Relocate(endpoint, retry));
    Whole(b);
    AtSplit(b, 0, [S_RELOCATE], PutU32(retry) + PutBytes(endpoint));
    AtSplit(b, 1, PutU32(retry), PutBytes(endpoint));
    hide Num, PutU32, PutBytes, Text, TextLen;
    NumsAt(b, 1, 0, retry);
    TextAt(b, 5, endpoint);
  }

  /** ResumeOk, TrackStopped and Ack. */
  lemma CursorLayouts(uid: Uid, num: U64)
    ensures var b := EncodeServer(ResumeOk(uid, num)); |b| == 21 && b[0] == 0x82 && UidField(b, 1, uid) && Num(b, 17, 4, num % 4_294_967_296)
    ensures var b := EncodeServer(TrackStopped(uid)); |b| == 17 && b[0] == 0x84 && UidField(b, 1, uid)
    ensures var b := EncodeServer(Ack(num)); |b| == 5 && b[0] == 0x85 && Num(b, 1, 4, num % 4_294_967_296)
  {
    var x, y, z := EncodeServer(ResumeOk(uid, num)), EncodeServer(TrackStopped(uid)), EncodeServer(Ack(num));
    var n := PutU32(num % TWO32);
    Whole(x);
    Whole(y);
    Whole(z);
    hide Num, PutU32, UidBytes, UidField, At;
    AtSplit(x, 0, [S_RESUME_OK], UidBytes(uid) + n);
    AtSplit(x, 1, UidBytes(uid), n);
    AtSplit(y, 0, [S_TRACK_STOPPED], UidBytes(uid));
    AtSplit(z, 0, [S_ACK], n);
    UidAt(x, 1, uid);
    UidAt(y, 1, uid);
    NumsAt(x, 17, 0, num % TWO32);
    NumsAt(z, 1, 0, num % TWO32);
  }

  lemma TrackStartedLayout(uid: Uid, metadata: seq<Byte>)
    ensures var b := EncodeServer(TrackStarted(uid, metadata));
            |b| == 19 + TextLen(metadata) && b[0] == 0x83 && UidField(b, 1, uid) && Text(b, 17, metadata)
  {
    var b := EncodeServer(TrackStarted(uid, metadata));
    Whole(b);
    AtSplit(b, 0, [S_TRACK_STARTED], UidBytes(uid) + PutBytes(metadata));
    AtSplit(b, 1, UidBytes(uid), PutBytes(metadata));
    hide UidBytes, PutBytes, Text, TextLen, UidField;
    UidAt(b, 1, uid);
    TextAt(b, 17, metadata);
  }

  lemma LocationAddedLayout(device: Uid, track: Uid, point: LatLng, num: U64, sub: Byte)
    ensures var b := EncodeServer(LocationAdded(device, track, point, num, sub));
            && |b| == 15 + ExtrasLen(Quantise(point)) && b[0] == 0x86 && b[1] == sub && Num(b, 2, 4, num % 4_294_967_296)
            && PointField(b, 6, Quantise(point))
  {
    var b := EncodeServer(LocationAdded(device, track, point, num, sub));
    Whole(b);
    hide Num, PutU32, Quantise, PointBytes, PointField, ExtrasLen, At;
    AtSplit(b, 0, [S_LOC], [sub] + (PutU32(num % TWO32) + AbsBytes(point)));
    AtSplit(b, 1, [sub], PutU32(num % TWO32) + AbsBytes(point));
    AtSplit(b, 2, PutU32(num % TWO32), AbsBytes(point));
    NumsAt(b, 2, 0, num % TWO32);
    PointAt(b, 6, Quantise(point));
  }

  /** Where the parts of Subscribed that its flags announce end. */
  function LocationEnd(e: ServerEvt): nat
    requires e.Subscribed?
  {
    36 + if e.lastLocation.Some? then 9 + ExtrasLen(Quantise(e.lastLocation.value)) else 0
  }

  function SeenEnd(e: ServerEvt): nat
    requires e.Subscribed?
  {
    LocationEnd(e) + if e.lastSeenMs.Some? then 8 else 0
  }

  function RouteEnd(e: ServerEvt): nat
    requires e.Subscribed?
  {
    SeenEnd(e) + if e.route != [] then RouteLen(e.route) else 0
  }

  predicate SubscribedHeadField(b: seq<Byte>, e: ServerEvt)
    requires e.Subscribed?
  {
    && |b| >= 36 && b[1] == e.sub && UidField(b, 2, e.deviceUid) && UidField(b, 18, e.trackUid)
    && b[34] == (if e.online then 1 else 0)
    && b[35] == (if e.lastLocation.Some? then 1 else 0) + (if e.lastSeenMs.Some? then 2 else 0) + (if e.route != [] then 4 else 0)
  }

  predicate SubscribedPartsField(b: seq<Byte>, e: ServerEvt)
    requires e.Subscribed?
  {
    && (e.lastLocation.Some? ==> PointField(b, 36, Quantise(e.lastLocation.value)))
    && (e.lastSeenMs.Some? ==> Num(b, LocationEnd(e), 8, Mod64(e.lastSeenMs.value)))
    && (e.route != [] ==> RouteField(b, SeenEnd(e), e.route))
  }

  predicate SubscribedTailField(b: seq<Byte>, i: nat, e: ServerEvt)
    requires e.Subscribed?
  {
    var j := i + 18 + TextLen(e.startName);
    var k := j + 2 + TextLen(e.endName);
    && i + 16 <= |b| && b[i..i + 8] == e.distance && b[i + 8..i + 16] == e.duration
    && Text(b, i + 16, e.startName) && Text(b, j, e.endName) && Text(b, k, e.metadata)
  }

  /** Subscribed: a fixed head, what its flags announce, and the rest. */
  lemma SubscribedLayout(e: ServerEvt)
    requires e.Subscribed?
    ensures var b := EncodeServer(e);
            && |b| == RouteEnd(e) + 22 + TextLen(e.startName) + TextLen(e.endName) + TextLen(e.metadata)
            && b[0] == 0x87 && SubscribedHeadField(b, e) && SubscribedPartsField(b, e) && SubscribedTailField(b, RouteEnd(e), e)
  {
    SubscribedLaid(e);
    hide EncodeServer, SubscribedHeadBytes, SubscribedPartsBytes, SubscribedTailBytes, SubscribedHeadField, SubscribedPartsField,
      SubscribedTailField, RouteEnd, TextLen, At;
    HeadByte(EncodeServer(e), 0, 0x87);
    SubscribedHeadLayout(EncodeServer(e), e);
    SubscribedPartsLayout(EncodeServer(e), e);
    SubscribedTailLayout(EncodeServer(e), 36 + |SubscribedPartsBytes(e)|, e);
  }

  lemma SubscribedLaid(e: ServerEvt)
    requires e.Subscribed?
    ensures Laid(EncodeServer(e), 0, [0x87], SubscribedHeadBytes(e), SubscribedPartsBytes(e), SubscribedTailBytes(e), [])
    ensures |SubscribedHeadBytes(e)| == 35
    ensures |EncodeServer(e)| == 36 + |SubscribedPartsBytes(e)| + |SubscribedTailBytes(e)|
  {
    SubscribedParts3(e);
    Whole(EncodeServer(e));
    hide *;
    NestedLen([0x87], SubscribedHeadBytes(e), SubscribedPartsBytes(e), SubscribedTailBytes(e), []);
    Split5(EncodeServer(e), 0, [0x87], SubscribedHeadBytes(e), SubscribedPartsBytes(e), SubscribedTailBytes(e), []);
  }

  lemma SubscribedParts3(e: ServerEvt)
    requires e.Subscribed?
    ensures EncodeServer(e) == Nested([0x87], SubscribedHeadBytes(e), SubscribedPartsBytes(e), SubscribedTailBytes(e), [])
    ensures |SubscribedHeadBytes(e)| == 35
  {
    assert SubscribedTailBytes(e) + [] == SubscribedTailBytes(e);
    hide SubscribedPartsBytes, SubscribedTailBytes, UidBytes;
  }

  lemma SubscribedHeadLayout(b: seq<Byte>, e: ServerEvt)
    requires e.Subscribed? && At(b, 1, SubscribedHeadBytes(e))
    ensures SubscribedHeadField(b, e)
  {
    var x, y := UidBytes(e.deviceUid), UidBytes(e.trackUid);
    AtSplit(b, 1, [e.sub], x + (y + ([BoolByte(e.online)] + [FlagsOf(e)])));
    AtSplit(b, 2, x, y + ([BoolByte(e.online)] + [FlagsOf(e)]));
    AtSplit(b, 18, y, [BoolByte(e.online)] + [FlagsOf(e)]);
    AtSplit(b, 34, [BoolByte(e.online)], [FlagsOf(e)]);
    hide At, UidBytes, UidField;
    HeadByte(b, 1, e.sub);
    HeadByte(b, 34, BoolByte(e.online));
    HeadByte(b, 35, FlagsOf(e));
    UidAt(b, 2, e.deviceUid);
    UidAt(b, 18, e.trackUid);
  }

  lemma SubscribedPartsLayout(b: seq<Byte>, e: ServerEvt)
    requires e.Subscribed? && At(b, 36, SubscribedPartsBytes(e))
    ensures SubscribedPartsField(b, e) && 36 + |SubscribedPartsBytes(e)| == RouteEnd(e)
  {
    var x, y, z := OptPointBytes(e.lastLocation), OptTimeBytes(e.lastSeenMs), OptRouteBytes(e.route);
    hide At, PointField, RouteField, Num, ExtrasLen, RouteLen, Quantise, PointBytes, RouteBytes, PutI64;
    AtSplit(b, 36, x, y + z);
    AtSplit(b, 36 + |x|, y, z);
    if e.lastLocation.Some? {
      PointAt(b, 36, Quantise(e.lastLocation.value));
    }
    if e.lastSeenMs.Some? {
      SignedAt(b, 36 + |x|, 0, 0, e.lastSeenMs.value);
    }
    if e.route != [] {
      RouteAtField(b, 36 + |x| + |y|, e.route);
    }
  }

  lemma SubscribedTailLayout(b: seq<Byte>, i: nat, e: ServerEvt)
    requires e.Subscribed? && At(b, i, SubscribedTailBytes(e))
    ensures SubscribedTailField(b, i, e)
    ensures |SubscribedTailBytes(e)| == 22 + TextLen(e.startName) + TextLen(e.endName) + TextLen(e.metadata)
  {
    hide *;
    TailLaid(b, i, e);
    TailLen(b, i, e);
  }

  lemma TailLaid(b: seq<Byte>, i: nat, e: ServerEvt)
    requires e.Subscribed? && At(b, i, SubscribedTailBytes(e))
    ensures SubscribedTailField(b, i, e)
  {
    TailParts(e);
    hide At, Text, TextLen, Nested, SubscribedTailBytes, PutBytes;
    TailFields(b, i, e.distance, e.duration, e.startName, e.endName, e.metadata);
  }

  lemma TailLen(b: seq<Byte>, i: nat, e: ServerEvt)
    requires e.Subscribed? && At(b, i, SubscribedTailBytes(e))
    ensures |SubscribedTailBytes(e)| == 22 + TextLen(e.startName) + TextLen(e.endName) + TextLen(e.metadata)
  {
    TailParts(e);
    hide At, Text, TextLen, Nested, SubscribedTailBytes, SubscribedTailField, PutBytes;
    TailFields(b, i, e.distance, e.duration, e.startName, e.endName, e.metadata);
  }

  lemma TailFields(b: seq<Byte>, i: nat, d: seq<Byte>, t: seq<Byte>, x: seq<Byte>, y: seq<Byte>, z: seq<Byte>)
    requires |d| == 8 && |t| == 8 && At(b, i, Nested(d, t, PutBytes(x), PutBytes(y), PutBytes(z)))
    ensures i + 16 <= |b| && b[i..i + 8] == d && b[i + 8..i + 16] == t
    ensures Text(b, i + 16, x) && Text(b, i + 18 + TextLen(x), y) && Text(b, i + 20 + TextLen(x) + TextLen(y), z)
    ensures |PutBytes(x)| + |PutBytes(y)| + |PutBytes(z)| == 6 + TextLen(x) + TextLen(y) + TextLen(z)
  {
    hide *;
    Split5(b, i, d, t, PutBytes(x), PutBytes(y), PutBytes(z));
    TailNumbers(b, i, d, t, PutBytes(x), PutBytes(y), PutBytes(z));
    TailTexts(b, i, d, t, x, y, z);
  }

  lemma TailNumbers(b: seq<Byte>, i: nat, d: seq<Byte>, t: seq<Byte>, x: seq<Byte>, y: seq<Byte>, z: seq<Byte>)
    requires |d| == 8 && |t| == 8 && Laid(b, i, d, t, x, y, z)
    ensures i + 16 <= |b| && b[i..i + 8] == d && b[i + 8..i + 16] == t
  {
    hide At;
    EightBytes(b, i, d);
    EightBytes(b, i + 8, t);
  }

  lemma TailTexts(b: seq<Byte>, i: nat, d: seq<Byte>, t: seq<Byte>, x: seq<Byte>, y: seq<Byte>, z: seq<Byte>)
    requires |d| == 8 && |t| == 8 && Laid(b, i, d, t, PutBytes(x), PutBytes(y), PutBytes(z))
    ensures Text(b, i + 16, x) && Text(b, i + 18 + TextLen(x), y) && Text(b, i + 20 + TextLen(x) + TextLen(y), z)
    ensures |PutBytes(x)| + |PutBytes(y)| + |PutBytes(z)| == 6 + TextLen(x) + TextLen(y) + TextLen(z)
  {
    hide At, PutBytes, Text, TextLen;
    TextAt(b, i + 16, x);
    TextAt(b, i + 16 + |PutBytes(x)|, y);
    TextAt(b, i + 16 + |PutBytes(x)| + |PutBytes(y)|, z);
  }

  lemma TailParts(e: ServerEvt)
    requires e.Subscribed?
    ensures SubscribedTailBytes(e) == Nested(e.distance, e.duration, PutBytes(e.startName), PutBytes(e.endName), PutBytes(e.metadata))
    ensures |e.distance| == 8 && |e.duration| == 8
    ensures |SubscribedTailBytes(e)| == 16 + |PutBytes(e.startName)| + |PutBytes(e.endName)| + |PutBytes(e.metadata)|
  {
    hide PutBytes;
  }

  lemma EightBytes(b: seq<Byte>, i: nat, s: seq<Byte>)
    requires At(b, i, s) && |s| == 8
    ensures i + 8 <= |b| && b[i..i + 8] == s
  {
  }

  lemma ErrorLayout(code: T.ErrorCode, message: Str, track: Option<Uid>, retry: Option<U32>)
    ensures var b := EncodeServer(Error(code, message, track, retry));
            && |b| == 24 + TextLen(message) && b[0] == 0x88
            && b[1] == (if code.Auth? then 1 else if code.TrackNotFound? then 2 else if code.Fenced? then 3
                        else if code.TryAgain? then 4 else if code.Invalid? then 5 else 6)
            && Num(b, 2, 4, if retry.Some? then retry.value else 0)
            && UidField(b, 6, if track.Some? then track.value else NoUid) && Text(b, 22, message)
  {
    var b := EncodeServer(Error(code, message, track, retry));
    var n, u, s := PutU32(retry.GetOr(0)), UidBytes(track.GetOr(NoUid)), PutBytes(message);
    hide Num, PutU32, UidBytes, PutBytes, Text, TextLen, UidField, At;
    Whole(b);
    AtSplit(b, 0, [S_ERROR], [T.ErrorCodeByte(code)] + (n + (u + s)));
    AtSplit(b, 1, [T.ErrorCodeByte(code)], n + (u + s));
    AtSplit(b, 2, n, u + s);
    AtSplit(b, 6, u, s);
    NumsAt(b, 2, 0, retry.GetOr(0));
    UidAt(b, 6, track.GetOr(NoUid));
    TextAt(b, 22, message);
  }

  lemma EventAddedLayout(device: Uid, track: Uid, payload: seq<Byte>, time: Option<I64>, sub: Byte)
    ensures var b := EncodeServer(EventAdded(device, track, payload, time, sub));
            && |b| == 12 + TextLen(payload) && b[0] == 0x89 && b[1] == sub && Text(b, 2, payload)
            && TimeField(b, 4 + TextLen(payload), time)
  {
    var b := EncodeServer(EventAdded(device, track, payload, time, sub));
    Whole(b);
    hide PutBytes, PutI64, Text, TimeField, TextLen, At;
    AtSplit(b, 0, [S_EVENT_ADDED], [sub] + (PutBytes(payload) + ZeroTimeBytes(time)));
    AtSplit(b, 1, [sub], PutBytes(payload) + ZeroTimeBytes(time));
    AtSplit(b, 2, PutBytes(payload), ZeroTimeBytes(time));
    TextAt(b, 2, payload);
    TimeAt(b, 2 + |PutBytes(payload)|, time);
  }

  lemma CommandLayout(id: Uid, payload: seq<Byte>, time: Option<I64>)
    ensures var b := EncodeServer(Command(id, payload, time));
            && |b| == 27 + TextLen(payload) && b[0] == 0x8A && UidField(b, 1, id) && Text(b, 17, payload)
            && TimeField(b, 19 + TextLen(payload), time)
  {
    var b := EncodeServer(Command(id, payload, time));
    Whole(b);
    hide UidBytes, PutBytes, PutI64, Text, TimeField, TextLen, UidField, At;
    AtSplit(b, 0, [S_COMMAND], UidBytes(id) + (PutBytes(payload) + ZeroTimeBytes(time)));
    AtSplit(b, 1, UidBytes(id), PutBytes(payload) + ZeroTimeBytes(time));
    AtSplit(b, 17, PutBytes(payload), ZeroTimeBytes(time));
    UidAt(b, 1, id);
    TextAt(b, 17, payload);
    TimeAt(b, 17 + |PutBytes(payload)|, time);
  }

  lemma PresenceLayout(device: Uid, online: bool, seen: Option<I64>, sub: Byte)
    ensures var b := EncodeServer(DevicePresence(device, online, seen, sub));
            |b| == 11 && b[0] == 0x8B && b[1] == sub && b[2] == (if online then 1 else 0) && TimeField(b, 3, seen)
  {
    var b := EncodeServer(DevicePresence(device, online, seen, sub));
    Whole(b);
    hide PutI64, TimeField, At;
    AtSplit(b, 0, [S_PRESENCE], [sub] + ([BoolByte(online)] + ZeroTimeBytes(seen)));
    AtSplit(b, 1, [sub], [BoolByte(online)] + ZeroTimeBytes(seen));
    AtSplit(b, 2, [BoolByte(online)], ZeroTimeBytes(seen));
    TimeAt(b, 3, seen);
  }

  // ---- What the decoders make of any bytes ----

  /** The first byte of a client frame decides: commands are 1 to 8, other types up to 0x7E are unknown
      and said so, the rest is refused. */
  lemma ClientTypes(b: seq<Byte>)
    ensures b == [] ==> DecodeClient(b) == Err(Truncated)
    ensures b != [] && (b[0] == 0 || b[0] >= 0x7F) ==> DecodeClient(b) == Err(Invalid)
    ensures b != [] && 0x09 <= b[0] <= 0x7E ==> DecodeClient(b) == Ok(Unknown(b[0]))
    ensures DecodeClient(b).Ok? && b[0] <= 0x08 ==> DecodeClient(b).value.Cmd?
    ensures DecodeClient(b).Ok? && DecodeClient(b).value.Cmd? ==>
              var c := DecodeClient(b).value.cmd;
              b[0] == if c.Resume? then 0x01 else if c.TrackStart? then 0x02 else if c.TrackStop? then 0x03
                      else if c.LocationAdd? || c.LocationBatch? then 0x04 else if c.Subscribe? then 0x05
                      else if c.Unsubscribe? then 0x06 else if c.Event? then 0x07 else 0x08
  {
    hide OptPointAt, RouteAt, BytesAt, StrAt, UuidAt, U16At, U32At, I64At, LocAt, LocCmd;
    if b != [] {
      assert U8At(b, 0) == Got(b[0], 1);
      if 0x01 <= b[0] <= 0x08 && ClientBodyAt(b, 1, b[0]).Got? {
        BodyKinds(b, 1, b[0]);
      }
      hide ClientBodyAt;
    }
  }

  lemma BodyKinds(b: seq<Byte>, i: nat, t: Byte)
    requires i <= |b| && 0x01 <= t <= 0x08 && ClientBodyAt(b, i, t).Got?
    ensures var c := ClientBodyAt(b, i, t).value;
            t == if c.Resume? then 0x01 else if c.TrackStart? then 0x02 else if c.TrackStop? then 0x03
                 else if c.LocationAdd? || c.LocationBatch? then 0x04 else if c.Subscribe? then 0x05
                 else if c.Unsubscribe? then 0x06 else if c.Event? then 0x07 else 0x08
  {
    hide OptPointAt, RouteAt, BytesAt, StrAt, UuidAt, U8At, U16At, U32At, I64At, LocAt, Has, ZeroTime, T.AckStatusFrom, Degrees, DegreesAll;
  }

  /** The same for the server: events are 0x80 to 0x8B, 0x8C, 0xFF and everything below are refused,
      and a type of a later version is passed over. */
  lemma ServerTypes(b: seq<Byte>)
    ensures b == [] ==> DecodeServer(b) == Err(Truncated)
    ensures b != [] && (b[0] < 0x80 || b[0] == 0x8C || b[0] == 0xFF) ==> DecodeServer(b) == Err(Invalid)
    ensures b != [] && 0x8D <= b[0] <= 0xFE ==> DecodeServer(b) == Ok(None)
    ensures DecodeServer(b).Ok? && b[0] <= 0x8B ==> DecodeServer(b).value.Some?
    ensures DecodeServer(b).Ok? && DecodeServer(b).value.Some? ==>
              var e := DecodeServer(b).value.value;
              b[0] == if e.Hello? then 0x80 else if e.Relocate? then 0x81 else if e.ResumeOk? then 0x82 else if e.TrackStarted? then 0x83
                      else if e.TrackStopped? then 0x84 else if e.Ack? then 0x85 else if e.LocationAdded? then 0x86
                      else if e.Subscribed? then 0x87 else if e.Error? then 0x88 else if e.EventAdded? then 0x89
                      else if e.Command? then 0x8A else 0x8B
  {
    if b != [] {
      assert U8At(b, 0) == Got(b[0], 1);
      if 0x80 <= b[0] <= 0x8B && ServerBodyAt(b, 1, b[0]).Got? {
        EventKinds(b, 1, b[0]);
      }
      hide ServerBodyAt;
    }
  }

  lemma EventKinds(b: seq<Byte>, i: nat, t: Byte)
    requires i <= |b| && 0x80 <= t <= 0x8B && ServerBodyAt(b, i, t).Got?
    ensures var e := ServerBodyAt(b, i, t).value;
            t == if e.Hello? then 0x80 else if e.Relocate? then 0x81 else if e.ResumeOk? then 0x82 else if e.TrackStarted? then 0x83
                 else if e.TrackStopped? then 0x84 else if e.Ack? then 0x85 else if e.LocationAdded? then 0x86
                 else if e.Subscribed? then 0x87 else if e.Error? then 0x88 else if e.EventAdded? then 0x89
                 else if e.Command? then 0x8A else 0x8B
  {
    hide FixAt, BytesAt, StrAt, UuidAt, UuidOptAt, U8At, U16At, U32At, I64At, SubscribedHeadAt, SubscribedPartsAt, SubscribedTailAt,
      ZeroTime, T.ErrorCodeFrom, Degrees;
  }

  /** The event of a frame that decodes to one. */
  function EventOf(b: seq<Byte>): ServerEvt {
    if DecodeServer(b).Ok? && DecodeServer(b).value.Some? then DecodeServer(b).value.value else Hello(0, NoUid, 65_536)
  }

  function CommandOf(b: seq<Byte>): ClientCmd {
    if DecodeClient(b).Ok? && DecodeClient(b).value.Cmd? then DecodeClient(b).value.cmd else TrackStop(Uid(NIL))
  }

  /** Whatever the bytes of these messages are, they say this, and what follows them is not read. */
  lemma AnyServerBytes(b: seq<Byte>)
    ensures |b| >= 20 && b[0] == 0x80 ==>
              && EventOf(b).Hello? && EventOf(b).version == b[1] && EventOf(b).nodeId == Uid(b[4..20]) && EventOf(b).shard == Positional(b[2..4])
    ensures |b| >= 21 && b[0] == 0x82 ==>
              EventOf(b).ResumeOk? && EventOf(b).trackUid == Uid(b[1..17]) && EventOf(b).lastAckedSeq == Positional(b[17..21])
    ensures |b| >= 17 && b[0] == 0x84 ==> EventOf(b) == TrackStopped(Uid(b[1..17]))
    ensures |b| >= 5 && b[0] == 0x85 ==> EventOf(b).Ack? && EventOf(b).num == Positional(b[1..5])
    ensures |b| >= 2 && b[0] == 0x88 && (b[1] == 0 || b[1] > 6) ==> DecodeServer(b) == Err(Invalid)
  {
    if |b| >= 20 {
      TwoBytes(b[2..4]);
    }
    if |b| >= 21 {
      FourBytes(b[17..21]);
    }
    if |b| >= 5 {
      FourBytes(b[1..5]);
    }
    hide GetU16, GetU32, Positional;
  }

  lemma AnyClientBytes(b: seq<Byte>)
    ensures |b| >= 21 && b[0] == 0x01 ==>
              CommandOf(b).Resume? && CommandOf(b).trackUid == Uid(b[1..17]) && CommandOf(b).lastClientSeq == Positional(b[17..21])
    ensures b != [] && b[0] == 0x03 ==> CommandOf(b) == TrackStop(NoUid)
    ensures |b| >= 20 && b[0] == 0x05 ==>
              && CommandOf(b).Subscribe? && CommandOf(b).deviceUid == Uid(b[1..17]) && CommandOf(b).includeEvents == (b[17] % 2 == 1)
              && CommandOf(b).minIntervalMs == Positional(b[18..20])
    ensures |b| >= 2 && b[0] == 0x06 ==> DecodeClient(b) == Ok(Cmd(Unsubscribe(b[1])))
    ensures |b| >= 6 && b[0] == 0x04 && (b[5] == 0 || b[5] > 100) ==> DecodeClient(b) == Err(Invalid)
  {
    if |b| >= 20 {
      TwoBytes(b[18..20]);
    }
    if |b| >= 21 {
      FourBytes(b[17..21]);
    }
    hide GetU16, GetU32, Positional;
  }

  /** A field of bytes: its length is the first two; over 4096 it is refused, and what it announces must
      be there. */
  lemma AnyText(b: seq<Byte>, i: nat)
    requires i <= |b|
    ensures i + 2 > |b| ==> BytesAt(b, i) == Fail(Truncated)
    ensures i + 2 <= |b| ==>
              var n := Positional(b[i..i + 2]);
              0 <= n && BytesAt(b, i) == if n > 4096 then Fail(Invalid) else if i + 2 + n > |b| then Fail(Truncated)
                                         else Got(b[i + 2..i + 2 + n], i + 2 + n)
  {
    if i + 2 <= |b| {
      TwoBytes(b[i..i + 2]);
    }
    hide GetU16, Positional;
  }

  /** The flags of a point: altitude is worth 1, accuracy 2, time 16; other bits change nothing. */
  lemma OtherBitsIgnored(b: seq<Byte>, i: nat, prev: Option<Place>)
    requires i < |b|
    ensures var known := b[i] % 4 + b[i] / 16 % 2 * 16;
            0 <= known < 256 && FixAt(b, i, prev) == FixAt(b[i := known], i, prev)
  {
    var known: Byte := b[i] % 4 + b[i] / 16 % 2 * 16;
    var c := b[i := known];
    hide Has, PlaceAt, ExtrasAt;
    SameBits(b[i], known);
    assert U8At(b, i) == Got(b[i], i + 1) && U8At(c, i) == Got(known, i + 1);
    PlaceSame(b, c, i, prev);
    var p := PlaceAt(b, i + 1, prev);
    if p.Got? {
      ExtrasSame(b, c, i, p.next, b[i], known);
    }
    hide Has, U8At, PlaceAt, ExtrasAt;
  }

  lemma SameBits(x: Byte, known: Byte)
    requires known == x % 4 + x / 16 % 2 * 16
    ensures Has(known, PF_ALT) == Has(x, PF_ALT) && Has(known, PF_ACC) == Has(x, PF_ACC) && Has(known, PF_TIME) == Has(x, PF_TIME)
  {
    assert known / 1 % 2 == x / 1 % 2;
    assert known / 2 % 2 == x / 2 % 2;
    HighBit(x % 4, x / 16 % 2);
  }

  lemma HighBit(low: int, bit: int)
    requires 0 <= low < 4 && 0 <= bit <= 1
    ensures (low + bit * 16) / 16 % 2 == bit
  {
  }

  lemma NeedSame(b: seq<Byte>, c: seq<Byte>, i: nat, j: nat, n: nat)
    requires i < j <= |b| && i < |c| && c == b[i := c[i]]
    ensures Need(b, j, n) == Need(c, j, n)
  {
    if j + n <= |b| {
      assert b[j..j + n] == c[j..j + n];
    }
  }

  lemma PlaceSame(b: seq<Byte>, c: seq<Byte>, i: nat, prev: Option<Place>)
    requires i < |b| && i < |c| && c == b[i := c[i]]
    ensures PlaceAt(b, i + 1, prev) == PlaceAt(c, i + 1, prev)
    ensures PlaceAt(b, i + 1, prev).Got? ==> PlaceAt(b, i + 1, prev).next > i
  {
    hide Need, GetI16, GetI32, SaturatingAdd;
    NeedSame(b, c, i, i + 1, 2);
    NeedSame(b, c, i, i + 1, 4);
    if i + 3 <= |b| {
      NeedSame(b, c, i, i + 3, 2);
    }
    if i + 5 <= |b| {
      NeedSame(b, c, i, i + 5, 4);
    }
  }

  lemma ExtrasSame(b: seq<Byte>, c: seq<Byte>, i: nat, j: nat, x: Byte, y: Byte)
    requires i < j <= |b| && i < |c| && c == b[i := c[i]]
    requires Has(x, PF_ALT) == Has(y, PF_ALT) && Has(x, PF_ACC) == Has(y, PF_ACC) && Has(x, PF_TIME) == Has(y, PF_TIME)
    ensures ExtrasAt(b, j, x) == ExtrasAt(c, j, y)
  {
    hide Need, GetI32, GetU16, GetI64, Has;
    NeedSame(b, c, i, j, 4);
    var k := OptI32At(b, j, Has(x, PF_ALT));
    if k.Got? {
      NeedSame(b, c, i, k.next, 2);
      var l := OptU16At(b, k.next, Has(x, PF_ACC));
      if l.Got? {
        NeedSame(b, c, i, l.next, 8);
      }
    }
  }

  /** Times of zero are none, a status over 3 is unspecified, and any other byte than 0 is online. */
  lemma AnyPresence(b: seq<Byte>)
    requires |b| >= 11 && b[0] == 0x8B
    ensures DecodeServer(b) == Ok(Some(DevicePresence(NoUid, b[2] != 0, ZeroTime(GetI64(b[3..11])), b[1])))
    ensures ZeroTime(GetI64(b[3..11])) == None <==> Positional(b[3..11]) == 0
  {
    LittleEndian(b[1..3], b[1..5], b[3..11]);
    hide GetI64, Positional;
  }

  lemma AnyStatus(b: seq<Byte>)
    requires |b| > 17 && b[0] == 0x08
    ensures DecodeClient(b).Ok? ==>
              DecodeClient(b).value.cmd.status ==
              if b[17] == 1 then T.Okay else if b[17] == 2 then T.Rejected else if b[17] == 3 then T.Failed else T.Unspecified
  {
    hide StrAt;
  }

  /** An odd flag byte announces the place of a start. */
  lemma AnyTrackStart(b: seq<Byte>)
    requires |b| >= 2 && b[0] == 0x02 && DecodeClient(b).Ok?
    ensures CommandOf(b).TrackStart? && (CommandOf(b).location.Some? <==> b[1] % 2 == 1)
  {
    hide FixAt, RouteAt, BytesAt, Degrees;
  }

  /** What the head of Subscribed says: any byte but 0 is online, a nil track is none, and the bits worth
      1, 2 and 4 announce place, time and route. */
  lemma AnySubscribed(b: seq<Byte>)
    requires b != [] && b[0] == 0x87 && DecodeServer(b).Ok?
    ensures |b| >= 36 && EventOf(b).Subscribed?
    ensures var e := EventOf(b);
            && e.sub == b[1] && e.deviceUid == Uid(b[2..18])
            && (e.trackUid == if b[18..34] == NIL then NoUid else Uid(b[18..34]))
            && e.online == (b[34] != 0)
            && (e.lastLocation.Some? <==> b[35] % 2 == 1) && (e.lastSeenMs.Some? <==> b[35] / 2 % 2 == 1)
            && (b[35] / 4 % 2 == 0 ==> e.route == [])
  {
    var h := SubscribedHeadAt(b, 1);
    assert ServerAt(b, 0).Got? && SubscribedAt(b, 1).Got?;
    AnyHead(b);
    AnyParts(b, h.next, h.value.flags);
    hide SubscribedHeadAt, SubscribedPartsAt, SubscribedTailAt, Has;
  }

  lemma AnyHead(b: seq<Byte>)
    requires b != [] && SubscribedHeadAt(b, 1).Got?
    ensures |b| >= 36
    ensures SubscribedHeadAt(b, 1).value
            == SubscribedHead(b[1], Uid(b[2..18]), if b[18..34] == NIL then NoUid else Uid(b[18..34]), b[34] != 0, b[35])
  {
  }

  lemma AnyParts(b: seq<Byte>, i: nat, flags: Byte)
    requires i <= |b| && SubscribedPartsAt(b, i, flags).Got?
    ensures var p := SubscribedPartsAt(b, i, flags).value;
            && (p.location.Some? <==> flags % 2 == 1) && (p.seen.Some? <==> flags / 2 % 2 == 1)
            && (flags / 4 % 2 == 0 ==> p.route == [])
  {
    hide FixAt, RouteAt, I64At, Degrees;
  }

  lemma AnyErrorCode(b: seq<Byte>)
    requires |b| >= 2 && b[0] == 0x88
    ensures DecodeServer(b).Ok? ==>
              var e := DecodeServer(b).value.value;
              && b[1] == (if e.code.Auth? then 1 else if e.code.TrackNotFound? then 2 else if e.code.Fenced? then 3
                          else if e.code.TryAgain? then 4 else if e.code.Invalid? then 5 else 6)
              && (e.retryAfter == None <==> |b| >= 6 && Positional(b[2..6]) == 0)
  {
    if |b| >= 6 {
      FourBytes(b[2..6]);
    }
    hide StrAt, UuidOptAt, GetU32, Positional;
  }
}
