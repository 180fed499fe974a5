/** The writing side of src/tracking/codec.rs:142-335, in its own form: a buffer that grows in
    place, the loop that writes a chain of points, and the nested loops of the splitter. Each
    method is proved against the function of Loc, Reading or Bytes that says what it means. */
module LocWriter {
  import opened Wrappers
  import opened Bytes
  import opened Points
  import opened Reading
  import opened Loc

  datatype EncodeError = DeltaOverflow

  /** The `Vec<u8>` an encoder appends to. */
  class Writer {
    var bytes: seq<Byte>

    constructor ()
      ensures bytes == []
    {
      bytes := [];
    }

    method U8(v: Byte)
      modifies this
      ensures bytes == old(bytes) + [v]
    {
      bytes := bytes + [v];
    }

    method Raw(s: seq<Byte>)
      modifies this
      ensures bytes == old(bytes) + s
    {
      bytes := bytes + s;
    }

    /** put_str and put_bytes: a u16 length and at most 4096 bytes. */
    method LenBytes(s: seq<Byte>)
      modifies this
      ensures bytes == old(bytes) + PutBytes(s)
    {
      var n := if |s| < MAX_STRING then |s| else MAX_STRING;
      Raw(PutU16(n));
      Raw(s[..n]);
      assert s[..n] == Cut(s);
    }

    /** On success the point is written whole; a delta that does not fit leaves its flag byte behind. */
    method Point(p: LatLng, prev: Option<Place>) returns (r: Result<Place, EncodeError>)
      modifies this
      ensures var f := Quantise(p);
              if Loc.Follows(prev, f) then r == Ok(PlaceOf(f)) && bytes == old(bytes) + PointBytes(f, prev)
              else r == Err(DeltaOverflow) && bytes == old(bytes) + [Flags(f)]
    {
      ghost var f := Quantise(p);
      var here := Place(DegToMicro(p.latitude), DegToMicro(p.longitude));
      var flags := FlagsOf(p);
      PointIs(p, prev);
      hide *;
      U8(flags);
      var fits := Coordinates(here, prev);
      if !fits {
        return Err(DeltaOverflow);
      }
      Tail(p);
      Append3(old(bytes), [flags], PlaceBytes(here, prev), Extras(f.alt, f.acc, f.time));
      r := Ok(here);
    }

    static lemma PointIs(p: LatLng, prev: Option<Place>)
      ensures var f := Quantise(p);
              && Place(DegToMicro(p.latitude), DegToMicro(p.longitude)) == PlaceOf(f)
              && (Loc.Follows(prev, f) <==> (prev.Some? ==> DeltaFits(prev.value, PlaceOf(f))))
              && (Loc.Follows(prev, f) ==> PointBytes(f, prev) == [Flags(f)] + (PlaceBytes(PlaceOf(f), prev) + Extras(f.alt, f.acc, f.time)))
    {
      hide Flags, PlaceBytes, Extras, DegToMicro, ToI32;
    }

    static lemma Append3(a: seq<Byte>, b: seq<Byte>, c: seq<Byte>, d: seq<Byte>)
      ensures a + b + c + d == a + (b + (c + d))
    {
    }

    static method FlagsOf(p: LatLng) returns (flags: Byte)
      ensures flags == Flags(Quantise(p))
    {
      var bits: nat := 0;
      if p.altitude.Some? {
        bits := bits + PF_ALT;
      }
      if p.accuracy.Some? {
        bits := bits + PF_ACC;
      }
      if p.timestampMs.Some? {
        bits := bits + PF_TIME;
      }
      flags := bits;
    }

    /** Absolute for the first point, else the difference, unless that overflows. */
    method Coordinates(here: Place, prev: Option<Place>) returns (fits: bool)
      modifies this
      ensures fits == (prev.Some? ==> DeltaFits(prev.value, here))
      ensures bytes == if fits then old(bytes) + PlaceBytes(here, prev) else old(bytes)
    {
      hide PutI16, PutI32;
      match prev {
        case Some(q) =>
          if !DeltaFits(q, here) {
            return false;
          }
          Raw(PutI16(here.lat - q.lat));
          Raw(PutI16(here.lon - q.lon));
        case None =>
          Raw(PutI32(here.lat));
          Raw(PutI32(here.lon));
      }
      fits := true;
    }

    /** What follows the coordinates. */
    method Tail(p: LatLng)
      modifies this
      ensures var f := Quantise(p); bytes == old(bytes) + Extras(f.alt, f.acc, f.time)
    {
      hide PutI32, PutU16, PutI64;
      if p.altitude.Some? {
        Raw(PutI32(ToI32(p.altitude.value * 1000.0)));
      }
      if p.accuracy.Some? {
        Raw(PutU16(Clamp(Round(p.accuracy.value * 100.0), 0, 0xFFFF)));
      }
      if p.timestampMs.Some? {
        Raw(PutI64(p.timestampMs.value));
      }
    }
  }

  /** encode_loc_frame. The chunk was already checked, so no point is refused. */
  method EncodeLocFrame(num: nat, points: seq<LatLng>) returns (frame: seq<Byte>)
    requires 1 <= |points| <= MAX_LOC_POINTS && Linked(QuantiseAll(points), None)
    ensures frame == LocBytes(num % TWO32, QuantiseAll(points))
  {
    ghost var fs := QuantiseAll(points);
    var w := new Writer();
    w.U8(C_LOC);
    w.Raw(PutU32(num % TWO32));
    w.U8(|points|);
    LocBytesShape(num % TWO32, fs);
    assert w.bytes == [C_LOC] + (PutU32(num % TWO32) + [|fs|]);
    hide PutU32, PointBytes, Quantise, LocBytes;
    WriteChain(w, points);
    frame := w.bytes;
  }

  method WriteChain(w: Writer, points: seq<LatLng>)
    requires Linked(QuantiseAll(points), None)
    modifies w
    ensures w.bytes == old(w.bytes) + PointsBytes(QuantiseAll(points), None)
  {
    ghost var fs := QuantiseAll(points);
    hide PointBytes, Quantise, Loc.Follows;
    var prev: Option<Place> := None;
    assert fs[0..] == fs;
    for i := 0 to |points|
      invariant Linked(fs[i..], prev)
      invariant w.bytes + PointsBytes(fs[i..], prev) == old(w.bytes) + PointsBytes(fs, None)
    {
      assert fs[i..][0] == fs[i] == Quantise(points[i]) && fs[i..][1..] == fs[i + 1..];
      var r := w.Point(points[i], prev);
      prev := Some(r.value);
    }
  }

  /** encode_loc_frames: the outer loop starts a frame, the inner loop extends it. */
  method EncodeLocFrames(last: nat, points: seq<LatLng>) returns (out: seq<seq<Byte>>)
    requires points != [] ==> Numbered(last, |points|)
    ensures out == LocFrames(last, QuantiseAll(points))
  {
    ghost var fs := QuantiseAll(points);
    if points == [] {
      return [];
    }
    var first := last + 1 - |points|;
    out := [];
    var i := 0;
    assert LocFrames(last, fs) == Remaining(first, fs, 0);
    hide LocFrames, Remaining, LocBytes, Chunk, ChunkEnd;
    while i < |points|
      invariant i <= |points|
      invariant out + Remaining(first, fs, i) == LocFrames(last, fs)
    {
      var start := i;
      i := ExtendChunk(points, start);
      var frame := EncodeChunk(first, points, start, i);
      NextFrame(first, fs, start, i, frame);
      Append(out, frame, Remaining(first, fs, i));
      out := out + [frame];
    }
    NoFrames(first, fs);
  }

  /** The frames still to come when the outer loop stands at `s`. */
  ghost function Remaining(first: nat, fs: seq<Fix>, s: nat): seq<seq<Byte>>
    requires s <= |fs|
  {
    PiecesPartition(first, fs, s);
    Frames(Pieces(first, fs, s), first + s)
  }

  lemma Append(out: seq<seq<Byte>>, frame: seq<Byte>, rest: seq<seq<Byte>>)
    ensures out + ([frame] + rest) == out + [frame] + rest
  {
  }

  method EncodeChunk(first: nat, points: seq<LatLng>, s: nat, e: nat) returns (frame: seq<Byte>)
    requires Chunk(QuantiseAll(points), s, e)
    ensures Linked(QuantiseAll(points)[s..e], None) && frame == LocBytes((first + e - 1) % TWO32, QuantiseAll(points)[s..e])
  {
    ghost var fs := QuantiseAll(points);
    ChunkLinked(fs, s, e, None);
    assert QuantiseAll(points[s..e]) == fs[s..e];
    hide LocBytes, Quantise, DeltaFits;
    frame := EncodeLocFrame(first + e - 1, points[s..e]);
  }

  lemma NoFrames(first: nat, fs: seq<Fix>)
    ensures Remaining(first, fs, |fs|) == []
  {
  }

  lemma NextFrame(first: nat, fs: seq<Fix>, s: nat, e: nat, frame: seq<Byte>)
    requires s < |fs| && e == ChunkEnd(fs, s, s + 1)
    requires Linked(fs[s..e], None) && frame == LocBytes((first + e - 1) % TWO32, fs[s..e])
    ensures Remaining(first, fs, s) == [frame] + Remaining(first, fs, e)
  {
    assert e <= |fs|;
    hide LocBytes, Linked, Chunk, ChunkEnd, Joined;
    PiecesPartition(first, fs, s);
    PiecesPartition(first, fs, e);
    var p, rest := Piece(first + e - 1, fs[s..e]), Pieces(first, fs, e);
    assert Pieces(first, fs, s) == [p] + rest;
    hide Pieces;
    HeadFrame(p, rest, first + s);
  }

  lemma HeadFrame(p: Piece, rest: seq<Piece>, next: nat)
    requires Chained([p] + rest, next) && PieceOk(p) && Chained(rest, p.num + 1)
    ensures Frames([p] + rest, next) == [PieceBytes(p)] + Frames(rest, p.num + 1)
  {
    hide PieceBytes, PieceOk;
    assert ([p] + rest)[1..] == rest;
  }

  /** The inner loop. */
  method ExtendChunk(points: seq<LatLng>, start: nat) returns (i: nat)
    requires start < |points|
    ensures i == ChunkEnd(QuantiseAll(points), start, start + 1) && start < i <= |points|
  {
    ghost var fs := QuantiseAll(points);
    var prev := Place(DegToMicro(points[start].latitude), DegToMicro(points[start].longitude));
    i := start + 1;
    hide DegToMicro, ToI32;
    while i < |points| && i - start < MAX_LOC_POINTS
      invariant Chunk(fs, start, i)
      invariant prev == PlaceOf(fs[i - 1])
      invariant ChunkEnd(fs, start, i) == ChunkEnd(fs, start, start + 1)
    {
      var here := Place(DegToMicro(points[i].latitude), DegToMicro(points[i].longitude));
      if !DeltaFits(prev, here) {
        break;
      }
      prev := here;
      i := i + 1;
    }
  }
}
