/** GPS samples and their fixed-point wire form (src/tracking/types.rs, src/tracking/codec.rs).
    Degrees, metres and hundredths are reals: IEEE rounding is not part of this model. */
module Points {
  import opened Wrappers
  import opened Bytes

  datatype LatLng = LatLng(
    latitude: real, longitude: real,
    altitude: Option<real>, accuracy: Option<real>,
    heading: Option<real>, speed: Option<real>,
    timestampMs: Option<I64>)

  /** What one point says on the wire: microdegrees, millimetres, centimetres, milliseconds. */
  datatype Fix = Fix(lat: I32, lon: I32, alt: Option<I32>, acc: Option<U16>, time: Option<I64>)

  const LAT_MAX := 90_000_000
  const LON_MAX := 180_000_000

  /** f64::round: halves go away from zero. */
  function Round(x: real): int {
    if x >= 0.0 then (x + 0.5).Floor else -(0.5 - x).Floor
  }

  /** `as i32` saturates. */
  function ToI32(x: real): I32 {
    Clamp(Round(x), -0x8000_0000, 0x7FFF_FFFF)
  }

  function DegToMicro(d: real): I32 {
    ToI32(d * 1_000_000.0)
  }

  function MicroToDeg(m: I32): real {
    m as real / 1_000_000.0
  }

  function Quantise(p: LatLng): Fix {
    Fix(DegToMicro(p.latitude),
        DegToMicro(p.longitude),
        if p.altitude.Some? then Some(ToI32(p.altitude.value * 1000.0)) else None,
        if p.accuracy.Some? then Some(Clamp(Round(p.accuracy.value * 100.0), 0, 0xFFFF)) else None,
        p.timestampMs)
  }

  /** The sample a decoder rebuilds. Heading and speed never travel. */
  function Degrees(f: Fix): LatLng {
    LatLng(MicroToDeg(f.lat), MicroToDeg(f.lon),
           if f.alt.Some? then Some(f.alt.value as real / 1000.0) else None,
           if f.acc.Some? then Some(f.acc.value as real / 100.0) else None,
           None, None, f.time)
  }

  predicate CoordOk(lat: int, lon: int) {
    -LAT_MAX <= lat <= LAT_MAX && -LON_MAX <= lon <= LON_MAX
  }

  predicate InRange(p: LatLng) {
    CoordOk(DegToMicro(p.latitude), DegToMicro(p.longitude))
  }

  /** The sample the other side sees. */
  function NormPoint(p: LatLng): LatLng {
    Degrees(Quantise(p))
  }

  function Position(p: LatLng): LatLng {
    LatLng(MicroToDeg(DegToMicro(p.latitude)), MicroToDeg(DegToMicro(p.longitude)), None, None, None, None, None)
  }

  function QuantiseAll(ps: seq<LatLng>): (fs: seq<Fix>)
    ensures |fs| == |ps|
  {
    seq(|ps|, i requires 0 <= i < |ps| => Quantise(ps[i]))
  }

  function DegreesAll(fs: seq<Fix>): (ps: seq<LatLng>)
    ensures |ps| == |fs|
  {
    seq(|fs|, i requires 0 <= i < |fs| => Degrees(fs[i]))
  }

  lemma RoundInt(n: int)
    ensures Round(n as real) == n
  {
  }

  /** Quantising undoes scaling exactly, so a decoded sample re-encodes to the same wire values. */
  lemma QuantiseDegrees(f: Fix)
    ensures Quantise(Degrees(f)) == f
  {
    RoundInt(f.lat);
    RoundInt(f.lon);
    assert MicroToDeg(f.lat) * 1_000_000.0 == f.lat as real;
    assert MicroToDeg(f.lon) * 1_000_000.0 == f.lon as real;
    if f.alt.Some? {
      RoundInt(f.alt.value);
      assert f.alt.value as real / 1000.0 * 1000.0 == f.alt.value as real;
    }
    if f.acc.Some? {
      RoundInt(f.acc.value);
      assert f.acc.value as real / 100.0 * 100.0 == f.acc.value as real;
    }
  }

  lemma QuantiseDegreesAll(fs: seq<Fix>)
    ensures QuantiseAll(DegreesAll(fs)) == fs
  {
    forall i | 0 <= i < |fs| ensures QuantiseAll(DegreesAll(fs))[i] == fs[i] {
      QuantiseDegrees(fs[i]);
    }
  }

  /** A coordinate that survives the wire's range check comes back within half a microdegree. */
  lemma HalfMicrodegree(d: real)
    requires -LON_MAX <= DegToMicro(d) <= LON_MAX
    ensures -0.0000005 <= MicroToDeg(DegToMicro(d)) - d <= 0.0000005
  {
    var x := d * 1_000_000.0;
    assert DegToMicro(d) == Round(x);
    assert -0.5 <= Round(x) as real - x <= 0.5;
  }

  // ---- In degrees, metres and seconds ----

  /** Rounding goes to the nearest integer. */
  lemma RoundNearest(x: real)
    ensures -0.5 <= Round(x) as real - x <= 0.5
  {
  }

  /** Up to saturation, and only in that, a coordinate is in range exactly when it rounds into it. */
  lemma MicroWithin(d: real, m: int)
    requires 0 <= m < 0x7FFF_FFFF
    ensures -m <= DegToMicro(d) <= m <==> -(m as real + 0.5) < d * 1_000_000.0 < m as real + 0.5
  {
    var x := d * 1_000_000.0;
    assert -m <= Round(x) <= m <==> -(m as real + 0.5) < x < m as real + 0.5;
  }

  /** A point is on the globe exactly when it lies less than half a microdegree beyond 90 degrees of
      latitude and 180 of longitude. */
  lemma OnGlobe(p: LatLng)
    ensures InRange(p) <==> -90.0000005 < p.latitude < 90.0000005 && -180.0000005 < p.longitude < 180.0000005
  {
    MicroWithin(p.latitude, 90_000_000);
    MicroWithin(p.longitude, 180_000_000);
    hide DegToMicro;
  }

  /** What the other side sees of a point on the globe: its coordinates within half a microdegree; an
      altitude within half a millimetre, below 2147 km; an accuracy within half a centimetre between 0
      and 655.35 metres and the nearer bound beyond; the time as it was; no heading and no speed. */
  lemma SeenAs(p: LatLng)
    requires InRange(p)
    ensures var n := NormPoint(p);
            && -0.0000005 <= n.latitude - p.latitude <= 0.0000005 && -0.0000005 <= n.longitude - p.longitude <= 0.0000005
            && n.timestampMs == p.timestampMs && n.heading.None? && n.speed.None?
            && n.altitude.Some? == p.altitude.Some? && n.accuracy.Some? == p.accuracy.Some?
            && (p.altitude.Some? && -2147_000.0 <= p.altitude.value <= 2147_000.0 ==>
                  -0.0005 <= n.altitude.value - p.altitude.value <= 0.0005)
            && (p.accuracy.Some? ==>
                  && (p.accuracy.value <= 0.0 ==> n.accuracy.value == 0.0)
                  && (p.accuracy.value >= 655.35 ==> n.accuracy.value == 655.35)
                  && (0.0 <= p.accuracy.value <= 655.35 ==> -0.005 <= n.accuracy.value - p.accuracy.value <= 0.005))
  {
    HalfMicrodegree(p.latitude);
    HalfMicrodegree(p.longitude);
    if p.altitude.Some? {
      RoundNearest(p.altitude.value * 1000.0);
    }
    if p.accuracy.Some? {
      AccuracySeen(p.accuracy.value);
    }
    hide DegToMicro, Round;
  }

  lemma AccuracySeen(a: real)
    ensures var c := Clamp(Round(a * 100.0), 0, 0xFFFF) as real / 100.0;
            && (a <= 0.0 ==> c == 0.0) && (a >= 655.35 ==> c == 655.35) && (0.0 <= a <= 655.35 ==> -0.005 <= c - a <= 0.005)
  {
    RoundNearest(a * 100.0);
  }

  /** Saturated altitudes stay at the ends of what 32 bits of millimetres hold. */
  lemma FarAltitude(p: LatLng)
    requires p.altitude.Some?
    ensures p.altitude.value >= 2147_483.647 ==> NormPoint(p).altitude == Some(2147_483.647)
    ensures p.altitude.value <= -2147_483.648 ==> NormPoint(p).altitude == Some(-2147_483.648)
  {
    RoundNearest(p.altitude.value * 1000.0);
    hide DegToMicro, Round;
  }

  /** A position of a route travels alone, within half a microdegree. */
  lemma PositionSeen(p: LatLng)
    requires InRange(p)
    ensures var n := Position(p);
            && -0.0000005 <= n.latitude - p.latitude <= 0.0000005 && -0.0000005 <= n.longitude - p.longitude <= 0.0000005
            && n.altitude.None? && n.accuracy.None? && n.heading.None? && n.speed.None? && n.timestampMs.None?
  {
    HalfMicrodegree(p.latitude);
    HalfMicrodegree(p.longitude);
    hide DegToMicro;
  }
}
