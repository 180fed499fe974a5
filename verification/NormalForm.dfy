/** The normal form is one: applying it twice changes nothing, and it leaves a message alone exactly
    when the message says only what the wire can say. */
module NormalForm {
  import opened Wrappers
  import opened Bytes
  import opened Points
  import opened Utf8
  import opened Reading
  import opened Loc
  import opened Messages
  import opened RoundTrip
  import T = Types

  // ---- Points ----

  /** A sample the wire can say: a multiple of each unit, without heading or speed. */
  ghost predicate OnGrid(p: LatLng) {
    exists f: Fix :: p == Degrees(f)
  }

  ghost predicate OnGridPosition(p: LatLng) {
    exists q: Place :: p == PositionOf(q)
  }

  lemma NormPointFixed(p: LatLng)
    ensures NormPoint(p) == p <==> OnGrid(p)
    ensures Quantise(NormPoint(p)) == Quantise(p) && OnGrid(NormPoint(p))
  {
    hide Quantise, Degrees;
    QuantiseDegrees(Quantise(p));
    if OnGrid(p) {
      var f :| p == Degrees(f);
      QuantiseDegrees(f);
    }
  }

  lemma PositionFixed(p: LatLng)
    ensures Position(p) == p <==> OnGridPosition(p)
    ensures OnGridPosition(Position(p)) && (InRange(Position(p)) <==> InRange(p))
  {
    PositionIs(p);
    MicroBack(DegToMicro(p.latitude));
    MicroBack(DegToMicro(p.longitude));
    if OnGridPosition(p) {
      var q :| p == PositionOf(q);
      MicroBack(q.lat);
      MicroBack(q.lon);
    }
    hide DegToMicro, MicroToDeg;
  }

  lemma PositionIs(p: LatLng)
    ensures Position(p) == PositionOf(Place(DegToMicro(p.latitude), DegToMicro(p.longitude)))
  {
    hide DegToMicro, MicroToDeg;
  }

  lemma MicroBack(m: I32)
    ensures DegToMicro(MicroToDeg(m)) == m
  {
    RoundInt(m);
    assert MicroToDeg(m) * 1_000_000.0 == m as real;
  }

  ghost predicate AllOnGrid(ps: seq<LatLng>) {
    forall i :: 0 <= i < |ps| ==> OnGrid(ps[i])
  }

  ghost predicate RouteOnGrid(ps: seq<LatLng>) {
    |ps| <= MAX_ROUTE && forall i :: 0 <= i < |ps| ==> OnGridPosition(ps[i])
  }

  ghost predicate OptOnGrid(p: Option<LatLng>) {
    p.Some? ==> OnGrid(p.value)
  }

  lemma NormPointsFixed(ps: seq<LatLng>)
    ensures NormPoints(ps) == ps <==> AllOnGrid(ps)
    ensures QuantiseAll(NormPoints(ps)) == QuantiseAll(ps) && AllOnGrid(NormPoints(ps))
  {
    hide Quantise, Degrees;
    QuantiseDegreesAll(QuantiseAll(ps));
    forall i | 0 <= i < |ps| ensures NormPoints(ps)[i] == NormPoint(ps[i]) && (NormPoint(ps[i]) == ps[i] <==> OnGrid(ps[i])) && OnGrid(NormPoints(ps)[i]) {
      NormPointFixed(ps[i]);
    }
    hide NormPoint, OnGrid;
    if AllOnGrid(ps) {
      assert forall i :: 0 <= i < |ps| ==> NormPoints(ps)[i] == ps[i];
    }
  }

  lemma NormRouteFixed(route: seq<LatLng>)
    ensures NormRoute(route) == route <==> RouteOnGrid(route)
    ensures RouteOnGrid(NormRoute(route)) && (RouteInRange(NormRoute(route)) <==> RouteInRange(route))
  {
    var cut := RouteCut(route);
    forall i | 0 <= i < |cut|
      ensures (Position(cut[i]) == cut[i] <==> OnGridPosition(cut[i])) && OnGridPosition(Positions(cut)[i])
      ensures InRange(Positions(cut)[i]) <==> InRange(cut[i])
    {
      PositionFixed(cut[i]);
    }
    hide Position, OnGridPosition, InRange;
    assert RouteCut(NormRoute(route)) == NormRoute(route);
    if RouteOnGrid(route) {
      assert cut == route;
      assert forall i :: 0 <= i < |cut| ==> NormRoute(route)[i] == route[i];
    }
    if NormRoute(route) == route {
      assert cut == route;
      assert forall i :: 0 <= i < |route| ==> Positions(cut)[i] == route[i];
    }
  }

  lemma OptPointFixed(p: Option<LatLng>)
    ensures NormOptPoint(p) == p <==> OptOnGrid(p)
    ensures OptOnGrid(NormOptPoint(p)) && (OptInRange(NormOptPoint(p)) <==> OptInRange(p))
  {
    if p.Some? {
      NormPointFixed(p.value);
      InRangeFix(p.value);
      InRangeFix(NormPoint(p.value));
      hide Quantise, Degrees, OnGrid, InRange, NormPoint;
    }
  }

  lemma CutFixed(s: seq<Byte>)
    ensures Cut(s) == s <==> |s| <= MAX_STRING
    ensures Cut(Cut(s)) == Cut(s)
  {
  }

  lemma TimeFixed(t: Option<I64>)
    ensures NormTime(t) == t <==> t != Some(0)
    ensures NormTime(t) != Some(0)
  {
  }

  // ---- Client commands ----

  /** What a command must be for the wire to say it all. */
  ghost predicate ClientCanonical(c: ClientCmd) {
    match c
    case Resume(uid, last) => uid.Uid? && last < TWO32
    case TrackStart(location, route, metadata) => OptOnGrid(location) && RouteOnGrid(route) && |metadata| <= MAX_STRING
    case TrackStop(uid) => uid.NoUid?
    case LocationAdd(uid, num, point) => uid.NoUid? && num < TWO32 && OnGrid(point)
    case LocationBatch(uid, last, points) =>
      uid.NoUid? && last < TWO32 && |points| >= 2 && AllOnGrid(points) && Chunk(QuantiseAll(points), 0, |points|)
    case Subscribe(uid, _, interval) => uid.Uid? && interval <= 0xFFFF
    case Unsubscribe(_) => true
    case Event(uid, payload, time) => uid.NoUid? && |payload| <= MAX_STRING && time != Some(0)
    case CommandAck(id, _, message) => id.Uid? && (message.Some? ==> 1 <= |message.value| <= MAX_STRING)
  }

  lemma ClientNormFixed(c: ClientCmd)
    requires ClientReadable(c)
    ensures NormClient(c) == c <==> ClientCanonical(c)
  {
    hide OptOnGrid, RouteOnGrid, OnGrid, AllOnGrid, NormOptPoint, NormRoute, NormPoint, NormPoints, NormTime, Cut, Chunk, BatchSize,
      OptInRange, RouteInRange, InRange, AllInRange;
    match c
    case TrackStart(location, route, metadata) =>
      OptPointFixed(location);
      NormRouteFixed(route);
      CutFixed(metadata);
    case LocationAdd(_, _, point) =>
      NormPointFixed(point);
    case LocationBatch(_, _, _) =>
      BatchFixed(c);
    case Event(_, payload, time) =>
      CutFixed(payload);
      TimeFixed(time);
    case CommandAck(_, _, message) =>
      CutFixed(message.GetOr([]));
    case _ =>
  }

  lemma BatchFixed(c: ClientCmd)
    requires c.LocationBatch? && ClientReadable(c)
    ensures NormClient(c) == c <==> ClientCanonical(c)
  {
    var points, n := c.points, BatchSize(c.points);
    WholeBatch(points);
    NormPointsFixed(points);
    assert points[..|points|] == points;
    hide NormPoint, NormPoints, OnGrid, AllOnGrid, Chunk, AllInRange, QuantiseAll, BatchSize;
    if n < |points| {
      assert |NormPoints(points[..n])| != |points|;
    }
  }

  /** All points fit the first frame exactly when they make one chunk. */
  lemma WholeBatch(points: seq<LatLng>)
    requires points != []
    ensures BatchSize(points) == |points| <==> Chunk(QuantiseAll(points), 0, |points|)
  {
    hide Quantise, DeltaFits;
    var fs := QuantiseAll(points);
    if Chunk(fs, 0, |points|) {
      ChunkEndReaches(fs, 0, 1, |points|);
    }
  }

  /** The normal form is readable, canonical, and its own normal form. */
  lemma ClientNormIdempotent(c: ClientCmd)
    requires ClientReadable(c)
    ensures ClientReadable(NormClient(c)) && ClientCanonical(NormClient(c)) && NormClient(NormClient(c)) == NormClient(c)
  {
    ClientNormCanonical(c);
    hide ClientReadable, NormClient, ClientCanonical;
    ClientNormFixed(NormClient(c));
  }

  lemma ClientNormCanonical(c: ClientCmd)
    requires ClientReadable(c)
    ensures ClientReadable(NormClient(c)) && ClientCanonical(NormClient(c))
  {
    hide OptOnGrid, RouteOnGrid, OnGrid, AllOnGrid, NormOptPoint, NormRoute, NormPoint, NormPoints, NormTime, Cut, Chunk, BatchSize,
      OptInRange, RouteInRange, InRange, AllInRange;
    match c
    case TrackStart(location, route, metadata) =>
      OptPointFixed(location);
      NormRouteFixed(route);
      CutFixed(metadata);
    case LocationAdd(_, _, point) =>
      NormPointInRange(point);
    case LocationBatch(_, _, _) =>
      BatchCanonical(c);
    case Event(_, payload, time) =>
      CutFixed(payload);
      TimeFixed(time);
    case CommandAck(_, _, message) =>
      CutFixed(message.GetOr([]));
    case _ =>
  }

  lemma NormPointInRange(p: LatLng)
    ensures OnGrid(NormPoint(p)) && (InRange(NormPoint(p)) <==> InRange(p))
  {
    NormPointFixed(p);
    InRangeFix(p);
    InRangeFix(NormPoint(p));
    hide NormPoint, OnGrid, InRange, Quantise;
  }

  lemma BatchCanonical(c: ClientCmd)
    requires c.LocationBatch? && ClientReadable(c)
    ensures ClientReadable(NormClient(c)) && ClientCanonical(NormClient(c))
  {
    var n := BatchSize(c.points);
    var ps := c.points[..n];
    BatchPrefix(c.points);
    NormPointsFixed(ps);
    InRangeAll(ps);
    InRangeAll(NormPoints(ps));
    NormPointInRange(c.points[0]);
    WholeBatch(NormPoints(ps));
    assert NormPoints(ps)[..n] == NormPoints(ps);
    hide NormPoint, NormPoints, OnGrid, AllOnGrid, Chunk, AllOnGlobe, QuantiseAll, BatchSize, InRange;
    assert n == 1 ==> ps[0] == c.points[0];
  }

  lemma BatchPrefix(points: seq<LatLng>)
    requires points != []
    ensures var n := BatchSize(points); Chunk(QuantiseAll(points[..n]), 0, n)
  {
    hide Quantise, DeltaFits;
    var fs, n := QuantiseAll(points), BatchSize(points);
    assert QuantiseAll(points[..n]) == fs[..n];
    assert Chunk(fs, 0, n);
    forall i | 0 < i < n ensures DeltaFits(PlaceOf(fs[..n][i - 1]), PlaceOf(fs[..n][i])) {
      assert DeltaFits(PlaceOf(fs[i - 1]), PlaceOf(fs[i]));
    }
  }

  // ---- Server events ----

  ghost predicate ServerCanonical(e: ServerEvt) {
    match e
    case Hello(_, node, shard) => node.Uid? && shard < TWO16
    case Relocate(endpoint, _) => |endpoint| <= MAX_STRING
    case ResumeOk(uid, num) => uid.Uid? && num < TWO32
    case TrackStarted(uid, metadata) => uid.Uid? && |metadata| <= MAX_STRING
    case TrackStopped(uid) => uid.Uid?
    case Ack(num) => num < TWO32
    case LocationAdded(device, track, point, num, _) => device.NoUid? && track.NoUid? && OnGrid(point) && num < TWO32
    case Subscribed(_, device, track, location, route, _, _, startName, endName, metadata, _, _) =>
      && device.Uid? && (track.NoUid? || (track.Uid? && track.bytes != NIL)) && OptOnGrid(location) && RouteOnGrid(route)
      && |startName| <= MAX_STRING && |endName| <= MAX_STRING && |metadata| <= MAX_STRING
    case Error(_, message, track, retry) =>
      |message| <= MAX_STRING && (track.Some? ==> track.value.Uid? && track.value.bytes != NIL) && retry != Some(0)
    case EventAdded(device, track, payload, time, _) => device.NoUid? && track.NoUid? && |payload| <= MAX_STRING && time != Some(0)
    case Command(id, payload, time) => id.Uid? && |payload| <= MAX_STRING && time != Some(0)
    case DevicePresence(device, _, seen, _) => device.NoUid? && seen != Some(0)
  }

  lemma ServerNormFixed(e: ServerEvt)
    requires ServerReadable(e)
    ensures NormServer(e) == e <==> ServerCanonical(e)
  {
    hide OptOnGrid, RouteOnGrid, OnGrid, NormOptPoint, NormRoute, NormPoint, NormTime, Cut, OptInRange, RouteInRange, InRange;
    match e
    case Relocate(endpoint, _) =>
      CutFixed(endpoint);
    case TrackStarted(_, metadata) =>
      CutFixed(metadata);
    case LocationAdded(_, _, point, _, _) =>
      NormPointFixed(point);
    case Subscribed(_, _, _, location, route, _, _, startName, endName, metadata, _, _) =>
      OptPointFixed(location);
      NormRouteFixed(route);
      CutFixed(startName);
      CutFixed(endName);
      CutFixed(metadata);
    case Error(_, message, _, _) =>
      CutFixed(message);
    case EventAdded(_, _, payload, time, _) =>
      CutFixed(payload);
      TimeFixed(time);
    case Command(_, payload, time) =>
      CutFixed(payload);
      TimeFixed(time);
    case DevicePresence(_, _, seen, _) =>
      TimeFixed(seen);
    case _ =>
  }

  lemma ServerNormCanonical(e: ServerEvt)
    requires ServerReadable(e)
    ensures ServerReadable(NormServer(e)) && ServerCanonical(NormServer(e))
  {
    hide OptOnGrid, RouteOnGrid, OnGrid, NormOptPoint, NormRoute, NormPoint, NormTime, Cut, OptInRange, RouteInRange, InRange;
    match e
    case Relocate(endpoint, _) =>
      CutFixed(endpoint);
    case LocationAdded(_, _, point, _, _) =>
      NormPointInRange(point);
    case Subscribed(_, _, _, location, route, _, _, startName, endName, metadata, _, _) =>
      OptPointFixed(location);
      NormRouteFixed(route);
      CutFixed(startName);
      CutFixed(endName);
      CutFixed(metadata);
    case Error(_, message, _, _) =>
      CutFixed(message);
    case EventAdded(_, _, payload, time, _) =>
      TimeFixed(time);
    case Command(_, payload, time) =>
      TimeFixed(time);
    case DevicePresence(_, _, seen, _) =>
      TimeFixed(seen);
    case _ =>
  }

  lemma ServerNormIdempotent(e: ServerEvt)
    requires ServerReadable(e)
    ensures ServerReadable(NormServer(e)) && ServerCanonical(NormServer(e)) && NormServer(NormServer(e)) == NormServer(e)
  {
    ServerNormCanonical(e);
    hide ServerReadable, NormServer, ServerCanonical;
    ServerNormFixed(NormServer(e));
  }

  /** So a canonical message comes back exactly as it was sent. */
  lemma CanonicalSurvives(c: ClientCmd, e: ServerEvt, rest: seq<Byte>)
    requires ClientReadable(c) && ServerReadable(e)
    ensures DecodeClient(EncodeClient(c) + rest) == Ok(Cmd(c)) <==> ClientCanonical(c)
    ensures DecodeServer(EncodeServer(e) + rest) == Ok(Some(e)) <==> ServerCanonical(e)
  {
    hide *;
    ClientRoundTrip(c, rest);
    ServerRoundTrip(e, rest);
    ClientNormFixed(c);
    ServerNormFixed(e);
  }

  // ---- The other direction, for Loc ----

  /** A frame that decodes to a Loc command re-encodes as exactly one frame, byte for byte what the
      decoder consumed, exactly when every point's flag byte uses only known bits. */
  lemma LocReencodes(b: seq<Byte>)
    requires b != [] && b[0] == C_LOC && LocAt(b, 1).Got?
    ensures var r := LocAt(b, 1);
            && ClientAt(b, 0) == Got(Cmd(LocCmd(r.value)), r.next)
            && (EncodeClient(LocCmd(r.value)) == b[..r.next] <==> ChainFlagsKnown(b, 6, |r.value.fixes|, None))
            && (Numbered(r.value.num, |r.value.fixes|) ==>
                  LocFrames(r.value.num, QuantiseAll(DegreesAll(r.value.fixes))) == [EncodeClient(LocCmd(r.value))])
  {
    var r := LocAt(b, 1);
    assert U8At(b, 0) == Got(C_LOC, 1) && b[0..r.next] == b[..r.next];
    hide *;
    LocClientAt(b, 0);
    LocForth(b, 0);
    QuantiseDegreesAll(r.value.fixes);
    LocCmdBytes(r.value);
    if Numbered(r.value.num, |r.value.fixes|) {
      OneFrame(r.value);
    }
  }

  lemma LocCmdBytes(body: LocBody)
    requires 1 <= |body.fixes| <= MAX_LOC_POINTS && Linked(body.fixes, None)
    ensures EncodeClient(LocCmd(body)) == LocBytes(body.num, body.fixes)
  {
    var fs := body.fixes;
    if |fs| == 1 {
      assert [fs[0]] == fs;
      hide Quantise, Degrees, LocBytes, Linked;
      QuantiseDegrees(fs[0]);
    } else {
      hide Quantise, Degrees, QuantiseAll, DegreesAll, LocBytes, Linked, BatchBytes;
      QuantiseDegreesAll(fs);
      WholeBytes(body.num, fs);
    }
  }

  lemma WholeBytes(num: U32, fs: seq<Fix>)
    requires 1 <= |fs| <= MAX_LOC_POINTS && Linked(fs, None)
    ensures BatchBytes(num, fs) == LocBytes(num, fs)
  {
    LinkedIsOneChunk(fs);
    OneBatch(num, fs);
    assert fs[0..|fs|] == fs;
    hide *;
    SameNumber(num, |fs|);
  }

  /** A batch whose first chunk is all of it. */
  lemma OneBatch(num: U32, fs: seq<Fix>)
    requires fs != [] && Chunk(fs, 0, 1) && ChunkEnd(fs, 0, 1) == |fs| && |fs| <= MAX_LOC_POINTS
    ensures Linked(fs[0..|fs|], None) && BatchBytes(num, fs) == LocBytes((num - |fs| + |fs|) % TWO32, fs[0..|fs|])
  {
    ChunkLinked(fs, 0, |fs|, None) by {
      ChunkHolds(fs);
    }
    hide LocBytes, Linked, ChunkEnd, Chunk, DeltaFits;
  }

  lemma ChunkHolds(fs: seq<Fix>)
    requires fs != [] && Chunk(fs, 0, 1) && ChunkEnd(fs, 0, 1) == |fs|
    ensures forall i :: 0 < i < |fs| ==> DeltaFits(PlaceOf(fs[i - 1]), PlaceOf(fs[i]))
  {
    hide ChunkEnd, DeltaFits;
  }

  lemma SameNumber(num: U32, n: nat)
    ensures (num - n + n) % TWO32 == num
  {
  }

  lemma LinkedIsOneChunk(fs: seq<Fix>)
    requires 1 <= |fs| <= MAX_LOC_POINTS && Linked(fs, None)
    ensures Chunk(fs, 0, |fs|) && ChunkEnd(fs, 0, 1) == |fs|
  {
    LinkedIsChunk(fs, None);
    hide DeltaFits, Linked;
    ChunkEndReaches(fs, 0, 1, |fs|);
  }

  lemma OneFrame(body: LocBody)
    requires 1 <= |body.fixes| <= MAX_LOC_POINTS && Linked(body.fixes, None) && Numbered(body.num, |body.fixes|)
    ensures LocFrames(body.num, body.fixes) == [LocBytes(body.num, body.fixes)]
  {
    var fs := body.fixes;
    LinkedIsOneChunk(fs);
    var first := body.num + 1 - |fs|;
    assert fs[0..|fs|] == fs;
    hide Linked, Chunk, DeltaFits, LocBytes, ChunkEnd;
    assert Pieces(first, fs, |fs|) == [];
    assert Pieces(first, fs, 0) == [Piece(body.num, fs)];
  }
}
