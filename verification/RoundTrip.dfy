/** What a decoder makes of what the encoder wrote: the same message in its normal form, whatever
    bytes come after it. */
module RoundTrip {
  import opened Wrappers
  import opened Bytes
  import opened Points
  import opened Utf8
  import opened Reading
  import opened Loc
  import opened Messages
  import T = Types

  // ---- The normal form of a message ----

  /** Text that is no UUID travels as the nil UUID, and is read back as such. */
  function NormUid(u: Uid): Uid {
    Uid(UidBytes(u))
  }

  /** Where the nil UUID means absent. */
  function NormTrack(u: Uid): Uid {
    if UidBytes(u) == NIL then NoUid else u
  }

  function NormOptTrack(u: Option<Uid>): Option<Uid> {
    if UidBytes(u.GetOr(NoUid)) == NIL then None else u
  }

  function NormTime(t: Option<I64>): Option<I64> {
    ZeroTime(t.GetOr(0))
  }

  function NormOptPoint(p: Option<LatLng>): Option<LatLng> {
    if p.Some? then Some(NormPoint(p.value)) else None
  }

  function Positions(ps: seq<LatLng>): (r: seq<LatLng>)
    ensures |r| == |ps|
  {
    seq(|ps|, i requires 0 <= i < |ps| => Position(ps[i]))
  }

  function NormRoute(route: seq<LatLng>): seq<LatLng> {
    Positions(RouteCut(route))
  }

  predicate OptInRange(p: Option<LatLng>) {
    p.Some? ==> InRange(p.value)
  }

  predicate AllInRange(ps: seq<LatLng>) {
    forall i :: 0 <= i < |ps| ==> InRange(ps[i])
  }

  predicate RouteInRange(route: seq<LatLng>) {
    AllInRange(RouteCut(route))
  }

  /** How many points of a batch its one frame carries. */
  function BatchSize(points: seq<LatLng>): (n: nat)
    requires points != []
    ensures 1 <= n <= |points| && n <= MAX_LOC_POINTS
  {
    ChunkEnd(QuantiseAll(points), 0, 1)
  }

  /** What the other side accepts. */
  predicate ClientReadable(c: ClientCmd) {
    match c
    case TrackStart(location, route, _) => OptInRange(location) && RouteInRange(route)
    case LocationAdd(_, _, point) => InRange(point)
    case LocationBatch(_, _, points) => points != [] && AllInRange(points[..BatchSize(points)])
    case CommandAck(_, _, message) => ValidUtf8(Cut(message.GetOr([])))
    case _ => true
  }

  function NormPoints(ps: seq<LatLng>): (r: seq<LatLng>)
    ensures |r| == |ps|
  {
    DegreesAll(QuantiseAll(ps))
  }

  function NormClient(c: ClientCmd): ClientCmd
    requires ClientReadable(c)
  {
    match c
    case Resume(uid, last) => Resume(NormUid(uid), last % TWO32)
    case TrackStart(location, route, metadata) => TrackStart(NormOptPoint(location), NormRoute(route), Cut(metadata))
    case TrackStop(_) => TrackStop(NoUid)
    case LocationAdd(_, num, point) => LocationAdd(NoUid, num % TWO32, NormPoint(point))
    case LocationBatch(_, last, points) =>
      var n := BatchSize(points);
      var num := (last - |points| + n) % TWO32;
      if n == 1 then LocationAdd(NoUid, num, NormPoint(points[0])) else LocationBatch(NoUid, num, NormPoints(points[..n]))
    case Subscribe(uid, events, interval) => Subscribe(NormUid(uid), events, if interval < 0xFFFF then interval else 0xFFFF)
    case Unsubscribe(sub) => Unsubscribe(sub)
    case Event(_, payload, time) => Event(NoUid, Cut(payload), NormTime(time))
    case CommandAck(id, status, message) =>
      var text: Str := Cut(message.GetOr([]));
      CommandAck(NormUid(id), status, if text == [] then None else Some(text))
  }

  predicate ServerReadable(e: ServerEvt) {
    match e
    case Relocate(endpoint, _) => ValidUtf8(Cut(endpoint))
    case LocationAdded(_, _, point, _, _) => InRange(point)
    case Subscribed(_, _, _, location, route, _, _, startName, endName, _, _, _) =>
      OptInRange(location) && RouteInRange(route) && ValidUtf8(Cut(startName)) && ValidUtf8(Cut(endName))
    case Error(_, message, _, _) => ValidUtf8(Cut(message))
    case _ => true
  }

  function NormServer(e: ServerEvt): ServerEvt
    requires ServerReadable(e)
  {
    match e
    case Hello(version, node, shard) => Hello(version, NormUid(node), shard % TWO16)
    case Relocate(endpoint, retry) => Relocate(Cut(endpoint), retry)
    case ResumeOk(uid, num) => ResumeOk(NormUid(uid), num % TWO32)
    case TrackStarted(uid, metadata) => TrackStarted(NormUid(uid), Cut(metadata))
    case TrackStopped(uid) => TrackStopped(NormUid(uid))
    case Ack(num) => Ack(num % TWO32)
    case LocationAdded(_, _, point, num, sub) => LocationAdded(NoUid, NoUid, NormPoint(point), num % TWO32, sub)
    case Subscribed(sub, device, track, location, route, distance, duration, startName, endName, metadata, online, seen) =>
      Subscribed(sub, NormUid(device), NormTrack(track), NormOptPoint(location), NormRoute(route), distance, duration,
                 Cut(startName), Cut(endName), Cut(metadata), online, seen)
    case Error(code, message, track, retry) => Error(code, Cut(message), NormOptTrack(track), if retry == Some(0) then None else retry)
    case EventAdded(_, _, payload, time, sub) => EventAdded(NoUid, NoUid, Cut(payload), NormTime(time), sub)
    case Command(id, payload, time) => Command(NormUid(id), Cut(payload), NormTime(time))
    case DevicePresence(_, online, seen, sub) => DevicePresence(NoUid, online, NormTime(seen), sub)
  }

  // ---- Taking a concatenation apart ----

  lemma Split3(b: seq<Byte>, i: nat, x: seq<Byte>, y: seq<Byte>, z: seq<Byte>)
    requires At(b, i, x + (y + z))
    ensures At(b, i, x) && At(b, i + |x|, y) && At(b, i + |x| + |y|, z)
  {
    AtSplit(b, i, x, y + z);
    AtSplit(b, i + |x|, y, z);
  }

  lemma Split4(b: seq<Byte>, i: nat, x: seq<Byte>, y: seq<Byte>, z: seq<Byte>, w: seq<Byte>)
    requires At(b, i, x + (y + (z + w)))
    ensures At(b, i, x) && At(b, i + |x|, y) && At(b, i + |x| + |y|, z) && At(b, i + |x| + |y| + |z|, w)
  {
    Split3(b, i, x, y, z + w);
    AtSplit(b, i + |x| + |y|, z, w);
  }

  // ---- Fields ----

  lemma OptPointBack(b: seq<Byte>, i: nat, p: Option<LatLng>)
    requires At(b, i, OptPointBytes(p))
    ensures OptPointAt(b, i, p.Some?) ==
            if OptInRange(p) then Got(NormOptPoint(p), i + |OptPointBytes(p)|) else Fail(Invalid)
  {
    if p.Some? {
      hide Quantise, Degrees, FixAt, PointBytes, At;
      FixBack(b, i, Quantise(p.value), None);
      InRangeFix(p.value);
    }
  }

  lemma InRangeFix(p: LatLng)
    ensures InRange(p) <==> CoordOk(Quantise(p).lat, Quantise(p).lon)
  {
  }

  lemma PositionBack(b: seq<Byte>, i: nat, p: LatLng)
    requires At(b, i, PlaceBytes(WirePlace(p), None))
    ensures PositionAt(b, i) == if InRange(p) then Got(Position(p), i + 8) else Fail(Invalid)
    ensures |PlaceBytes(WirePlace(p), None)| == 8
  {
    PlaceBack(b, i, WirePlace(p), None);
    hide DegToMicro, PlaceAt, At, MicroToDeg;
  }

  lemma {:induction false} PositionsBack(b: seq<Byte>, i: nat, ps: seq<LatLng>)
    requires At(b, i, PlacesBytes(ps))
    ensures PositionsAt(b, i, |ps|) == if AllInRange(ps) then Got(Positions(ps), i + |PlacesBytes(ps)|) else Fail(Invalid)
    decreases ps
  {
    hide PlaceBytes, PositionAt, InRange, Position, At;
    if ps != [] {
      var x := PlaceBytes(WirePlace(ps[0]), None);
      AtSplit(b, i, x, PlacesBytes(ps[1..]));
      PositionBack(b, i, ps[0]);
      PositionsBack(b, i + 8, ps[1..]);
      assert AllInRange(ps) <==> InRange(ps[0]) && AllInRange(ps[1..]);
      assert Positions(ps) == [Position(ps[0])] + Positions(ps[1..]);
    } else {
      assert Positions(ps) == [];
    }
  }

  lemma RouteBack(b: seq<Byte>, i: nat, route: seq<LatLng>)
    requires At(b, i, RouteBytes(route))
    ensures RouteAt(b, i) == if RouteInRange(route) then Got(NormRoute(route), i + |RouteBytes(route)|) else Fail(Invalid)
  {
    var cut := RouteCut(route);
    hide PutU16, PlacesBytes, PositionsAt, At, AllInRange, Positions, RouteCut;
    AtSplit(b, i, PutU16(|cut|), PlacesBytes(cut));
    U16Back(b, i, |cut|);
    PositionsBack(b, i + 2, cut);
  }

  lemma OptRouteBack(b: seq<Byte>, i: nat, route: seq<LatLng>)
    requires At(b, i, OptRouteBytes(route))
    ensures OptRouteAt(b, i, route != []) ==
            if RouteInRange(route) then Got(NormRoute(route), i + |OptRouteBytes(route)|) else Fail(Invalid)
  {
    if route == [] {
      assert NormRoute(route) == [];
    } else {
      RouteBack(b, i, route);
      hide RouteBytes, RouteAt, NormRoute, RouteInRange;
    }
  }

  lemma OptTimeBack(b: seq<Byte>, i: nat, t: Option<I64>)
    requires At(b, i, OptTimeBytes(t))
    ensures OptI64At(b, i, t.Some?) == Got(t, i + |OptTimeBytes(t)|)
  {
    if t.Some? {
      I64Back(b, i, t.value);
    }
  }

  lemma FlagBits(x: bool, y: bool, z: bool)
    ensures Has(BoolByte(x), 1) == x && (BoolByte(x) != 0) == x
    ensures var f := SubscribedFlags(x, y, z); Has(f, 1) == x && Has(f, 2) == y && Has(f, 4) == z
  {
  }

  lemma StatusBack(s: T.AckStatus, c: T.ErrorCode)
    ensures T.AckStatusFrom(T.AckStatusByte(s)) == s
    ensures T.ErrorCodeFrom(T.ErrorCodeByte(c)) == Some(c)
  {
  }

  // ---- Client commands ----

  lemma ResumeBack(b: seq<Byte>, i: nat, uid: Uid, last: U64)
    requires At(b, i, UidBytes(uid) + PutU32(last % TWO32))
    ensures ResumeAt(b, i) == Got(Resume(NormUid(uid), last % TWO32), i + 20)
  {
    hide PutU32, UuidAt, U32At, At;
    AtSplit(b, i, UidBytes(uid), PutU32(last % TWO32));
    UidBack(b, i, uid);
    U32Back(b, i + 16, last % TWO32);
  }

  lemma TrackStartBack(b: seq<Byte>, i: nat, location: Option<LatLng>, route: seq<LatLng>, metadata: seq<Byte>)
    requires At(b, i, [BoolByte(location.Some?)] + (OptPointBytes(location) + (RouteBytes(route) + PutBytes(metadata))))
    ensures TrackStartAt(b, i) ==
            if OptInRange(location) && RouteInRange(route)
            then Got(TrackStart(NormOptPoint(location), NormRoute(route), Cut(metadata)),
                     i + 1 + |OptPointBytes(location)| + |RouteBytes(route)| + |PutBytes(metadata)|)
            else Fail(Invalid)
  {
    hide OptPointBytes, RouteBytes, PutBytes, OptPointAt, RouteAt, BytesAt, StrAt, U8At, At, Has, BoolByte, OptInRange, RouteInRange,
      NormOptPoint, NormRoute, Cut, ValidUtf8;
    var x, y := OptPointBytes(location), RouteBytes(route);
    Split4(b, i, [BoolByte(location.Some?)], x, y, PutBytes(metadata));
    U8Back(b, i, BoolByte(location.Some?));
    FlagBits(location.Some?, false, false);
    OptPointBack(b, i + 1, location);
    RouteBack(b, i + 1 + |x|, route);
    BytesBack(b, i + 1 + |x| + |y|, metadata);
  }

  lemma LocAddBack(b: seq<Byte>, i: nat, num: U32, point: LatLng)
    requires At(b, i, LocBytes(num, [Quantise(point)]))
    ensures ClientAt(b, i) ==
            if InRange(point) then Got(Cmd(LocationAdd(NoUid, num, NormPoint(point))), i + |LocBytes(num, [Quantise(point)])|)
            else Fail(Invalid)
  {
    var fs := [Quantise(point)];
    LocBack(b, i, num, fs);
    InRangeFix(point);
    assert AllOnGlobe(fs) <==> CoordOk(fs[0].lat, fs[0].lon);
    hide LocAt, LocBytes, U8At, Quantise, Degrees, InRange, At, AllOnGlobe;
  }

  /** A frame that starts with the Loc type byte. */
  lemma LocClientAt(b: seq<Byte>, i: nat)
    requires i <= |b| && U8At(b, i) == Got(C_LOC, i + 1)
    ensures var r := LocAt(b, i + 1);
            ClientAt(b, i) == if r.Got? then Got(Cmd(LocCmd(r.value)), r.next) else Fail(r.error)
  {
    hide LocAt, U8At, LocCmd;
  }

  /** The one frame a batch is sent as. */
  function BatchBody(c: ClientCmd): LocBody
    requires c.LocationBatch? && c.points != []
  {
    var n := BatchSize(c.points);
    LocBody((c.clientSeq - |c.points| + n) % TWO32, QuantiseAll(c.points[..n]))
  }

  lemma BatchBack(b: seq<Byte>, i: nat, c: ClientCmd)
    requires c.LocationBatch? && c.points != [] && At(b, i, EncodeClient(c))
    ensures ClientAt(b, i) == if ClientReadable(c) then Got(Cmd(NormClient(c)), i + |EncodeClient(c)|) else Fail(Invalid)
  {
    var body := BatchBody(c);
    BatchIsFrame(c);
    BatchNorm(c);
    BatchReadable(c);
    hide *;
    BodyBack(b, i, body);
  }

  lemma BodyBack(b: seq<Byte>, i: nat, body: LocBody)
    requires 1 <= |body.fixes| <= MAX_LOC_POINTS && Linked(body.fixes, None) && At(b, i, LocBytes(body.num, body.fixes))
    ensures ClientAt(b, i) ==
            if AllOnGlobe(body.fixes) then Got(Cmd(LocCmd(body)), i + |LocBytes(body.num, body.fixes)|) else Fail(Invalid)
  {
    hide LocAt, LocBytes, LocCmd, At, Linked, AllOnGlobe, ClientAt;
    LocBack(b, i, body.num, body.fixes);
    LocClientAt(b, i);
  }

  lemma BatchIsFrame(c: ClientCmd)
    requires c.LocationBatch? && c.points != []
    ensures var body := BatchBody(c);
            && 1 <= |body.fixes| <= MAX_LOC_POINTS && Linked(body.fixes, None)
            && EncodeClient(c) == LocBytes(body.num, body.fixes)
  {
    var fs, n := QuantiseAll(c.points), BatchSize(c.points);
    ChunkLinked(fs, 0, n, None);
    hide Quantise, LocBytes, Linked;
    assert fs[0..n] == QuantiseAll(c.points[..n]);
  }

  lemma BatchReadable(c: ClientCmd)
    requires c.LocationBatch? && c.points != []
    ensures ClientReadable(c) <==> AllOnGlobe(BatchBody(c).fixes)
  {
    hide AllInRange, AllOnGlobe, QuantiseAll, BatchSize;
    InRangeAll(c.points[..BatchSize(c.points)]);
  }

  lemma BatchNorm(c: ClientCmd)
    requires c.LocationBatch? && c.points != []
    ensures BatchBody(c).fixes != [] && (ClientReadable(c) ==> NormClient(c) == LocCmd(BatchBody(c)))
  {
    hide Quantise, Degrees, ChunkEnd, ClientReadable;
    var n := BatchSize(c.points);
    assert QuantiseAll(c.points[..n])[0] == Quantise(c.points[0]);
  }

  lemma InRangeAll(points: seq<LatLng>)
    ensures AllInRange(points) <==> AllOnGlobe(QuantiseAll(points))
  {
    hide Quantise, InRange;
    forall i | 0 <= i < |points| ensures InRange(points[i]) <==> CoordOk(QuantiseAll(points)[i].lat, QuantiseAll(points)[i].lon) {
      InRangeFix(points[i]);
    }
  }

  lemma SubscribeBack(b: seq<Byte>, i: nat, uid: Uid, events: bool, interval: U16)
    requires At(b, i, UidBytes(uid) + ([BoolByte(events)] + PutU16(interval)))
    ensures SubscribeAt(b, i) == Got(Subscribe(NormUid(uid), events, interval), i + 19)
  {
    Split3(b, i, UidBytes(uid), [BoolByte(events)], PutU16(interval));
    UidBack(b, i, uid);
    U8Back(b, i + 16, BoolByte(events));
    FlagBits(events, false, false);
    U16Back(b, i + 17, interval);
    hide PutU16, UuidAt, U16At, U8At, At, Has, BoolByte;
  }

  lemma EventBack(b: seq<Byte>, i: nat, payload: seq<Byte>, time: Option<I64>)
    requires At(b, i, PutBytes(payload) + ZeroTimeBytes(time))
    ensures EventAt(b, i) == Got(Event(NoUid, Cut(payload), NormTime(time)), i + |PutBytes(payload)| + 8)
  {
    AtSplit(b, i, PutBytes(payload), ZeroTimeBytes(time));
    BytesBack(b, i, payload);
    I64Back(b, i + |PutBytes(payload)|, time.GetOr(0));
    hide PutBytes, PutI64, BytesAt, StrAt, I64At, At, Cut, ValidUtf8;
  }

  lemma CommandAckBack(b: seq<Byte>, i: nat, id: Uid, status: T.AckStatus, message: Option<Str>)
    requires At(b, i, UidBytes(id) + ([T.AckStatusByte(status)] + PutBytes(message.GetOr([]))))
    ensures var c := CommandAck(id, status, message);
            CommandAckAt(b, i) == if ClientReadable(c) then Got(NormClient(c), i + 17 + |PutBytes(message.GetOr([]))|) else Fail(Invalid)
  {
    Split3(b, i, UidBytes(id), [T.AckStatusByte(status)], PutBytes(message.GetOr([])));
    UidBack(b, i, id);
    U8Back(b, i + 16, T.AckStatusByte(status));
    StatusBack(status, T.Auth);
    BytesBack(b, i + 17, message.GetOr([]));
    hide PutBytes, UuidAt, StrAt, BytesAt, U8At, At, Cut, ValidUtf8, T.AckStatusFrom, T.AckStatusByte;
  }

  lemma HeadBack(b: seq<Byte>, i: nat, t: Byte, rest: seq<Byte>)
    requires At(b, i, [t] + rest)
    ensures U8At(b, i) == Got(t, i + 1) && At(b, i + 1, rest)
  {
    AtSplit(b, i, [t], rest);
    U8Back(b, i, t);
  }

  /** Nothing to encode: no frame at all. */
  predicate EmptyBatch(c: ClientCmd) {
    c.LocationBatch? && c.points == []
  }

  /** A command that was written reads back in its normal form, at any cursor and before any other
      bytes, exactly when it is readable; else it is refused as invalid. */
  lemma ClientBack(b: seq<Byte>, i: nat, c: ClientCmd)
    requires At(b, i, EncodeClient(c)) && !EmptyBatch(c)
    ensures ClientAt(b, i) == if ClientReadable(c) then Got(Cmd(NormClient(c)), i + |EncodeClient(c)|) else Fail(Invalid)
  {
    hide At, U8At, PutBytes, PutU16, PutU32, OptPointBytes, RouteBytes, LocAt, Cut, NormRoute, NormOptPoint, NormTime, NormPoint, NormPoints,
      ResumeAt, TrackStartAt, LocCmdAt, SubscribeAt, EventAt, CommandAckAt, RouteInRange, OptInRange, InRange, AllInRange,
      BatchBytes, BatchSize, T.AckStatusByte, BoolByte, LocBytes, Quantise;
    match c
    case Resume(uid, last) =>
      HeadBack(b, i, C_RESUME, UidBytes(uid) + PutU32(last % TWO32));
      ResumeBack(b, i + 1, uid, last);
    case TrackStart(location, route, metadata) =>
      HeadBack(b, i, C_TRACK_START, [BoolByte(location.Some?)] + (OptPointBytes(location) + (RouteBytes(route) + PutBytes(metadata))));
      TrackStartBack(b, i + 1, location, route, metadata);
    case TrackStop(_) =>
      U8Back(b, i, C_TRACK_STOP);
    case LocationAdd(_, num, point) =>
      LocAddBack(b, i, num % TWO32, point);
    case LocationBatch(_, _, _) =>
      BatchBack(b, i, c);
    case Subscribe(uid, events, interval) =>
      var short: U16 := if interval < 0xFFFF then interval else 0xFFFF;
      HeadBack(b, i, C_SUBSCRIBE, UidBytes(uid) + ([BoolByte(events)] + PutU16(short)));
      SubscribeBack(b, i + 1, uid, events, short);
    case Unsubscribe(sub) =>
      HeadBack(b, i, C_UNSUBSCRIBE, [sub]);
      U8Back(b, i + 1, sub);
    case Event(_, payload, time) =>
      HeadBack(b, i, C_EVENT, PutBytes(payload) + ZeroTimeBytes(time));
      EventBack(b, i + 1, payload, time);
    case CommandAck(id, status, message) =>
      HeadBack(b, i, C_COMMAND_ACK, UidBytes(id) + ([T.AckStatusByte(status)] + PutBytes(message.GetOr([]))));
      CommandAckBack(b, i + 1, id, status, message);
  }

  /** Decoding what was encoded gives the normal form, whatever follows. */
  lemma ClientRoundTrip(c: ClientCmd, rest: seq<Byte>)
    ensures DecodeClient(EncodeClient(c) + rest) ==
            if ClientReadable(c) then Ok(Cmd(NormClient(c)))
            else if EmptyBatch(c) then DecodeClient(rest)
            else Err(Invalid)
  {
    var b := EncodeClient(c) + rest;
    if EmptyBatch(c) {
      assert b == rest;
    } else {
      assert At(b, 0, EncodeClient(c));
      ClientBack(b, 0, c);
    }
    hide EncodeClient, NormClient, ClientAt;
  }

  // ---- Server events ----

  lemma HelloBack(b: seq<Byte>, i: nat, version: Byte, node: Uid, shard: U16)
    requires At(b, i, [version] + (PutU16(shard) + UidBytes(node)))
    ensures HelloAt(b, i) == Got(Hello(version, NormUid(node), shard), i + 19)
  {
    hide PutU16, UuidAt, U16At, U8At, At;
    Split3(b, i, [version], PutU16(shard), UidBytes(node));
    U8Back(b, i, version);
    U16Back(b, i + 1, shard);
    UidBack(b, i + 3, node);
  }

  lemma RelocateBack(b: seq<Byte>, i: nat, endpoint: Str, retry: U32)
    requires At(b, i, PutU32(retry) + PutBytes(endpoint))
    ensures RelocateAt(b, i) ==
            if ValidUtf8(Cut(endpoint)) then Got(Relocate(Cut(endpoint), retry), i + 4 + |PutBytes(endpoint)|) else Fail(Invalid)
  {
    hide PutU32, PutBytes, U32At, StrAt, BytesAt, At, Cut;
    AtSplit(b, i, PutU32(retry), PutBytes(endpoint));
    U32Back(b, i, retry);
    BytesBack(b, i + 4, endpoint);
  }

  lemma ResumeOkBack(b: seq<Byte>, i: nat, uid: Uid, num: U32)
    requires At(b, i, UidBytes(uid) + PutU32(num))
    ensures ResumeOkAt(b, i) == Got(ResumeOk(NormUid(uid), num), i + 20)
  {
    hide PutU32, UuidAt, U32At, At;
    AtSplit(b, i, UidBytes(uid), PutU32(num));
    UidBack(b, i, uid);
    U32Back(b, i + 16, num);
  }

  lemma TrackStartedBack(b: seq<Byte>, i: nat, uid: Uid, metadata: seq<Byte>)
    requires At(b, i, UidBytes(uid) + PutBytes(metadata))
    ensures TrackStartedAt(b, i) == Got(TrackStarted(NormUid(uid), Cut(metadata)), i + 16 + |PutBytes(metadata)|)
  {
    hide PutBytes, UuidAt, BytesAt, StrAt, At, Cut, ValidUtf8;
    AtSplit(b, i, UidBytes(uid), PutBytes(metadata));
    UidBack(b, i, uid);
    BytesBack(b, i + 16, metadata);
  }

  lemma LocationAddedBack(b: seq<Byte>, i: nat, sub: Byte, num: U32, point: LatLng)
    requires At(b, i, [sub] + (PutU32(num) + AbsBytes(point)))
    ensures LocationAddedAt(b, i) ==
            if InRange(point) then Got(LocationAdded(NoUid, NoUid, NormPoint(point), num, sub), i + 5 + |AbsBytes(point)|) else Fail(Invalid)
  {
    hide PutU32, U32At, U8At, FixAt, PointBytes, Quantise, Degrees, At;
    Split3(b, i, [sub], PutU32(num), AbsBytes(point));
    U8Back(b, i, sub);
    U32Back(b, i + 1, num);
    FixBack(b, i + 5, Quantise(point), None);
    InRangeFix(point);
    hide InRange;
  }

  lemma SubscribedHeadBack(b: seq<Byte>, i: nat, e: ServerEvt)
    requires e.Subscribed? && At(b, i, SubscribedHeadBytes(e))
    ensures SubscribedHeadAt(b, i)
            == Got(SubscribedHead(e.sub, NormUid(e.deviceUid), NormTrack(e.trackUid), e.online, FlagsOf(e)), i + |SubscribedHeadBytes(e)|)
  {
    hide UuidAt, UuidOptAt, U8At, At, BoolByte, FlagsOf;
    Split4(b, i, [e.sub], UidBytes(e.deviceUid), UidBytes(e.trackUid), [BoolByte(e.online)] + [FlagsOf(e)]);
    AtSplit(b, i + 33, [BoolByte(e.online)], [FlagsOf(e)]);
    U8Back(b, i, e.sub);
    UidBack(b, i + 1, e.deviceUid);
    UidBack(b, i + 17, e.trackUid);
    U8Back(b, i + 33, BoolByte(e.online));
    U8Back(b, i + 34, FlagsOf(e));
    FlagBits(e.online, false, false);
  }

  lemma SubscribedPartsBack(b: seq<Byte>, i: nat, e: ServerEvt)
    requires e.Subscribed? && At(b, i, SubscribedPartsBytes(e))
    ensures SubscribedPartsAt(b, i, FlagsOf(e)) ==
            if OptInRange(e.lastLocation) && RouteInRange(e.route)
            then Got(SubscribedParts(NormOptPoint(e.lastLocation), e.lastSeenMs, NormRoute(e.route)), i + |SubscribedPartsBytes(e)|)
            else Fail(Invalid)
  {
    hide OptPointBytes, OptTimeBytes, OptRouteBytes, OptPointAt, OptI64At, OptRouteAt, At, Has, SubscribedFlags,
      OptInRange, RouteInRange, NormOptPoint, NormRoute;
    var x, y, z := OptPointBytes(e.lastLocation), OptTimeBytes(e.lastSeenMs), OptRouteBytes(e.route);
    Split3(b, i, x, y, z);
    FlagBits(e.lastLocation.Some?, e.lastSeenMs.Some?, e.route != []);
    OptPointBack(b, i, e.lastLocation);
    OptTimeBack(b, i + |x|, e.lastSeenMs);
    OptRouteBack(b, i + |x| + |y|, e.route);
  }

  lemma SubscribedTailBack(b: seq<Byte>, i: nat, e: ServerEvt)
    requires e.Subscribed? && At(b, i, SubscribedTailBytes(e))
    ensures SubscribedTailAt(b, i) ==
            if ValidUtf8(Cut(e.startName)) && ValidUtf8(Cut(e.endName))
            then Got(SubscribedTail(e.distance, e.duration, Cut(e.startName), Cut(e.endName), Cut(e.metadata)), i + |SubscribedTailBytes(e)|)
            else Fail(Invalid)
  {
    hide F64At, StrAt, BytesAt, PutBytes, At, Cut;
    var x, y := PutBytes(e.startName), PutBytes(e.endName);
    Split4(b, i, e.distance, e.duration, x, y + PutBytes(e.metadata));
    AtSplit(b, i + 16 + |x|, y, PutBytes(e.metadata));
    F64Back(b, i, e.distance);
    F64Back(b, i + 8, e.duration);
    BytesBack(b, i + 16, e.startName);
    BytesBack(b, i + 16 + |x|, e.endName);
    BytesBack(b, i + 16 + |x| + |y|, e.metadata);
  }

  lemma SubscribedBack(b: seq<Byte>, i: nat, e: ServerEvt)
    requires e.Subscribed? && At(b, i, SubscribedHeadBytes(e) + (SubscribedPartsBytes(e) + SubscribedTailBytes(e)))
    ensures SubscribedAt(b, i) ==
            if ServerReadable(e)
            then Got(NormServer(e), i + |SubscribedHeadBytes(e)| + |SubscribedPartsBytes(e)| + |SubscribedTailBytes(e)|)
            else Fail(Invalid)
  {
    hide SubscribedHeadAt, SubscribedPartsAt, SubscribedTailAt, SubscribedHeadBytes, SubscribedPartsBytes, SubscribedTailBytes, At, Cut,
      OptInRange, RouteInRange, NormOptPoint, NormRoute, NormUid, NormTrack, FlagsOf;
    var x, y := SubscribedHeadBytes(e), SubscribedPartsBytes(e);
    Split3(b, i, x, y, SubscribedTailBytes(e));
    SubscribedHeadBack(b, i, e);
    SubscribedPartsBack(b, i + |x|, e);
    SubscribedTailBack(b, i + |x| + |y|, e);
  }

  lemma F64Back(b: seq<Byte>, i: nat, v: F64)
    requires At(b, i, v)
    ensures F64At(b, i) == Got(v, i + 8)
  {
  }

  lemma ErrorBack(b: seq<Byte>, i: nat, e: ServerEvt)
    requires e.Error?
    requires At(b, i, [T.ErrorCodeByte(e.code)] + (PutU32(e.retryAfter.GetOr(0)) + (UidBytes(e.track.GetOr(NoUid)) + PutBytes(e.message))))
    ensures ErrorAt(b, i) == if ServerReadable(e) then Got(NormServer(e), i + 21 + |PutBytes(e.message)|) else Fail(Invalid)
  {
    hide PutU32, U32At, U8At, UuidOptAt, UuidAt, StrAt, BytesAt, PutBytes, At, Cut, T.ErrorCodeByte, T.ErrorCodeFrom;
    var retry := e.retryAfter.GetOr(0);
    Split4(b, i, [T.ErrorCodeByte(e.code)], PutU32(retry), UidBytes(e.track.GetOr(NoUid)), PutBytes(e.message));
    U8Back(b, i, T.ErrorCodeByte(e.code));
    StatusBack(T.Okay, e.code);
    U32Back(b, i + 1, retry);
    UidBack(b, i + 5, e.track.GetOr(NoUid));
    BytesBack(b, i + 21, e.message);
  }

  lemma EventAddedBack(b: seq<Byte>, i: nat, sub: Byte, payload: seq<Byte>, time: Option<I64>)
    requires At(b, i, [sub] + (PutBytes(payload) + ZeroTimeBytes(time)))
    ensures EventAddedAt(b, i) == Got(EventAdded(NoUid, NoUid, Cut(payload), NormTime(time), sub), i + 9 + |PutBytes(payload)|)
  {
    hide PutBytes, PutI64, BytesAt, StrAt, I64At, U8At, At, Cut, ValidUtf8;
    Split3(b, i, [sub], PutBytes(payload), ZeroTimeBytes(time));
    U8Back(b, i, sub);
    BytesBack(b, i + 1, payload);
    I64Back(b, i + 1 + |PutBytes(payload)|, time.GetOr(0));
  }

  lemma CommandBack(b: seq<Byte>, i: nat, id: Uid, payload: seq<Byte>, time: Option<I64>)
    requires At(b, i, UidBytes(id) + (PutBytes(payload) + ZeroTimeBytes(time)))
    ensures CommandAt(b, i) == Got(Command(NormUid(id), Cut(payload), NormTime(time)), i + 24 + |PutBytes(payload)|)
  {
    hide PutBytes, PutI64, BytesAt, StrAt, I64At, UuidAt, UuidOptAt, At, Cut, ValidUtf8;
    Split3(b, i, UidBytes(id), PutBytes(payload), ZeroTimeBytes(time));
    UidBack(b, i, id);
    BytesBack(b, i + 16, payload);
    I64Back(b, i + 16 + |PutBytes(payload)|, time.GetOr(0));
  }

  lemma PresenceBack(b: seq<Byte>, i: nat, sub: Byte, online: bool, seen: Option<I64>)
    requires At(b, i, [sub] + ([BoolByte(online)] + ZeroTimeBytes(seen)))
    ensures PresenceAt(b, i) == Got(DevicePresence(NoUid, online, NormTime(seen), sub), i + 10)
  {
    hide PutI64, I64At, U8At, At, BoolByte;
    Split3(b, i, [sub], [BoolByte(online)], ZeroTimeBytes(seen));
    U8Back(b, i, sub);
    U8Back(b, i + 1, BoolByte(online));
    FlagBits(online, false, false);
    I64Back(b, i + 2, seen.GetOr(0));
  }

  /** Events about this client's own session. */
  predicate OwnSession(e: ServerEvt) {
    e.Hello? || e.Relocate? || e.ResumeOk? || e.TrackStarted? || e.TrackStopped? || e.Ack?
  }

  lemma SessionBack(b: seq<Byte>, i: nat, e: ServerEvt)
    requires OwnSession(e) && At(b, i, EncodeServer(e))
    ensures ServerAt(b, i) == if ServerReadable(e) then Got(Some(NormServer(e)), i + |EncodeServer(e)|) else Fail(Invalid)
  {
    hide At, U8At, PutBytes, PutU16, PutU32, AbsBytes, Cut, NormRoute, NormOptPoint, NormTime, NormPoint,
      HelloAt, RelocateAt, ResumeOkAt, TrackStartedAt, LocationAddedAt, SubscribedAt, ErrorAt, EventAddedAt, CommandAt, PresenceAt,
      RouteInRange, OptInRange, InRange, T.ErrorCodeByte, BoolByte;
    match e
    case Hello(version, node, shard) =>
      HeadBack(b, i, S_HELLO, [version] + (PutU16(shard % TWO16) + UidBytes(node)));
      HelloBack(b, i + 1, version, node, shard % TWO16);
    case Relocate(endpoint, retry) =>
      HeadBack(b, i, S_RELOCATE, PutU32(retry) + PutBytes(endpoint));
      RelocateBack(b, i + 1, endpoint, retry);
    case ResumeOk(uid, num) =>
      HeadBack(b, i, S_RESUME_OK, UidBytes(uid) + PutU32(num % TWO32));
      ResumeOkBack(b, i + 1, uid, num % TWO32);
    case TrackStarted(uid, metadata) =>
      HeadBack(b, i, S_TRACK_STARTED, UidBytes(uid) + PutBytes(metadata));
      TrackStartedBack(b, i + 1, uid, metadata);
    case TrackStopped(uid) =>
      HeadBack(b, i, S_TRACK_STOPPED, UidBytes(uid));
      UidBack(b, i + 1, uid);
    case Ack(num) =>
      HeadBack(b, i, S_ACK, PutU32(num % TWO32));
      U32Back(b, i + 1, num % TWO32);
  }

  /** What the reader makes of a written event. */
  predicate ReadsBack(b: seq<Byte>, i: nat, e: ServerEvt)
    requires i <= |b|
  {
    ServerAt(b, i) == if ServerReadable(e) then Got(Some(NormServer(e)), i + |EncodeServer(e)|) else Fail(Invalid)
  }

  lemma LocationAddedReads(b: seq<Byte>, i: nat, e: ServerEvt)
    requires e.LocationAdded? && At(b, i, EncodeServer(e))
    ensures ReadsBack(b, i, e)
  {
    hide At, U8At, PutBytes, PutU16, PutU32, AbsBytes, Cut, NormTime, NormPoint, LocationAddedAt, ErrorAt, EventAddedAt, CommandAt,
      PresenceAt, InRange, T.ErrorCodeByte, BoolByte, UidBytes, PutI64;
    HeadBack(b, i, S_LOC, [e.sub] + (PutU32(e.clientSeq % TWO32) + AbsBytes(e.point)));
    LocationAddedBack(b, i + 1, e.sub, e.clientSeq % TWO32, e.point);
  }

  lemma ErrorReads(b: seq<Byte>, i: nat, e: ServerEvt)
    requires e.Error? && At(b, i, EncodeServer(e))
    ensures ReadsBack(b, i, e)
  {
    hide At, U8At, PutBytes, PutU16, PutU32, AbsBytes, Cut, NormTime, NormPoint, LocationAddedAt, ErrorAt, EventAddedAt, CommandAt,
      PresenceAt, InRange, T.ErrorCodeByte, BoolByte, UidBytes, PutI64;
    HeadBack(b, i, S_ERROR, 
             [T.ErrorCodeByte(e.code)] + (PutU32(e.retryAfter.GetOr(0)) + (UidBytes(e.track.GetOr(NoUid)) + PutBytes(e.message))));
    ErrorBack(b, i + 1, e);
  }

  lemma EventAddedReads(b: seq<Byte>, i: nat, e: ServerEvt)
    requires e.EventAdded? && At(b, i, EncodeServer(e))
    ensures ReadsBack(b, i, e)
  {
    hide At, U8At, PutBytes, PutU16, PutU32, AbsBytes, Cut, NormTime, NormPoint, LocationAddedAt, ErrorAt, EventAddedAt, CommandAt,
      PresenceAt, InRange, T.ErrorCodeByte, BoolByte, UidBytes, PutI64;
    HeadBack(b, i, S_EVENT_ADDED, [e.sub] + (PutBytes(e.payload) + ZeroTimeBytes(e.timestampMs)));
    EventAddedBack(b, i + 1, e.sub, e.payload, e.timestampMs);
  }

  lemma CommandReads(b: seq<Byte>, i: nat, e: ServerEvt)
    requires e.Command? && At(b, i, EncodeServer(e))
    ensures ReadsBack(b, i, e)
  {
    hide At, U8At, PutBytes, PutU16, PutU32, AbsBytes, Cut, NormTime, NormPoint, LocationAddedAt, ErrorAt, EventAddedAt, CommandAt,
      PresenceAt, InRange, T.ErrorCodeByte, BoolByte, UidBytes, PutI64;
    HeadBack(b, i, S_COMMAND, UidBytes(e.commandId) + (PutBytes(e.payload) + ZeroTimeBytes(e.timestampMs)));
    CommandBack(b, i + 1, e.commandId, e.payload, e.timestampMs);
  }

  lemma DevicePresenceReads(b: seq<Byte>, i: nat, e: ServerEvt)
    requires e.DevicePresence? && At(b, i, EncodeServer(e))
    ensures ReadsBack(b, i, e)
  {
    hide At, U8At, PutBytes, PutU16, PutU32, AbsBytes, Cut, NormTime, NormPoint, LocationAddedAt, ErrorAt, EventAddedAt, CommandAt,
      PresenceAt, InRange, T.ErrorCodeByte, BoolByte, UidBytes, PutI64;
    HeadBack(b, i, S_PRESENCE, [e.sub] + ([BoolByte(e.online)] + ZeroTimeBytes(e.lastSeenMs)));
    PresenceBack(b, i + 1, e.sub, e.online, e.lastSeenMs);
  }

  lemma ListenerBack(b: seq<Byte>, i: nat, e: ServerEvt)
    requires !OwnSession(e) && !e.Subscribed? && At(b, i, EncodeServer(e))
    ensures ServerAt(b, i) == if ServerReadable(e) then Got(Some(NormServer(e)), i + |EncodeServer(e)|) else Fail(Invalid)
  {
    hide At, EncodeServer, ServerAt, ServerReadable, NormServer;
    if e.LocationAdded? {
      LocationAddedReads(b, i, e);
    } else if e.Error? {
      ErrorReads(b, i, e);
    } else if e.EventAdded? {
      EventAddedReads(b, i, e);
    } else if e.Command? {
      CommandReads(b, i, e);
    } else {
      DevicePresenceReads(b, i, e);
    }
  }

  /** An event that was written reads back in its normal form, at any cursor and before any other
      bytes, exactly when it is readable; else it is refused as invalid. */
  lemma ServerBack(b: seq<Byte>, i: nat, e: ServerEvt)
    requires At(b, i, EncodeServer(e))
    ensures ServerAt(b, i) == if ServerReadable(e) then Got(Some(NormServer(e)), i + |EncodeServer(e)|) else Fail(Invalid)
  {
    hide EncodeServer, ServerAt, ServerReadable, NormServer, At;
    if OwnSession(e) {
      SessionBack(b, i, e);
    } else if e.Subscribed? {
      SubscribedServerBack(b, i, e);
    } else {
      ListenerBack(b, i, e);
    }
  }

  lemma SubscribedServerBack(b: seq<Byte>, i: nat, e: ServerEvt)
    requires e.Subscribed? && At(b, i, EncodeServer(e))
    ensures ServerAt(b, i) == if ServerReadable(e) then Got(Some(NormServer(e)), i + |EncodeServer(e)|) else Fail(Invalid)
  {
    assert EncodeServer(e) == [S_SUBSCRIBED] + (SubscribedHeadBytes(e) + (SubscribedPartsBytes(e) + SubscribedTailBytes(e)));
    hide *;
    HeadBack(b, i, S_SUBSCRIBED, SubscribedHeadBytes(e) + (SubscribedPartsBytes(e) + SubscribedTailBytes(e)));
    SubscribedBack(b, i + 1, e);
    SubscribedServerAt(b, i);
  }

  lemma SubscribedServerAt(b: seq<Byte>, i: nat)
    requires i <= |b| && U8At(b, i) == Got(S_SUBSCRIBED, i + 1)
    ensures var r := SubscribedAt(b, i + 1);
            ServerAt(b, i) == if r.Got? then Got(Some(r.value), r.next) else Fail(r.error)
  {
    hide SubscribedAt, U8At;
  }

  lemma ServerRoundTrip(e: ServerEvt, rest: seq<Byte>)
    ensures DecodeServer(EncodeServer(e) + rest) == if ServerReadable(e) then Ok(Some(NormServer(e))) else Err(Invalid)
  {
    var b := EncodeServer(e) + rest;
    hide EncodeServer, NormServer, ServerAt, ServerReadable;
    assert At(b, 0, EncodeServer(e));
    ServerBack(b, 0, e);
  }

  // ---- The globe, in degrees ----

  /** A point travels exactly when it lies less than half a microdegree beyond 90 degrees of latitude
      and 180 of longitude; otherwise the other side refuses the frame. */
  lemma PointTravels(uid: Uid, device: Uid, num: U64, sub: Byte, p: LatLng)
    ensures var ok := -90.0000005 < p.latitude < 90.0000005 && -180.0000005 < p.longitude < 180.0000005;
            && DecodeClient(EncodeClient(LocationAdd(uid, num, p)))
               == (if ok then Ok(Cmd(LocationAdd(NoUid, num % 4_294_967_296, NormPoint(p)))) else Err(Invalid))
            && DecodeServer(EncodeServer(LocationAdded(device, uid, p, num, sub)))
               == (if ok then Ok(Some(LocationAdded(NoUid, NoUid, NormPoint(p), num % 4_294_967_296, sub))) else Err(Invalid))
  {
    OnGlobe(p);
    hide EncodeClient, EncodeServer, DecodeClient, DecodeServer, NormPoint, InRange;
    var c, e := LocationAdd(uid, num, p), LocationAdded(device, uid, p, num, sub);
    ClientRoundTrip(c, []);
    ServerRoundTrip(e, []);
    assert EncodeClient(c) + [] == EncodeClient(c) && EncodeServer(e) + [] == EncodeServer(e);
  }

  /** So do the positions of a start: its place and every position of its route. */
  lemma StartTravels(location: Option<LatLng>, route: seq<LatLng>, metadata: seq<Byte>)
    requires |route| <= 65_535 && |metadata| <= 4096
    ensures var ok := (location.Some? ==> InRange(location.value)) && forall i :: 0 <= i < |route| ==> InRange(route[i]);
            DecodeClient(EncodeClient(TrackStart(location, route, metadata)))
            == if ok then Ok(Cmd(TrackStart(if location.Some? then Some(NormPoint(location.value)) else None, Positions(route), metadata)))
               else Err(Invalid)
  {
    hide EncodeClient, DecodeClient, NormPoint, InRange, Positions;
    var c := TrackStart(location, route, metadata);
    ClientRoundTrip(c, []);
    assert EncodeClient(c) + [] == EncodeClient(c);
  }
}
