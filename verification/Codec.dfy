/** The encoders and decoders of src/tracking/codec.rs in their own form: a buffer that grows, a
    cursor that advances, and loops over points. Each computes exactly what Messages says. */
module Codec {
  import opened Wrappers
  import opened Bytes
  import opened Points
  import opened Utf8
  import opened Reading
  import opened Loc
  import opened LocWriter
  import opened Messages
  import T = Types

  // ---- Reading ----

  method ReadPlace(r: Reader, prev: Option<Place>) returns (p: Result<Place, DecodeError>)
    requires r.Valid()
    modifies r
    ensures r.Took(PlaceAt(r.bytes, old(r.pos), prev), p)
  {
    hide I16At, I32At, SaturatingAdd;
    match prev {
      case Some(q) =>
        var dlat :- r.I16();
        var dlon :- r.I16();
        p := Ok(Place(SaturatingAdd(q.lat, dlat), SaturatingAdd(q.lon, dlon)));
      case None =>
        var lat :- r.I32();
        var lon :- r.I32();
        p := Ok(Place(lat, lon));
    }
  }

  method ReadExtras(r: Reader, flags: Byte) returns (x: Result<Extra, DecodeError>)
    requires r.Valid()
    modifies r
    ensures r.Took(ExtrasAt(r.bytes, old(r.pos), flags), x)
  {
    hide I32At, U16At, I64At, Has;
    var e := Extra(None, None, None);
    if Has(flags, PF_ALT) {
      var alt :- r.I32();
      e := e.(alt := Some(alt));
    }
    if Has(flags, PF_ACC) {
      var acc :- r.U16();
      e := e.(acc := Some(acc));
    }
    if Has(flags, PF_TIME) {
      var time :- r.I64();
      e := e.(time := Some(time));
    }
    x := Ok(e);
  }

  /** read_point. */
  method ReadFix(r: Reader, prev: Option<Place>) returns (f: Result<Fix, DecodeError>)
    requires r.Valid()
    modifies r
    ensures r.Took(FixAt(r.bytes, old(r.pos), prev), f)
  {
    hide U8At, PlaceAt, ExtrasAt, CoordOk;
    var flags :- r.U8();
    var p :- ReadPlace(r, prev);
    if !CoordOk(p.lat, p.lon) {
      return Err(Invalid);
    }
    var x :- ReadExtras(r, flags);
    f := Ok(Fix(p.lat, p.lon, x.alt, x.acc, x.time));
  }

  /** What a loop has read, then what is still to read. */
  function Then<A>(done: seq<A>, rest: Read<seq<A>>): Read<seq<A>> {
    match rest
    case Got(more, next) => Got(done + more, next)
    case Fail(e) => Fail(e)
  }

  method ReadFixes(r: Reader, n: nat) returns (fs: Result<seq<Fix>, DecodeError>)
    requires r.Valid()
    modifies r
    ensures r.Took(FixesAt(r.bytes, old(r.pos), n, None), fs)
  {
    hide FixAt, Loc.Follows;
    var points, prev: Option<Place> := [], None;
    NothingYet(FixesAt(r.bytes, r.pos, n, None));
    for i := 0 to n
      invariant r.Valid()
      invariant FixesAt(r.bytes, old(r.pos), n, None) == Then(points, FixesAt(r.bytes, r.pos, n - i, prev))
    {
      ghost var rest := FixesAt(r.bytes, r.pos, n - i, prev);
      var f :- ReadFix(r, prev);
      NextOne(points, f, FixesAt(r.bytes, r.pos, n - i - 1, Some(PlaceOf(f))));
      points, prev := points + [f], Some(PlaceOf(f));
    }
    assert points + [] == points;
    fs := Ok(points);
  }

  lemma NothingYet<A>(rest: Read<seq<A>>)
    ensures Then([], rest) == rest
  {
    if rest.Got? {
      assert [] + rest.value == rest.value;
    }
  }

  lemma NextOne<A>(done: seq<A>, x: A, rest: Read<seq<A>>)
    ensures Then(done, Then([x], rest)) == Then(done + [x], rest)
  {
    if rest.Got? {
      assert done + ([x] + rest.value) == done + [x] + rest.value;
    }
  }

  method ReadLoc(r: Reader) returns (body: Result<LocBody, DecodeError>)
    requires r.Valid()
    modifies r
    ensures r.Took(LocAt(r.bytes, old(r.pos)), body)
  {
    hide U32At, U8At, FixesAt;
    var num :- r.U32();
    var count :- r.U8();
    if count == 0 || count > MAX_LOC_POINTS {
      return Err(Invalid);
    }
    var fs :- ReadFixes(r, count);
    body := Ok(LocBody(num, fs));
  }

  /** read_route_abs. */
  method ReadRoute(r: Reader) returns (route: Result<seq<LatLng>, DecodeError>)
    requires r.Valid()
    modifies r
    ensures r.Took(RouteAt(r.bytes, old(r.pos)), route)
  {
    hide U16At, PlaceAt, CoordOk, PositionOf;
    var n :- r.U16();
    var points := [];
    ghost var start := r.pos;
    NothingYet(PositionsAt(r.bytes, start, n));
    for i := 0 to n
      invariant r.Valid()
      invariant PositionsAt(r.bytes, start, n) == Then(points, PositionsAt(r.bytes, r.pos, n - i))
    {
      var q :- ReadPlace(r, None);
      if !CoordOk(q.lat, q.lon) {
        return Err(Invalid);
      }
      NextOne(points, PositionOf(q), PositionsAt(r.bytes, r.pos, n - i - 1));
      points := points + [PositionOf(q)];
    }
    assert points + [] == points;
    route := Ok(points);
  }

  method ReadOptPoint(r: Reader, present: bool) returns (p: Result<Option<LatLng>, DecodeError>)
    requires r.Valid()
    modifies r
    ensures r.Took(OptPointAt(r.bytes, old(r.pos), present), p)
  {
    hide FixAt, Degrees;
    if !present {
      return Ok(None);
    }
    var f :- ReadFix(r, None);
    p := Ok(Some(Degrees(f)));
  }

  method ReadTrackStart(r: Reader) returns (c: Result<ClientCmd, DecodeError>)
    requires r.Valid()
    modifies r
    ensures r.Took(TrackStartAt(r.bytes, old(r.pos)), c)
  {
    hide U8At, OptPointAt, RouteAt, BytesAt, Has;
    var flags :- r.U8();
    var location :- ReadOptPoint(r, Has(flags, 1));
    var route :- ReadRoute(r);
    var metadata :- r.LenBytes();
    c := Ok(TrackStart(location, route, metadata));
  }

  method ReadSubscribe(r: Reader) returns (c: Result<ClientCmd, DecodeError>)
    requires r.Valid()
    modifies r
    ensures r.Took(SubscribeAt(r.bytes, old(r.pos)), c)
  {
    hide U8At, UuidAt, U16At, Has;
    var uid :- r.Uuid();
    var flags :- r.U8();
    var interval :- r.U16();
    c := Ok(Subscribe(uid, Has(flags, 1), interval));
  }

  method ReadCommandAck(r: Reader) returns (c: Result<ClientCmd, DecodeError>)
    requires r.Valid()
    modifies r
    ensures r.Took(CommandAckAt(r.bytes, old(r.pos)), c)
  {
    hide U8At, UuidAt, StrAt, T.AckStatusFrom;
    var id :- r.Uuid();
    var status :- r.U8();
    var message :- r.LenStr();
    c := Ok(CommandAck(id, T.AckStatusFrom(status), if message == [] then None else Some(message)));
  }

  method ReadClientBody(r: Reader, t: Byte) returns (c: Result<ClientCmd, DecodeError>)
    requires r.Valid() && 0x01 <= t <= 0x08
    modifies r
    ensures r.Took(ClientBodyAt(r.bytes, old(r.pos), t), c)
  {
    hide U8At, U32At, I64At, UuidAt, BytesAt, LocAt, LocCmd, TrackStartAt, SubscribeAt, CommandAckAt;
    if t == C_RESUME {
      var uid :- r.Uuid();
      var last :- r.U32();
      c := Ok(Resume(uid, last));
    } else if t == C_TRACK_START {
      c := ReadTrackStart(r);
    } else if t == C_TRACK_STOP {
      c := Ok(TrackStop(NoUid));
    } else if t == C_LOC {
      var body :- ReadLoc(r);
      c := Ok(LocCmd(body));
    } else if t == C_SUBSCRIBE {
      c := ReadSubscribe(r);
    } else if t == C_UNSUBSCRIBE {
      var sub :- r.U8();
      c := Ok(Unsubscribe(sub));
    } else if t == C_EVENT {
      var payload :- r.LenBytes();
      var time :- r.I64();
      c := Ok(Event(NoUid, payload, ZeroTime(time)));
    } else {
      c := ReadCommandAck(r);
    }
  }

  /** decode_client. */
  method DecodeClientFrame(b: seq<Byte>) returns (c: Result<ClientDecode, DecodeError>)
    ensures c == DecodeClient(b)
  {
    hide U8At, ClientBodyAt;
    var r := new Reader(b);
    var t :- r.U8();
    if 0x01 <= t <= 0x08 {
      var cmd :- ReadClientBody(r, t);
      return Ok(Cmd(cmd));
    }
    c := if 0x01 <= t <= 0x7E then Ok(Unknown(t)) else Err(Invalid);
  }

  method ReadSubscribedParts(r: Reader, flags: Byte) returns (p: Result<SubscribedParts, DecodeError>)
    requires r.Valid()
    modifies r
    ensures r.Took(SubscribedPartsAt(r.bytes, old(r.pos), flags), p)
  {
    hide I64At, OptPointAt, RouteAt, Has;
    var location :- ReadOptPoint(r, Has(flags, 1));
    var parts := SubscribedParts(location, None, []);
    if Has(flags, 2) {
      var seen :- r.I64();
      parts := parts.(seen := Some(seen));
    }
    if Has(flags, 4) {
      var route :- ReadRoute(r);
      parts := parts.(route := route);
    }
    p := Ok(parts);
  }

  method ReadSubscribedHead(r: Reader) returns (h: Result<SubscribedHead, DecodeError>)
    requires r.Valid()
    modifies r
    ensures r.Took(SubscribedHeadAt(r.bytes, old(r.pos)), h)
  {
    hide U8At, UuidAt, UuidOptAt;
    var sub :- r.U8();
    var device :- r.Uuid();
    var track :- r.UuidOpt();
    var online :- r.U8();
    var flags :- r.U8();
    h := Ok(SubscribedHead(sub, device, track.GetOr(NoUid), online != 0, flags));
  }

  method ReadSubscribedTail(r: Reader) returns (t: Result<SubscribedTail, DecodeError>)
    requires r.Valid()
    modifies r
    ensures r.Took(SubscribedTailAt(r.bytes, old(r.pos)), t)
  {
    hide F64At, StrAt, BytesAt;
    var distance :- r.F64();
    var duration :- r.F64();
    var startName :- r.LenStr();
    var endName :- r.LenStr();
    var metadata :- r.LenBytes();
    t := Ok(SubscribedTail(distance, duration, startName, endName, metadata));
  }

  method ReadSubscribed(r: Reader) returns (e: Result<ServerEvt, DecodeError>)
    requires r.Valid()
    modifies r
    ensures r.Took(SubscribedAt(r.bytes, old(r.pos)), e)
  {
    hide SubscribedHeadAt, SubscribedPartsAt, SubscribedTailAt;
    var h :- ReadSubscribedHead(r);
    var p :- ReadSubscribedParts(r, h.flags);
    var t :- ReadSubscribedTail(r);
    e := Ok(Subscribed(h.sub, h.device, h.track, p.location, p.route, t.distance, t.duration, t.startName, t.endName, t.metadata,
                       h.online, p.seen));
  }

  method ReadError(r: Reader) returns (e: Result<ServerEvt, DecodeError>)
    requires r.Valid()
    modifies r
    ensures r.Took(ErrorAt(r.bytes, old(r.pos)), e)
  {
    hide U8At, U32At, UuidOptAt, StrAt, T.ErrorCodeFrom;
    var code :- r.U8();
    if T.ErrorCodeFrom(code).None? {
      return Err(Invalid);
    }
    var retry :- r.U32();
    var track :- r.UuidOpt();
    var message :- r.LenStr();
    e := Ok(Error(T.ErrorCodeFrom(code).value, message, track, if retry == 0 then None else Some(retry)));
  }

  /** The answers to this client's own commands. */
  method ReadSession(r: Reader, t: Byte) returns (e: Result<ServerEvt, DecodeError>)
    requires r.Valid() && S_HELLO <= t <= S_ACK
    modifies r
    ensures r.Took(ServerBodyAt(r.bytes, old(r.pos), t), e)
  {
    hide U8At, U16At, U32At, UuidAt, StrAt, BytesAt;
    if t == S_HELLO {
      var version :- r.U8();
      var shard :- r.U16();
      var node :- r.Uuid();
      e := Ok(Hello(version, node, shard));
    } else if t == S_RELOCATE {
      var retry :- r.U32();
      var endpoint :- r.LenStr();
      e := Ok(Relocate(endpoint, retry));
    } else if t == S_RESUME_OK {
      var uid :- r.Uuid();
      var num :- r.U32();
      e := Ok(ResumeOk(uid, num));
    } else if t == S_TRACK_STARTED {
      var uid :- r.Uuid();
      var metadata :- r.LenBytes();
      e := Ok(TrackStarted(uid, metadata));
    } else if t == S_TRACK_STOPPED {
      var uid :- r.Uuid();
      e := Ok(TrackStopped(uid));
    } else {
      var num :- r.U32();
      e := Ok(Ack(num));
    }
  }

  method ReadListener(r: Reader, t: Byte) returns (e: Result<ServerEvt, DecodeError>)
    requires r.Valid() && S_LOC <= t <= S_PRESENCE
    modifies r
    ensures r.Took(ServerBodyAt(r.bytes, old(r.pos), t), e)
  {
    hide U8At, U32At, I64At, UuidAt, BytesAt, FixAt, Degrees, SubscribedAt, ErrorAt;
    if t == S_LOC {
      var sub :- r.U8();
      var num :- r.U32();
      var f :- ReadFix(r, None);
      e := Ok(LocationAdded(NoUid, NoUid, Degrees(f), num, sub));
    } else if t == S_SUBSCRIBED {
      e := ReadSubscribed(r);
    } else if t == S_ERROR {
      e := ReadError(r);
    } else if t == S_EVENT_ADDED {
      var sub :- r.U8();
      var payload :- r.LenBytes();
      var time :- r.I64();
      e := Ok(EventAdded(NoUid, NoUid, payload, ZeroTime(time), sub));
    } else if t == S_COMMAND {
      var id :- r.Uuid();
      var payload :- r.LenBytes();
      var time :- r.I64();
      e := Ok(Command(id, payload, ZeroTime(time)));
    } else {
      var sub :- r.U8();
      var online :- r.U8();
      var time :- r.I64();
      e := Ok(DevicePresence(NoUid, online != 0, ZeroTime(time), sub));
    }
  }

  /** decode_server_evt. */
  method DecodeServerFrame(b: seq<Byte>) returns (e: Result<Option<ServerEvt>, DecodeError>)
    ensures e == DecodeServer(b)
  {
    hide U8At, ServerBodyAt;
    var r := new Reader(b);
    var t :- r.U8();
    if S_HELLO <= t <= S_ACK {
      var evt :- ReadSession(r, t);
      return Ok(Some(evt));
    }
    if S_LOC <= t <= S_PRESENCE {
      var evt :- ReadListener(r, t);
      return Ok(Some(evt));
    }
    e := if t == 0x8C || t == 0xFF || t < 0x80 then Err(Invalid) else Ok(None);
  }

  // ---- Writing ----

  method WriteAbs(w: Writer, p: LatLng)
    modifies w
    ensures w.bytes == old(w.bytes) + AbsBytes(p)
  {
    hide Quantise, PointBytes;
    var r := w.Point(p, None);
  }

  /** write_route_abs: at most 65535 positions. */
  method WriteRoute(w: Writer, route: seq<LatLng>)
    modifies w
    ensures w.bytes == old(w.bytes) + RouteBytes(route)
  {
    hide PutU16, PutI32, Quantise;
    ghost var cut := RouteCut(route);
    var n := if |route| < MAX_ROUTE then |route| else MAX_ROUTE;
    w.Raw(PutU16(n));
    ghost var head := w.bytes;
    assert cut[0..] == cut;
    for i := 0 to n
      invariant w.bytes + PlacesBytes(cut[i..]) == head + PlacesBytes(cut)
    {
      assert cut[i..][0] == route[i] && cut[i..][1..] == cut[i + 1..];
      var fits := w.Coordinates(WirePlace(route[i]), None);
    }
    assert cut[n..] == [] && n == |cut|;
    assert w.bytes == head + PlacesBytes(cut);
  }

  method WriteOptPoint(w: Writer, p: Option<LatLng>)
    modifies w
    ensures w.bytes == old(w.bytes) + OptPointBytes(p)
  {
    hide AbsBytes;
    if p.Some? {
      WriteAbs(w, p.value);
    }
  }

  // Appending part by part gives the nested concatenation.

  lemma Nested3(a: seq<Byte>, b: seq<Byte>, c: seq<Byte>)
    ensures [] + a + b + c == a + (b + c)
  {
  }

  lemma Nested4(a: seq<Byte>, b: seq<Byte>, c: seq<Byte>, d: seq<Byte>)
    ensures [] + a + b + c + d == a + (b + (c + d))
  {
  }

  lemma Nested5(a: seq<Byte>, b: seq<Byte>, c: seq<Byte>, d: seq<Byte>, e: seq<Byte>)
    ensures [] + a + b + c + d + e == a + (b + (c + (d + e)))
  {
  }

  method EncodeClientCmd(c: ClientCmd) returns (b: seq<Byte>)
    requires c.LocationBatch? && c.points != [] ==> Numbered(c.clientSeq, |c.points|)
    ensures b == EncodeClient(c)
  {
    var w := new Writer();
    hide EncodeClient, LocFrames, Numbered;
    if c.LocationBatch? {
      var frames := EncodeLocFrames(c.clientSeq, c.points);
      FirstFrame(c.clientSeq, QuantiseAll(c.points));
      BatchEncodes(c);
      return if frames != [] then frames[0] else [];
    }
    if c.LocationAdd? {
      b := EncodeSingle(c.clientSeq, c.point);
      SingleEncodes(c);
      return;
    }
    WriteCommand(w, c);
    b := w.bytes;
  }

  lemma BatchEncodes(c: ClientCmd)
    requires c.LocationBatch?
    ensures EncodeClient(c) == BatchBytes(c.clientSeq, QuantiseAll(c.points))
  {
    hide BatchBytes, QuantiseAll;
  }

  lemma SingleEncodes(c: ClientCmd)
    requires c.LocationAdd?
    ensures EncodeClient(c) == LocBytes(c.clientSeq % TWO32, [Quantise(c.point)])
  {
    hide LocBytes, Quantise;
  }

  method WriteCommand(w: Writer, c: ClientCmd)
    requires !c.LocationBatch? && !c.LocationAdd? && w.bytes == []
    modifies w
    ensures w.bytes == EncodeClient(c)
  {
    hide PutU16, PutU32, ZeroTimeBytes, PutBytes, OptPointBytes, RouteBytes, T.AckStatusByte, BoolByte, UidBytes;
    match c {
      case Resume(uid, last) =>
        w.U8(C_RESUME);
        w.Raw(UidBytes(uid));
        w.Raw(PutU32(last % TWO32));
        Nested3([C_RESUME], UidBytes(uid), PutU32(last % TWO32));
      case TrackStart(location, route, metadata) =>
        w.U8(C_TRACK_START);
        w.U8(BoolByte(location.Some?));
        WriteOptPoint(w, location);
        WriteRoute(w, route);
        w.LenBytes(metadata);
        Nested5([C_TRACK_START], [BoolByte(location.Some?)], OptPointBytes(location), RouteBytes(route), PutBytes(metadata));
      case TrackStop(_) =>
        w.U8(C_TRACK_STOP);
      case Subscribe(uid, events, interval) =>
        var short: U16 := if interval < 0xFFFF then interval else 0xFFFF;
        w.U8(C_SUBSCRIBE);
        w.Raw(UidBytes(uid));
        w.U8(BoolByte(events));
        w.Raw(PutU16(short));
        Nested4([C_SUBSCRIBE], UidBytes(uid), [BoolByte(events)], PutU16(short));
      case Unsubscribe(sub) =>
        w.U8(C_UNSUBSCRIBE);
        w.U8(sub);
      case Event(_, payload, time) =>
        w.U8(C_EVENT);
        w.LenBytes(payload);
        w.Raw(ZeroTimeBytes(time));
        Nested3([C_EVENT], PutBytes(payload), ZeroTimeBytes(time));
      case CommandAck(id, status, message) =>
        w.U8(C_COMMAND_ACK);
        w.Raw(UidBytes(id));
        w.U8(T.AckStatusByte(status));
        w.LenBytes(message.GetOr([]));
        Nested4([C_COMMAND_ACK], UidBytes(id), [T.AckStatusByte(status)], PutBytes(message.GetOr([])));
    }
  }

  method EncodeSingle(num: U64, point: LatLng) returns (b: seq<Byte>)
    ensures b == LocBytes(num % TWO32, [Quantise(point)])
  {
    hide PutU32, Quantise, PointBytes;
    var w := new Writer();
    w.U8(C_LOC);
    w.Raw(PutU32(num % TWO32));
    w.U8(1);
    WriteAbs(w, point);
    b := w.bytes;
    ghost var f := Quantise(point);
    assert PointsBytes([f], None) == PointBytes(f, None) + [];
  }

  /** A batch is sent as the first frame of its split. */
  lemma FirstFrame(last: U64, fs: seq<Fix>)
    requires fs != [] ==> Numbered(last, |fs|)
    ensures if fs == [] then LocFrames(last, fs) == [] && BatchBytes(last, fs) == []
            else LocFrames(last, fs) != [] && LocFrames(last, fs)[0] == BatchBytes(last, fs)
  {
    hide LocBytes, ChunkEnd;
    if fs != [] {
      var first := last + 1 - |fs|;
      PiecesPartition(first, fs, 0);
      assert Pieces(first, fs, 0)[0].num == last - |fs| + ChunkEnd(fs, 0, 1);
    }
  }

  method EncodeServerEvt(e: ServerEvt) returns (b: seq<Byte>)
    ensures b == EncodeServer(e)
  {
    var w := new Writer();
    hide EncodeServer;
    if e.Hello? || e.Relocate? || e.ResumeOk? || e.TrackStarted? || e.TrackStopped? || e.Ack? {
      WriteSession(w, e);
    } else if e.EventAdded? || e.Command? || e.DevicePresence? {
      WriteDevice(w, e);
    } else {
      WriteListener(w, e);
    }
    b := w.bytes;
  }

  method WriteSession(w: Writer, e: ServerEvt)
    requires e.Hello? || e.Relocate? || e.ResumeOk? || e.TrackStarted? || e.TrackStopped? || e.Ack?
    requires w.bytes == []
    modifies w
    ensures w.bytes == EncodeServer(e)
  {
    hide PutU16, PutU32, PutBytes, UidBytes;
    match e {
      case Hello(version, node, shard) =>
        w.U8(S_HELLO);
        w.U8(version);
        w.Raw(PutU16(shard % TWO16));
        w.Raw(UidBytes(node));
        Nested4([S_HELLO], [version], PutU16(shard % TWO16), UidBytes(node));
      case Relocate(endpoint, retry) =>
        w.U8(S_RELOCATE);
        w.Raw(PutU32(retry));
        w.LenBytes(endpoint);
        Nested3([S_RELOCATE], PutU32(retry), PutBytes(endpoint));
      case ResumeOk(uid, num) =>
        w.U8(S_RESUME_OK);
        w.Raw(UidBytes(uid));
        w.Raw(PutU32(num % TWO32));
        Nested3([S_RESUME_OK], UidBytes(uid), PutU32(num % TWO32));
      case TrackStarted(uid, metadata) =>
        w.U8(S_TRACK_STARTED);
        w.Raw(UidBytes(uid));
        w.LenBytes(metadata);
        Nested3([S_TRACK_STARTED], UidBytes(uid), PutBytes(metadata));
      case TrackStopped(uid) =>
        w.U8(S_TRACK_STOPPED);
        w.Raw(UidBytes(uid));
      case Ack(num) =>
        w.U8(S_ACK);
        w.Raw(PutU32(num % TWO32));
    }
  }

  method WriteListener(w: Writer, e: ServerEvt)
    requires e.LocationAdded? || e.Subscribed? || e.Error?
    requires w.bytes == []
    modifies w
    ensures w.bytes == EncodeServer(e)
  {
    hide PutU32, PutBytes, AbsBytes, T.ErrorCodeByte, UidBytes, SubscribedHeadBytes, SubscribedPartsBytes, SubscribedTailBytes;
    match e {
      case LocationAdded(_, _, point, num, sub) =>
        w.U8(S_LOC);
        w.U8(sub);
        w.Raw(PutU32(num % TWO32));
        WriteAbs(w, point);
        Nested4([S_LOC], [sub], PutU32(num % TWO32), AbsBytes(point));
      case Subscribed(_, _, _, _, _, _, _, _, _, _, _, _) =>
        w.U8(S_SUBSCRIBED);
        WriteSubscribedHead(w, e);
        WriteSubscribedParts(w, e);
        WriteSubscribedTail(w, e);
        Nested4([S_SUBSCRIBED], SubscribedHeadBytes(e), SubscribedPartsBytes(e), SubscribedTailBytes(e));
      case Error(code, message, track, retry) =>
        w.U8(S_ERROR);
        w.U8(T.ErrorCodeByte(code));
        w.Raw(PutU32(retry.GetOr(0)));
        w.Raw(UidBytes(track.GetOr(NoUid)));
        w.LenBytes(message);
        Nested5([S_ERROR], [T.ErrorCodeByte(code)], PutU32(retry.GetOr(0)), UidBytes(track.GetOr(NoUid)), PutBytes(message));
    }
  }

  method WriteDevice(w: Writer, e: ServerEvt)
    requires e.EventAdded? || e.Command? || e.DevicePresence?
    requires w.bytes == []
    modifies w
    ensures w.bytes == EncodeServer(e)
  {
    hide ZeroTimeBytes, PutBytes, UidBytes, BoolByte;
    match e {
      case EventAdded(_, _, payload, time, sub) =>
        w.U8(S_EVENT_ADDED);
        w.U8(sub);
        w.LenBytes(payload);
        w.Raw(ZeroTimeBytes(time));
        Nested4([S_EVENT_ADDED], [sub], PutBytes(payload), ZeroTimeBytes(time));
      case Command(id, payload, time) =>
        w.U8(S_COMMAND);
        w.Raw(UidBytes(id));
        w.LenBytes(payload);
        w.Raw(ZeroTimeBytes(time));
        Nested4([S_COMMAND], UidBytes(id), PutBytes(payload), ZeroTimeBytes(time));
      case DevicePresence(_, online, seen, sub) =>
        w.U8(S_PRESENCE);
        w.U8(sub);
        w.U8(BoolByte(online));
        w.Raw(ZeroTimeBytes(seen));
        Nested4([S_PRESENCE], [sub], [BoolByte(online)], ZeroTimeBytes(seen));
    }
  }

  method WriteSubscribedHead(w: Writer, e: ServerEvt)
    requires e.Subscribed?
    modifies w
    ensures w.bytes == old(w.bytes) + SubscribedHeadBytes(e)
  {
    hide UidBytes, FlagsOf;
    w.U8(e.sub);
    w.Raw(UidBytes(e.deviceUid));
    w.Raw(UidBytes(e.trackUid));
    w.U8(BoolByte(e.online));
    w.U8(FlagsOf(e));
  }

  method WriteSubscribedParts(w: Writer, e: ServerEvt)
    requires e.Subscribed?
    modifies w
    ensures w.bytes == old(w.bytes) + SubscribedPartsBytes(e)
  {
    hide PutI64, OptPointBytes, RouteBytes;
    WriteOptPoint(w, e.lastLocation);
    if e.lastSeenMs.Some? {
      w.Raw(PutI64(e.lastSeenMs.value));
    }
    if e.route != [] {
      WriteRoute(w, e.route);
    }
  }

  method WriteSubscribedTail(w: Writer, e: ServerEvt)
    requires e.Subscribed?
    modifies w
    ensures w.bytes == old(w.bytes) + SubscribedTailBytes(e)
  {
    hide PutBytes;
    w.Raw(e.distance);
    w.Raw(e.duration);
    w.LenBytes(e.startName);
    w.LenBytes(e.endName);
    w.LenBytes(e.metadata);
  }
}
