/** The commands and events of tracking.v2 (src/tracking/cmd.rs) and their binary form
    (src/tracking/codec.rs:349-835), as functions of the whole buffer and a cursor. */
module Messages {
  import opened Wrappers
  import opened Bytes
  import opened Points
  import opened Utf8
  import opened Reading
  import opened Loc
  import T = Types

  const C_RESUME: Byte := 0x01
  const C_TRACK_START: Byte := 0x02
  const C_TRACK_STOP: Byte := 0x03
  const C_SUBSCRIBE: Byte := 0x05
  const C_UNSUBSCRIBE: Byte := 0x06
  const C_EVENT: Byte := 0x07
  const C_COMMAND_ACK: Byte := 0x08

  const S_HELLO: Byte := 0x80
  const S_RELOCATE: Byte := 0x81
  const S_RESUME_OK: Byte := 0x82
  const S_TRACK_STARTED: Byte := 0x83
  const S_TRACK_STOPPED: Byte := 0x84
  const S_ACK: Byte := 0x85
  const S_LOC: Byte := 0x86
  const S_SUBSCRIBED: Byte := 0x87
  const S_ERROR: Byte := 0x88
  const S_EVENT_ADDED: Byte := 0x89
  const S_COMMAND: Byte := 0x8A
  const S_PRESENCE: Byte := 0x8B

  const MAX_ROUTE: nat := 0xFFFF

  datatype ClientCmd =
    | Resume(trackUid: Uid, lastClientSeq: U64)
    | TrackStart(location: Option<LatLng>, route: seq<LatLng>, metadata: seq<Byte>)
    | TrackStop(trackUid: Uid)
    | LocationAdd(trackUid: Uid, clientSeq: U64, point: LatLng)
    | LocationBatch(trackUid: Uid, clientSeq: U64, points: seq<LatLng>)
    | Subscribe(deviceUid: Uid, includeEvents: bool, minIntervalMs: U32)
    | Unsubscribe(sub: Byte)
    | Event(trackUid: Uid, payload: seq<Byte>, timestampMs: Option<I64>)
    | CommandAck(commandId: Uid, status: T.AckStatus, message: Option<Str>)

  datatype ServerEvt =
    | Hello(version: Byte, nodeId: Uid, shard: U32)
    | Relocate(endpoint: Str, retryAfterMs: U32)
    | ResumeOk(trackUid: Uid, lastAckedSeq: U64)
    | TrackStarted(trackUid: Uid, metadata: seq<Byte>)
    | TrackStopped(trackUid: Uid)
    | Ack(num: U64)
    | LocationAdded(deviceUid: Uid, trackUid: Uid, point: LatLng, clientSeq: U64, sub: Byte)
    | Subscribed(sub: Byte, deviceUid: Uid, trackUid: Uid, lastLocation: Option<LatLng>, route: seq<LatLng>,
                 distance: F64, duration: F64, startName: Str, endName: Str, metadata: seq<Byte>,
                 online: bool, lastSeenMs: Option<I64>)
    | Error(code: T.ErrorCode, message: Str, track: Option<Uid>, retryAfter: Option<U32>)
    | EventAdded(deviceUid: Uid, trackUid: Uid, payload: seq<Byte>, timestampMs: Option<I64>, sub: Byte)
    | Command(commandId: Uid, payload: seq<Byte>, timestampMs: Option<I64>)
    | DevicePresence(deviceUid: Uid, online: bool, lastSeenMs: Option<I64>, sub: Byte)

  /** A client frame: a command, or a type this side does not know. */
  datatype ClientDecode = Cmd(cmd: ClientCmd) | Unknown(typ: Byte)

  // ---- Fields ----

  function BoolByte(v: bool): Byte {
    if v then 1 else 0
  }

  function AbsBytes(p: LatLng): seq<Byte> {
    PointBytes(Quantise(p), None)
  }

  function OptPointBytes(p: Option<LatLng>): seq<Byte> {
    if p.Some? then AbsBytes(p.value) else []
  }

  function OptTimeBytes(t: Option<I64>): seq<Byte> {
    if t.Some? then PutI64(t.value) else []
  }

  /** An absent time travels as zero. */
  function ZeroTimeBytes(t: Option<I64>): seq<Byte> {
    PutI64(t.GetOr(0))
  }

  function WirePlace(p: LatLng): Place {
    PlaceOf(Quantise(p))
  }

  function PlacesBytes(ps: seq<LatLng>): seq<Byte> {
    if ps == [] then [] else PlaceBytes(WirePlace(ps[0]), None) + PlacesBytes(ps[1..])
  }

  function RouteCut(route: seq<LatLng>): (r: seq<LatLng>)
    ensures |r| <= MAX_ROUTE && r <= route
  {
    if |route| <= MAX_ROUTE then route else route[..MAX_ROUTE]
  }

  function RouteBytes(route: seq<LatLng>): seq<Byte> {
    PutU16(|RouteCut(route)|) + PlacesBytes(RouteCut(route))
  }

  function OptRouteBytes(route: seq<LatLng>): seq<Byte> {
    if route == [] then [] else RouteBytes(route)
  }

  function OptPointAt(b: seq<Byte>, i: nat, present: bool): (r: Read<Option<LatLng>>)
    requires i <= |b|
    ensures r.Got? ==> i <= r.next <= |b|
  {
    if !present then Got(None, i) else
      var (f, j) :- FixAt(b, i, None);
      Got(Some(Degrees(f)), j)
  }

  /** An absolute position on the globe. */
  function PositionAt(b: seq<Byte>, i: nat): (r: Read<LatLng>)
    requires i <= |b|
    ensures r.Got? ==> i < r.next <= |b|
  {
    var (q, j) :- PlaceAt(b, i, None);
    if !CoordOk(q.lat, q.lon) then Fail(Invalid) else Got(PositionOf(q), j)
  }

  function PositionOf(q: Place): LatLng {
    LatLng(MicroToDeg(q.lat), MicroToDeg(q.lon), None, None, None, None, None)
  }

  function PositionsAt(b: seq<Byte>, i: nat, n: nat): (r: Read<seq<LatLng>>)
    requires i <= |b|
    ensures r.Got? ==> i <= r.next <= |b| && |r.value| == n
    decreases n
  {
    if n == 0 then Got([], i) else
      var (p, j) :- PositionAt(b, i);
      var (ps, k) :- PositionsAt(b, j, n - 1);
      Got([p] + ps, k)
  }

  function RouteAt(b: seq<Byte>, i: nat): (r: Read<seq<LatLng>>)
    requires i <= |b|
    ensures r.Got? ==> i <= r.next <= |b|
  {
    var (n, j) :- U16At(b, i);
    PositionsAt(b, j, n)
  }

  function OptRouteAt(b: seq<Byte>, i: nat, present: bool): (r: Read<seq<LatLng>>)
    requires i <= |b|
    ensures r.Got? ==> i <= r.next <= |b|
  {
    if present then RouteAt(b, i) else Got([], i)
  }

  function ZeroTime(t: I64): Option<I64> {
    if t == 0 then None else Some(t)
  }

  // ---- Client commands ----

  /** The first frame of a batch; later ones are dropped. Its number wraps as the u64 subtraction
      of the source does. */
  function BatchBytes(last: U64, fs: seq<Fix>): seq<Byte> {
    if fs == [] then [] else
      var e := ChunkEnd(fs, 0, 1);
      ChunkLinked(fs, 0, e, None);
      LocBytes((last - |fs| + e) % TWO32, fs[0..e])
  }

  function EncodeClient(c: ClientCmd): seq<Byte> {
    match c
    case Resume(uid, last) => [C_RESUME] + (UidBytes(uid) + PutU32(last % TWO32))
    case TrackStart(location, route, metadata) =>
      [C_TRACK_START] + ([BoolByte(location.Some?)] + (OptPointBytes(location) + (RouteBytes(route) + PutBytes(metadata))))
    case TrackStop(_) => [C_TRACK_STOP]
    case LocationAdd(_, num, point) => LocBytes(num % TWO32, [Quantise(point)])
    case LocationBatch(_, last, points) => BatchBytes(last, QuantiseAll(points))
    case Subscribe(uid, events, interval) =>
      [C_SUBSCRIBE] + (UidBytes(uid) + ([BoolByte(events)] + PutU16(if interval < 0xFFFF then interval else 0xFFFF)))
    case Unsubscribe(sub) => [C_UNSUBSCRIBE] + [sub]
    case Event(_, payload, time) => [C_EVENT] + (PutBytes(payload) + ZeroTimeBytes(time))
    case CommandAck(id, status, message) =>
      [C_COMMAND_ACK] + (UidBytes(id) + ([T.AckStatusByte(status)] + PutBytes(message.GetOr([]))))
  }

  function ResumeAt(b: seq<Byte>, i: nat): (r: Read<ClientCmd>)
    requires i <= |b|
    ensures r.Got? ==> i <= r.next <= |b|
  {
    var (uid, j) :- UuidAt(b, i);
    var (last, k) :- U32At(b, j);
    Got(Resume(uid, last), k)
  }

  function TrackStartAt(b: seq<Byte>, i: nat): (r: Read<ClientCmd>)
    requires i <= |b|
    ensures r.Got? ==> i <= r.next <= |b|
  {
    var (flags, i1) :- U8At(b, i);
    var (location, i2) :- OptPointAt(b, i1, Has(flags, 1));
    var (route, i3) :- RouteAt(b, i2);
    var (metadata, i4) :- BytesAt(b, i3);
    Got(TrackStart(location, route, metadata), i4)
  }

  function LocCmd(body: LocBody): ClientCmd
    requires body.fixes != []
  {
    if |body.fixes| == 1 then LocationAdd(NoUid, body.num, Degrees(body.fixes[0]))
    else LocationBatch(NoUid, body.num, DegreesAll(body.fixes))
  }

  function LocCmdAt(b: seq<Byte>, i: nat): (r: Read<ClientCmd>)
    requires i <= |b|
    ensures r.Got? ==> i <= r.next <= |b|
  {
    var (body, j) :- LocAt(b, i);
    Got(LocCmd(body), j)
  }

  function SubscribeAt(b: seq<Byte>, i: nat): (r: Read<ClientCmd>)
    requires i <= |b|
    ensures r.Got? ==> i <= r.next <= |b|
  {
    var (uid, i1) :- UuidAt(b, i);
    var (flags, i2) :- U8At(b, i1);
    var (interval, i3) :- U16At(b, i2);
    Got(Subscribe(uid, Has(flags, 1), interval), i3)
  }

  function UnsubscribeAt(b: seq<Byte>, i: nat): (r: Read<ClientCmd>)
    requires i <= |b|
    ensures r.Got? ==> i <= r.next <= |b|
  {
    var (sub, j) :- U8At(b, i);
    Got(Unsubscribe(sub), j)
  }

  function EventAt(b: seq<Byte>, i: nat): (r: Read<ClientCmd>)
    requires i <= |b|
    ensures r.Got? ==> i <= r.next <= |b|
  {
    var (payload, j) :- BytesAt(b, i);
    var (time, k) :- I64At(b, j);
    Got(Event(NoUid, payload, ZeroTime(time)), k)
  }

  function CommandAckAt(b: seq<Byte>, i: nat): (r: Read<ClientCmd>)
    requires i <= |b|
    ensures r.Got? ==> i <= r.next <= |b|
  {
    var (id, i1) :- UuidAt(b, i);
    var (status, i2) :- U8At(b, i1);
    var (message, i3) :- StrAt(b, i2);
    Got(CommandAck(id, T.AckStatusFrom(status), if message == [] then None else Some(message)), i3)
  }

  function ClientBodyAt(b: seq<Byte>, i: nat, t: Byte): (r: Read<ClientCmd>)
    requires i <= |b| && 0x01 <= t <= 0x08
    ensures r.Got? ==> i <= r.next <= |b|
  {
    if t == C_RESUME then ResumeAt(b, i)
    else if t == C_TRACK_START then TrackStartAt(b, i)
    else if t == C_TRACK_STOP then Got(TrackStop(NoUid), i)
    else if t == C_LOC then LocCmdAt(b, i)
    else if t == C_SUBSCRIBE then SubscribeAt(b, i)
    else if t == C_UNSUBSCRIBE then UnsubscribeAt(b, i)
    else if t == C_EVENT then EventAt(b, i)
    else CommandAckAt(b, i)
  }

  function ClientAt(b: seq<Byte>, i: nat): (r: Read<ClientDecode>)
    requires i <= |b|
    ensures r.Got? ==> i < r.next <= |b|
  {
    var (t, j) :- U8At(b, i);
    if 0x01 <= t <= 0x08 then
      var (cmd, k) :- ClientBodyAt(b, j, t);
      Got(Cmd(cmd), k)
    else if 0x01 <= t <= 0x7E then Got(Unknown(t), j)
    else Fail(Invalid)
  }

  function DecodeClient(b: seq<Byte>): Result<ClientDecode, DecodeError> {
    ClientAt(b, 0).Outcome()
  }

  // ---- Server events ----

  function SubscribedFlags(location: bool, seen: bool, route: bool): Byte {
    (if location then 1 else 0) + (if seen then 2 else 0) + (if route then 4 else 0)
  }

  function FlagsOf(e: ServerEvt): Byte
    requires e.Subscribed?
  {
    SubscribedFlags(e.lastLocation.Some?, e.lastSeenMs.Some?, e.route != [])
  }

  function SubscribedHeadBytes(e: ServerEvt): seq<Byte>
    requires e.Subscribed?
  {
    [e.sub] + (UidBytes(e.deviceUid) + (UidBytes(e.trackUid) + ([BoolByte(e.online)] + [FlagsOf(e)])))
  }

  function SubscribedPartsBytes(e: ServerEvt): seq<Byte>
    requires e.Subscribed?
  {
    OptPointBytes(e.lastLocation) + (OptTimeBytes(e.lastSeenMs) + OptRouteBytes(e.route))
  }

  function SubscribedTailBytes(e: ServerEvt): seq<Byte>
    requires e.Subscribed?
  {
    e.distance + (e.duration + (PutBytes(e.startName) + (PutBytes(e.endName) + PutBytes(e.metadata))))
  }

  function EncodeServer(e: ServerEvt): seq<Byte> {
    match e
    case Hello(version, node, shard) => [S_HELLO] + ([version] + (PutU16(shard % TWO16) + UidBytes(node)))
    case Relocate(endpoint, retry) => [S_RELOCATE] + (PutU32(retry) + PutBytes(endpoint))
    case ResumeOk(uid, num) => [S_RESUME_OK] + (UidBytes(uid) + PutU32(num % TWO32))
    case TrackStarted(uid, metadata) => [S_TRACK_STARTED] + (UidBytes(uid) + PutBytes(metadata))
    case TrackStopped(uid) => [S_TRACK_STOPPED] + UidBytes(uid)
    case Ack(num) => [S_ACK] + PutU32(num % TWO32)
    case LocationAdded(_, _, point, num, sub) => [S_LOC] + ([sub] + (PutU32(num % TWO32) + AbsBytes(point)))
    case Subscribed(_, _, _, _, _, _, _, _, _, _, _, _) =>
      [S_SUBSCRIBED] + (SubscribedHeadBytes(e) + (SubscribedPartsBytes(e) + SubscribedTailBytes(e)))
    case Error(code, message, track, retry) =>
      [S_ERROR] + ([T.ErrorCodeByte(code)] + (PutU32(retry.GetOr(0)) + (UidBytes(track.GetOr(NoUid)) + PutBytes(message))))
    case EventAdded(_, _, payload, time, sub) => [S_EVENT_ADDED] + ([sub] + (PutBytes(payload) + ZeroTimeBytes(time)))
    case Command(id, payload, time) => [S_COMMAND] + (UidBytes(id) + (PutBytes(payload) + ZeroTimeBytes(time)))
    case DevicePresence(_, online, seen, sub) => [S_PRESENCE] + ([sub] + ([BoolByte(online)] + ZeroTimeBytes(seen)))
  }

  function HelloAt(b: seq<Byte>, i: nat): (r: Read<ServerEvt>)
    requires i <= |b|
    ensures r.Got? ==> i <= r.next <= |b|
  {
    var (version, i1) :- U8At(b, i);
    var (shard, i2) :- U16At(b, i1);
    var (node, i3) :- UuidAt(b, i2);
    Got(Hello(version, node, shard), i3)
  }

  function RelocateAt(b: seq<Byte>, i: nat): (r: Read<ServerEvt>)
    requires i <= |b|
    ensures r.Got? ==> i <= r.next <= |b|
  {
    var (retry, j) :- U32At(b, i);
    var (endpoint, k) :- StrAt(b, j);
    Got(Relocate(endpoint, retry), k)
  }

  function ResumeOkAt(b: seq<Byte>, i: nat): (r: Read<ServerEvt>)
    requires i <= |b|
    ensures r.Got? ==> i <= r.next <= |b|
  {
    var (uid, j) :- UuidAt(b, i);
    var (num, k) :- U32At(b, j);
    Got(ResumeOk(uid, num), k)
  }

  function TrackStartedAt(b: seq<Byte>, i: nat): (r: Read<ServerEvt>)
    requires i <= |b|
    ensures r.Got? ==> i <= r.next <= |b|
  {
    var (uid, j) :- UuidAt(b, i);
    var (metadata, k) :- BytesAt(b, j);
    Got(TrackStarted(uid, metadata), k)
  }

  function TrackStoppedAt(b: seq<Byte>, i: nat): (r: Read<ServerEvt>)
    requires i <= |b|
    ensures r.Got? ==> i <= r.next <= |b|
  {
    var (uid, j) :- UuidAt(b, i);
    Got(TrackStopped(uid), j)
  }

  function AckAt(b: seq<Byte>, i: nat): (r: Read<ServerEvt>)
    requires i <= |b|
    ensures r.Got? ==> i <= r.next <= |b|
  {
    var (num, j) :- U32At(b, i);
    Got(Ack(num), j)
  }

  function LocationAddedAt(b: seq<Byte>, i: nat): (r: Read<ServerEvt>)
    requires i <= |b|
    ensures r.Got? ==> i <= r.next <= |b|
  {
    var (sub, i1) :- U8At(b, i);
    var (num, i2) :- U32At(b, i1);
    var (f, i3) :- FixAt(b, i2, None);
    Got(LocationAdded(NoUid, NoUid, Degrees(f), num, sub), i3)
  }

  datatype SubscribedHead = SubscribedHead(sub: Byte, device: Uid, track: Uid, online: bool, flags: Byte)

  function SubscribedHeadAt(b: seq<Byte>, i: nat): (r: Read<SubscribedHead>)
    requires i <= |b|
    ensures r.Got? ==> i <= r.next <= |b|
  {
    var (sub, i1) :- U8At(b, i);
    var (device, i2) :- UuidAt(b, i1);
    var (track, i3) :- UuidOptAt(b, i2);
    var (online, i4) :- U8At(b, i3);
    var (flags, i5) :- U8At(b, i4);
    Got(SubscribedHead(sub, device, track.GetOr(NoUid), online != 0, flags), i5)
  }

  datatype SubscribedParts = SubscribedParts(location: Option<LatLng>, seen: Option<I64>, route: seq<LatLng>)

  /** What the flags of Subscribed govern. */
  function SubscribedPartsAt(b: seq<Byte>, i: nat, flags: Byte): (r: Read<SubscribedParts>)
    requires i <= |b|
    ensures r.Got? ==> i <= r.next <= |b|
  {
    var (location, i1) :- OptPointAt(b, i, Has(flags, 1));
    var (seen, i2) :- OptI64At(b, i1, Has(flags, 2));
    var (route, i3) :- OptRouteAt(b, i2, Has(flags, 4));
    Got(SubscribedParts(location, seen, route), i3)
  }

  datatype SubscribedTail = SubscribedTail(distance: F64, duration: F64, startName: Str, endName: Str, metadata: seq<Byte>)

  function SubscribedTailAt(b: seq<Byte>, i: nat): (r: Read<SubscribedTail>)
    requires i <= |b|
    ensures r.Got? ==> i <= r.next <= |b|
  {
    var (distance, i1) :- F64At(b, i);
    var (duration, i2) :- F64At(b, i1);
    var (startName, i3) :- StrAt(b, i2);
    var (endName, i4) :- StrAt(b, i3);
    var (metadata, i5) :- BytesAt(b, i4);
    Got(SubscribedTail(distance, duration, startName, endName, metadata), i5)
  }

  function SubscribedAt(b: seq<Byte>, i: nat): (r: Read<ServerEvt>)
    requires i <= |b|
    ensures r.Got? ==> i <= r.next <= |b|
  {
    var (h, i1) :- SubscribedHeadAt(b, i);
    var (p, i2) :- SubscribedPartsAt(b, i1, h.flags);
    var (t, i3) :- SubscribedTailAt(b, i2);
    Got(Subscribed(h.sub, h.device, h.track, p.location, p.route, t.distance, t.duration, t.startName, t.endName, t.metadata,
                   h.online, p.seen), i3)
  }

  /** The code is checked before anything else is read. */
  function ErrorAt(b: seq<Byte>, i: nat): (r: Read<ServerEvt>)
    requires i <= |b|
    ensures r.Got? ==> i <= r.next <= |b|
  {
    var (code, i1) :- U8At(b, i);
    if T.ErrorCodeFrom(code).None? then Fail(Invalid) else
      var (retry, i2) :- U32At(b, i1);
      var (track, i3) :- UuidOptAt(b, i2);
      var (message, i4) :- StrAt(b, i3);
      Got(Error(T.ErrorCodeFrom(code).value, message, track, if retry == 0 then None else Some(retry)), i4)
  }

  function EventAddedAt(b: seq<Byte>, i: nat): (r: Read<ServerEvt>)
    requires i <= |b|
    ensures r.Got? ==> i <= r.next <= |b|
  {
    var (sub, i1) :- U8At(b, i);
    var (payload, i2) :- BytesAt(b, i1);
    var (time, i3) :- I64At(b, i2);
    Got(EventAdded(NoUid, NoUid, payload, ZeroTime(time), sub), i3)
  }

  function CommandAt(b: seq<Byte>, i: nat): (r: Read<ServerEvt>)
    requires i <= |b|
    ensures r.Got? ==> i <= r.next <= |b|
  {
    var (id, i1) :- UuidAt(b, i);
    var (payload, i2) :- BytesAt(b, i1);
    var (time, i3) :- I64At(b, i2);
    Got(Command(id, payload, ZeroTime(time)), i3)
  }

  function PresenceAt(b: seq<Byte>, i: nat): (r: Read<ServerEvt>)
    requires i <= |b|
    ensures r.Got? ==> i <= r.next <= |b|
  {
    var (sub, i1) :- U8At(b, i);
    var (online, i2) :- U8At(b, i1);
    var (time, i3) :- I64At(b, i2);
    Got(DevicePresence(NoUid, online != 0, ZeroTime(time), sub), i3)
  }

  function ServerBodyAt(b: seq<Byte>, i: nat, t: Byte): (r: Read<ServerEvt>)
    requires i <= |b| && 0x80 <= t <= 0x8B
    ensures r.Got? ==> i <= r.next <= |b|
  {
    if t == S_HELLO then HelloAt(b, i)
    else if t == S_RELOCATE then RelocateAt(b, i)
    else if t == S_RESUME_OK then ResumeOkAt(b, i)
    else if t == S_TRACK_STARTED then TrackStartedAt(b, i)
    else if t == S_TRACK_STOPPED then TrackStoppedAt(b, i)
    else if t == S_ACK then AckAt(b, i)
    else if t == S_LOC then LocationAddedAt(b, i)
    else if t == S_SUBSCRIBED then SubscribedAt(b, i)
    else if t == S_ERROR then ErrorAt(b, i)
    else if t == S_EVENT_ADDED then EventAddedAt(b, i)
    else if t == S_COMMAND then CommandAt(b, i)
    else PresenceAt(b, i)
  }

  /** None for a server type that may come with a later version. */
  function ServerAt(b: seq<Byte>, i: nat): (r: Read<Option<ServerEvt>>)
    requires i <= |b|
    ensures r.Got? ==> i < r.next <= |b|
  {
    var (t, j) :- U8At(b, i);
    if 0x80 <= t <= 0x8B then
      var (evt, k) :- ServerBodyAt(b, j, t);
      Got(Some(evt), k)
    else if t == 0x8C || t == 0xFF || t < 0x80 then Fail(Invalid)
    else Got(None, j)
  }

  function DecodeServer(b: seq<Byte>): Result<Option<ServerEvt>, DecodeError> {
    ServerAt(b, 0).Outcome()
  }
}
