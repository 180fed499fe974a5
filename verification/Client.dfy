/** The client object of src/tracking/client.rs: the fields behind its mutex, and one method for
    each lock section or handler. A method that stands for a lock section is proved to do what the
    function of Engine of the same kind does; a handler, what that section and its flush do
    together. The `log` is history and is never read. */
module Client {
  import opened Wrappers
  import opened Bytes
  import opened Points
  import opened Reading
  import opened Loc
  import opened LocWriter
  import opened Queue
  import opened Backoff
  import opened Engine
  import opened Runs
  import opened Safety
  import opened Handlers
  import M = Messages
  import R = RoundTrip
  import C = Codec
  import T = Types

  // ---- What one pass of flush_queue writes ----

  lemma {:induction false} RecordAllSnoc(q: Buffer, pieces: seq<Piece>, p: Piece)
    ensures RecordAll(q, pieces + [p]) == RecordFrame(RecordAll(q, pieces), p.num % TWO32)
    decreases pieces
  {
    hide RecordFrame;
    if pieces == [] {
      assert ([p])[1..] == [];
    } else {
      var r := RecordFrame(q, pieces[0].num % TWO32);
      RecordAllSnoc(r, pieces[1..], p);
      assert (pieces + [p])[1..] == pieces[1..] + [p];
    }
  }

  lemma NoneRecorded(q: Buffer)
    ensures RecordAll(q, []) == q
  {
  }

  /** Every frame is its piece, and says its piece's number in bytes 1..5. */
  lemma {:induction false} FrameAt(pieces: seq<Piece>, next: nat, k: nat)
    requires Chained(pieces, next) && k < |pieces|
    ensures PieceOk(pieces[k]) && Frames(pieces, next)[k] == PieceBytes(pieces[k])
    ensures |PieceBytes(pieces[k])| >= 5 && GetU32(PieceBytes(pieces[k])[1..5]) == pieces[k].num % TWO32
    decreases k
  {
    hide PieceOk, PieceBytes, GetU32;
    if k == 0 {
      NumberInFrame(pieces[0]);
    } else {
      FrameAt(pieces[1..], pieces[0].num + 1, k - 1);
    }
  }

  lemma NumberInFrame(p: Piece)
    requires PieceOk(p)
    ensures |PieceBytes(p)| >= 5 && GetU32(PieceBytes(p)[1..5]) == p.num % TWO32
  {
    GetPutU32(p.num % TWO32);
    hide GetU32, PutU32, PointsBytes, Linked;
    assert PieceBytes(p)[1..5] == PutU32(p.num % TWO32);
  }

  /** Recording the next frame under the number it carries. */
  lemma RecordStep(q: Buffer, pieces: seq<Piece>, next: nat, k: nat)
    requires Chained(pieces, next) && k < |pieces|
    ensures var frame, r := Frames(pieces, next)[k], RecordAll(q, pieces[..k + 1]);
            && |frame| >= 5 && r == RecordFrame(RecordAll(q, pieces[..k]), GetU32(frame[1..5])) && |r.frames| == |q.frames| + k + 1
            && Frames(pieces, next)[..k + 1] == Frames(pieces, next)[..k] + [frame]
  {
    hide Frames, Chained, PieceOk, PieceBytes, RecordFrame, RecordAll, GetU32;
    FrameAt(pieces, next, k);
    RecordAllSnoc(q, pieces[..k], pieces[k]);
    assert pieces[..k + 1] == pieces[..k] + [pieces[k]];
    RecordAllCounts(q, pieces[..k + 1]);
  }

  lemma {:induction false} FramesAreBuilt(epoch: nat, track: Uid, pieces: seq<Piece>, next: nat)
    requires Chained(pieces, next)
    ensures BytesOf(BuiltFrom(epoch, track, pieces, next)) == Frames(pieces, next)
    decreases pieces
  {
    hide PieceOk, PieceBytes;
    if pieces != [] {
      FramesAreBuilt(epoch, track, pieces[1..], pieces[0].num + 1);
      var b := BuiltFrom(epoch, track, pieces, next);
      var r := BuiltFrom(epoch, track, pieces[1..], pieces[0].num + 1);
      assert b == [b[0]] + r && BytesOf(b) == [b[0].bytes] + BytesOf(r);
    } else {
      assert BuiltFrom(epoch, track, pieces, next) == [];
    }
  }

  lemma {:induction false} FramesPrefix(pieces: seq<Piece>, next: nat, k: nat)
    requires Chained(pieces, next) && k <= |pieces|
    ensures Chained(pieces[..k], next) && Frames(pieces[..k], next) == Frames(pieces, next)[..k]
    decreases k
  {
    hide PieceOk, PieceBytes;
    if k > 0 {
      FramesPrefix(pieces[1..], pieces[0].num + 1, k - 1);
      assert pieces[..k][1..] == pieces[1..][..k - 1];
    }
  }

  /** flush_queue gives up at the first send that fails; with the writer gone that is the first. */
  ghost function Flushed(st: State, alive: bool): State
    requires Delivery(st) && Room(st.s)
  {
    if alive then FlushAll(st) else PickedHasRoom(st.s); FlushPass(st)
  }

  lemma FlushedIs(st: State, alive: bool)
    requires Delivery(st) && Room(st.s)
    ensures PickedOk(st.s) && Flushed(st, alive) == if alive then FlushAll(st) else FlushPass(st)
    ensures FlushIdle(st.s) ==> FlushPass(st) == st && FlushAll(st) == st
  {
    IdlePass(st);
    hide Delivery, Room, FlushIdle, Picked, PickedOk;
  }

  /** A working pass, its frames sent, leaves less to flush. */
  lemma FlushOn(st: State)
    requires Delivery(st) && Room(st.s) && !FlushIdle(st.s)
    ensures PickedOk(st.s)
    ensures var p := FlushPass(st);
            && p.s.conn.Open? && p.s.socket.Some? && |st.log.built| <= |p.log.built|
            && var r := Transmit(p, |st.log.built|);
               && Delivery(r) && Room(r.s) && WindowRemaining(r.s.queue) < WindowRemaining(st.s.queue)
               && FlushAll(st) == FlushAll(r)
  {
    PassWorks(st);
    Sent1(st);
    hide Delivery, Room, FlushPass, Consecutive, NextToSend, Transmit;
  }

  /** A send goes through. */
  predicate Sends(s: Session, alive: bool) {
    !(s.conn.Closed? && s.intentional) && s.socket.Some? && alive
  }

  /** The automatic start: the point becomes the start location. */
  ghost function AutoStarted(st: State, stamped: LatLng, alive: bool): State {
    var h := HandOver(FreshTrack(st), M.EncodeClient(M.TrackStart(Some(stamped), [], [])), alive);
    if Sends(h.s, alive) then h else AutoStartFailed(h)
  }

  ghost function SentLive(st: State, flat: Flat, point: LatLng, alive: bool): State {
    HandOver(PublishLive(st, flat, point), SingleBytes(st.s.lastAssigned + 1, FixOf(point, true)), alive)
  }

  /** publish, whole. */
  ghost function Published(st: State, flat: Flat, stamped: LatLng, inTime: bool, emitted: Option<LatLng>, alive: bool): State {
    if Idle(st.s) then AutoStarted(st, stamped, alive)
    else if !inTime || emitted.None? then st
    else if Live(st.s) then SentLive(st, flat, emitted.value, alive)
    else PublishStaged(st, flat, emitted.value)
  }

  /** `r` is `st` with one more frame on the wire of its socket. */
  ghost predicate OneMoreFrame(st: State, r: State) {
    && st.s.socket.Some? && |r.log.wire| == |st.log.wire| + 1
    && r.log.wire[..|st.log.wire|] == st.log.wire && r.log.wire[|st.log.wire|].gen == st.s.socket.value
  }

  /** The first point of a trip became the place of a TrackStart: that one frame went out, and what it
      decodes to names the point and nothing else; the queue and the counters are empty, and the client
      waits for a track. A point off the globe goes out as well, and the server will refuse it. */
  ghost predicate TripOpened(st: State, r: State, stamped: LatLng) {
    && OneMoreFrame(st, r)
    && M.DecodeClient(r.log.wire[|st.log.wire|].bytes)
       == (if InRange(stamped) then Ok(M.Cmd(M.TrackStart(Some(NormPoint(stamped)), [], []))) else Err(Invalid))
    && r.s.queue.staging == [] && r.s.queue.inflight == [] && r.s.queue.frames == [] && r.s.lastAssigned == 0 && r.s.lastAcked == 0
    && r.s.trackUid.NoUid? && r.s.starting && !r.s.ready && r.log.emitted == st.log.emitted
  }

  /** The first publish of an idle client, and a publish that the limiter or the filter stops. */
  lemma PublishOpensTrip(flat: Flat, st: State, stamped: LatLng, inTime: bool, emitted: Option<LatLng>, alive: bool)
    ensures var r := Published(st, flat, stamped, inTime, emitted, alive);
            && (st.s.trackUid.NoUid? && !st.s.starting && Sends(st.s, alive) ==> TripOpened(st, r, stamped))
            && (st.s.trackUid.NoUid? && !st.s.starting && !Sends(st.s, alive) ==>
                  r.log.wire == st.log.wire && !r.s.starting && r.s.queue.staging == [] && r.s.queue.inflight == [])
            && ((!st.s.trackUid.NoUid? || st.s.starting) && (!inTime || emitted.None?) ==> r == st)
  {
    hide M.EncodeClient, M.DecodeClient, PublishLive, PublishStaged, SentLive, Live, Held, NormPoint, InRange;
    var c := M.TrackStart(Some(stamped), [], []);
    R.StartTravels(Some(stamped), [], []);
    assert R.Positions([]) == [];
  }

  /** With the writer there, that is the handler of Handlers: the wire gets the frame when it is built. */
  lemma PublishedIsHandled(flat: Flat, st: State, stamped: LatLng, point: LatLng)
    requires Inv(st) && HandlerAllowed(flat, st, EPublish(point)) && !Idle(st.s)
    ensures Published(st, flat, stamped, true, Some(point), true) == Handle(flat, st, EPublish(point))
  {
    assert Shape(st.s.queue, st.s.lastAssigned);
    assert Step(flat, st, EPublish(point)) == Engine.Publish(st, flat, point);
    hide Inv, Allowed, Shape, PublishStaged, PublishLive, SentLive, Live, Idle, Transmit;
    if Live(st.s) {
      LiveTransmits(flat, st, point);
    } else {
      StagedQuiet(flat, st, point);
      NothingNew(PublishStaged(st, flat, point), st);
    }
  }

  lemma LiveTransmits(flat: Flat, st: State, point: LatLng)
    requires Live(st.s)
    ensures |st.log.built| <= |PublishLive(st, flat, point).log.built|
    ensures SentLive(st, flat, point, true) == Transmit(PublishLive(st, flat, point), |st.log.built|)
  {
    LiveBuilds(flat, st, point);
    hide PublishLive, SingleBytes, FixOf, WindowFull;
    var r := PublishLive(st, flat, point);
    var b := r.log.built[|st.log.built|];
    assert Outgoing(r.s.socket.value, [b]) == [Sent(r.s.socket.value, b.bytes)];
  }

  lemma LiveBuilds(flat: Flat, st: State, point: LatLng)
    requires Live(st.s)
    ensures var r := PublishLive(st, flat, point);
            && |r.log.built| == |st.log.built| + 1 && r.s.socket == st.s.socket && r.s.conn == st.s.conn && r.s.intentional == st.s.intentional
            && r.log.built[|st.log.built|..] == [r.log.built[|st.log.built|]]
            && r.log.built[|st.log.built|].bytes == SingleBytes(st.s.lastAssigned + 1, FixOf(point, true))
  {
    hide Held, Enqueue, RecordFrame, SingleBytes, FixOf;
  }

  lemma SingleCommand(num: nat, point: LatLng)
    requires num < TWO32
    ensures M.EncodeClient(M.LocationAdd(NoUid, num, point.(timestampMs := None))) == SingleBytes(num, FixOf(point, true))
  {
    hide Quantise, LocBytes;
  }

  lemma AckRoom(st: State, num: U32)
    requires Room(st.s)
    ensures Room(Engine.Ack(st, num).s)
  {
    hide Held, KeepAbove, FramesAbove;
  }

  lemma WireKeepsInv(st: State, r: State)
    requires Inv(st) && r == st.(log := st.log.(wire := r.log.wire))
    ensures Inv(r)
  {
    hide Shape, Labelled, NamesBelow, AllAgree, Held, Emitted, Increasing;
    assert r.s == st.s;
  }

  /** These lock sections are steps. */
  lemma StepsAre(flat: Flat, st: State)
    requires Shape(st.s.queue, st.s.lastAssigned)
    ensures PickedOk(st.s) && Step(flat, st, EFlush) == FlushPass(st)
    ensures Step(flat, st, EAutoStart) == AutoStart(st) && Step(flat, st, EAutoStartFailed) == AutoStartFailed(st)
  {
    PickedHasRoom(st.s);
    hide Shape, FlushPass, AutoStart, AutoStartFailed;
  }

  lemma PassKeepsInv(flat: Flat, st: State)
    requires Inv(st) && Room(st.s)
    ensures Delivery(st) && PickedOk(st.s) && Inv(FlushPass(st))
  {
    InvParts(st);
    InvShape(st);
    AllowedFlush(st);
    hide *;
    StepsAre(flat, st);
    InvStep(flat, st, EFlush);
  }

  lemma AllowedFlush(st: State)
    ensures Allowed(st, EFlush) <==> Room(st.s)
    ensures Allowed(st, EAutoStart) && Allowed(st, EAutoStartFailed)
  {
    hide Room;
  }

  lemma {:induction false} FlushAllKeepsInv(flat: Flat, st: State)
    requires Inv(st) && Room(st.s)
    ensures Delivery(st) && Inv(FlushAll(st))
    decreases WindowRemaining(st.s.queue)
  {
    PassKeepsInv(flat, st);
    hide Inv, Delivery, FlushPass, FlushIdle, Room, PassEffect, PickedOk;
    if !FlushIdle(st.s) {
      PassWorks(st);
      Sent1(st);
      var p := FlushPass(st);
      WireKeepsInv(p, Transmit(p, |st.log.built|));
      FlushAllKeepsInv(flat, Transmit(p, |st.log.built|));
    }
  }

  /** Every handler of the class leaves a state from which the next may run, whether or not its
      sends went through. */
  lemma HandlersKeepInv(flat: Flat, st: State, stamped: LatLng, inTime: bool, emitted: Option<LatLng>, alive: bool)
    requires Inv(st) && Room(st.s)
    ensures Delivery(st) && Inv(Flushed(st, alive))
    ensures Inv(Published(st, flat, stamped, inTime, emitted, alive))
  {
    PassKeepsInv(flat, st);
    FlushAllKeepsInv(flat, st);
    PublishedKeepsInv(flat, st, stamped, inTime, emitted, alive);
    hide Inv, Delivery, FlushPass, Published, FlushAll, PickedOk;
  }

  lemma PublishedKeepsInv(flat: Flat, st: State, stamped: LatLng, inTime: bool, emitted: Option<LatLng>, alive: bool)
    requires Inv(st) && Room(st.s)
    ensures Inv(Published(st, flat, stamped, inTime, emitted, alive))
  {
    InvShape(st);
    hide Inv, Shape, Room, PublishLive, PublishStaged, AutoStarted, Live, SentLive, Idle;
    if Idle(st.s) {
      AutoStartKeepsInv(flat, st, stamped, alive);
    } else if inTime && emitted.Some? {
      EmittedKeepsInv(flat, st, emitted.value, alive);
    }
  }

  lemma EmittedKeepsInv(flat: Flat, st: State, point: LatLng, alive: bool)
    requires Inv(st) && Room(st.s)
    ensures Inv(if Live(st.s) then SentLive(st, flat, point, alive) else PublishStaged(st, flat, point))
  {
    InvShape(st);
    hide *;
    PublishStep(flat, st, point);
    InvStep(flat, st, EPublish(point));
    if Live(st.s) {
      var bytes := SingleBytes(st.s.lastAssigned + 1, FixOf(point, true));
      SentKeepsInv(flat, PublishLive(st, flat, point), bytes, alive);
      SentLiveIs(st, flat, point, alive);
    }
  }

  lemma SentLiveIs(st: State, flat: Flat, point: LatLng, alive: bool)
    ensures SentLive(st, flat, point, alive)
            == HandOver(PublishLive(st, flat, point), SingleBytes(st.s.lastAssigned + 1, FixOf(point, true)), alive)
  {
    hide HandOver, PublishLive, SingleBytes, FixOf;
  }

  lemma AutoStartKeepsInv(flat: Flat, st: State, stamped: LatLng, alive: bool)
    requires Inv(st) && Idle(st.s)
    ensures Inv(AutoStarted(st, stamped, alive))
  {
    InvShape(st);
    AllowedFlush(st);
    hide Inv, Shape, Room, Allowed, Step, FreshTrack, M.EncodeClient, HandOver, AutoStartFailed;
    StepsAre(flat, st);
    InvStep(flat, st, EAutoStart);
    var bytes := M.EncodeClient(M.TrackStart(Some(stamped), [], []));
    SentKeepsInv(flat, FreshTrack(st), bytes, alive);
    StartFailureKeepsInv(flat, HandOver(FreshTrack(st), bytes, alive));
  }

  lemma SentKeepsInv(flat: Flat, st: State, bytes: seq<Byte>, alive: bool)
    requires Inv(st)
    ensures Inv(HandOver(st, bytes, alive))
  {
    hide Inv;
    WireKeepsInv(st, HandOver(st, bytes, alive));
  }

  lemma StartFailureKeepsInv(flat: Flat, st: State)
    requires Inv(st)
    ensures Inv(AutoStartFailed(st))
  {
    InvShape(st);
    AllowedFlush(st);
    hide *;
    StepsAre(flat, st);
    InvStep(flat, st, EAutoStartFailed);
  }

  class Client {
    const queue: OfflineQueue
    const reconnects: Reconnects
    var conn: Connection
    var trackUid: Uid
    var lastAssigned: nat
    var lastAcked: nat
    var ready: bool
    var intentional: bool
    var dialGen: nat
    var outTx: Option<nat>
    var startWait: bool
    var stopWait: bool
    var resumeWait: bool
    var starting: bool
    /** Whether anyone still drains the channel of the current writer. */
    var writerAlive: bool
    /** How many points the filter let out; it gives each its identity and decides nothing. */
    var emitted: nat
    ghost var log: Log

    ghost function View(): State
      reads this, queue, reconnects
    {
      State(Session(trackUid, lastAssigned, lastAcked, queue.View(), ready, conn, outTx, dialGen, intentional,
                    starting, startWait, stopWait, resumeWait, reconnects.View()),
            log.(emitted := emitted))
    }

    constructor (flat: Flat, maxQueue: nat, minDelay: nat, maxDelay: nat, maxAttempts: nat)
      ensures View() == Initial(maxQueue, NewBackoff(minDelay, maxDelay, maxAttempts))
      ensures queue.flat == flat && fresh(queue) && fresh(reconnects)
    {
      queue := new OfflineQueue(flat, maxQueue);
      reconnects := new Reconnects(minDelay, maxDelay, maxAttempts);
      conn, trackUid, lastAssigned, lastAcked := Connecting, NoUid, 0, 0;
      ready, intentional, dialGen, outTx := false, false, 0, None;
      startWait, stopWait, resumeWait, starting := false, false, false, false;
      writerAlive, emitted := false, 0;
      log := Log(0, map[], [], 0, 0, multiset{}, multiset{}, multiset{}, {}, [], [], 0);
    }

    // ---- Sending ----

    method SendBin(bytes: seq<Byte>) returns (ok: bool)
      modifies this`log
      ensures View() == HandOver(old(View()), bytes, writerAlive)
      ensures ok == (!(conn.Closed? && intentional) && outTx.Some? && writerAlive)
    {
      if conn.Closed? && intentional {
        return false;
      }
      if outTx.None? {
        return false;
      }
      if !writerAlive {
        return false;
      }
      log := log.(wire := log.wire + [Sent(outTx.value, bytes)]);
      ok := true;
    }

    // ---- flush_queue ----

    /** The points of this pass: what is unsent, else the next of Staging under new numbers. */
    method Pick(remaining: nat) returns (picked: seq<Queued>)
      requires remaining == WindowRemaining(queue.View())
      modifies this`lastAssigned, queue
      ensures picked == Picked(old(View()).s)
      ensures View().s == if picked == [] then old(View()).s else Claimed(old(View()).s)
      ensures log == old(log)
    {
      picked := queue.UnsentInflight();
      if picked == [] {
        var take := if |queue.staging| <= MAX_LOC_POINTS * remaining then |queue.staging| else MAX_LOC_POINTS * remaining;
        if take == 0 {
          return;
        }
        picked := queue.AssignFromStaging(take, lastAssigned);
        lastAssigned := picked[|picked| - 1].num;
      }
    }

    /** Record and keep frames until the window is full. */
    method Record(encoded: seq<seq<Byte>>, remaining: nat, ghost pieces: seq<Piece>, ghost next: nat) returns (frames: seq<seq<Byte>>)
      requires Chained(pieces, next) && encoded == Frames(pieces, next)
      requires remaining == WindowRemaining(queue.View()) > 0
      modifies queue
      ensures var k := Min(|pieces|, remaining);
              frames == encoded[..k] && queue.View() == RecordAll(old(queue.View()), pieces[..k])
    {
      ghost var q := queue.View();
      hide Frames, Chained, PieceOk, PieceBytes, RecordFrame, RecordAll, GetU32;
      NoneRecorded(q);
      frames := [];
      var k := 0;
      while k < |encoded|
        invariant k <= |encoded| && k <= remaining
        invariant frames == encoded[..k]
        invariant queue.View() == RecordAll(q, pieces[..k]) && |queue.sentFrameSeqs| == |q.frames| + k
      {
        if |queue.sentFrameSeqs| >= MAX_UNACKED_FRAMES {
          break;
        }
        var frame := encoded[k];
        RecordStep(q, pieces, next, k);
        var num := if |frame| >= 5 then GetU32(frame[1..5]) else 0;
        queue.Record(num);
        frames := frames + [frame];
        k := k + 1;
        if |frames| >= remaining {
          break;
        }
      }
    }

    /** One pass of the loop, under the lock. */
    method TakeFrames() returns (frames: seq<seq<Byte>>)
      requires Delivery(View()) && Room(View().s)
      modifies this`lastAssigned, this`log, queue
      ensures PickedOk(old(View()).s) && View() == FlushPass(old(View()))
      ensures log.built == old(log).built + log.built[|old(log).built|..] && frames == BytesOf(log.built[|old(log).built|..])
      ensures frames == [] <==> FlushIdle(old(View()).s)
    {
      ghost var st := View();
      PassStarts(st);
      if !ready || !conn.Open? || outTx.None? {
        NothingBuilt(log.built);
        return [];
      }
      var remaining := if |queue.sentFrameSeqs| >= MAX_UNACKED_FRAMES then 0 else MAX_UNACKED_FRAMES - |queue.sentFrameSeqs|;
      if remaining == 0 {
        NothingBuilt(log.built);
        return [];
      }
      hide Delivery, Picked, Claimed, Room, FlushPass, FlushIdle, PickedOk, HasRoom;
      var picked := Pick(remaining);
      if picked == [] {
        NothingBuilt(log.built);
        return [];
      }
      frames := EncodePicked(picked, remaining, st);
    }

    method EncodePicked(picked: seq<Queued>, remaining: nat, ghost st: State) returns (frames: seq<seq<Byte>>)
      requires Delivery(st) && Room(st.s) && !FlushIdle(st.s) && PickedOk(st.s)
      requires picked == Picked(st.s) != []
      requires View() == State(Claimed(st.s), st.log) && remaining == WindowRemaining(queue.View()) == WindowRemaining(st.s.queue) > 0
      modifies this`log, queue
      ensures View() == FlushPass(st)
      ensures log.built == st.log.built + log.built[|st.log.built|..] && frames == BytesOf(log.built[|st.log.built|..])
      ensures frames != []
    {
      assert HasRoom(picked);
      hide Delivery, Picked, Claimed, Room, FlushPass, FlushIdle, PickedOk, LocFrames, HasRoom, Frames, Pieces, Chained, Numbered,
        Sending, Fixes, FirstNum, NewNames, BuiltFrom, PointsOf, RecordAll, CanSend;
      var last := picked[|picked| - 1].num;
      var points := PointsOf(picked);
      PassPieces(st);
      var encoded := EncodeLocFrames(last, points);
      frames := Record(encoded, remaining, Pieces(FirstNum(picked), Fixes(picked), 0), FirstNum(picked));
      log := log.(names := log.names + NewNames(log.epoch, picked),
                  built := log.built + BuiltFrom(log.epoch, trackUid, Sending(st.s), FirstNum(picked)));
      PassDone(st, View(), frames);
    }

    // ---- flush_queue's loop ----

    method FlushQueue()
      requires Delivery(View()) && Room(View().s)
      modifies this`lastAssigned, this`log, queue
      ensures View() == Flushed(old(View()), writerAlive)
    {
      ghost var start := View();
      hide Delivery, Room, FlushPass, FlushAll, FlushIdle, Flushed, PickedOk, Transmit;
      while true
        invariant Delivery(View()) && Room(View().s)
        invariant if writerAlive then FlushAll(View()) == FlushAll(start) else View() == start
        decreases WindowRemaining(queue.View())
      {
        ghost var st := View();
        FlushedIs(st, writerAlive);
        FlushedIs(start, writerAlive);
        var frames := TakeFrames();
        if frames == [] {
          return;
        }
        FlushOn(st);
        var sent := SendFrames(frames, st);
        if !sent {
          return;
        }
      }
    }

    /** Frames go out until one fails. */
    method SendFrames(frames: seq<seq<Byte>>, ghost st: State) returns (sent: bool)
      requires frames != [] && conn.Open? && outTx.Some?
      requires |st.log.built| <= |log.built| && frames == BytesOf(log.built[|st.log.built|..])
      modifies this`log
      ensures sent == writerAlive
      ensures View() == if sent then Transmit(old(View()), |st.log.built|) else old(View())
    {
      ghost var v := View();
      ghost var bs := log.built[|st.log.built|..];
      assert log.wire + Outgoing(outTx.value, bs[..0]) == log.wire;
      for k := 0 to |frames|
        invariant k > 0 ==> writerAlive
        invariant View() == v.(log := v.log.(wire := v.log.wire + Outgoing(outTx.value, bs[..k])))
      {
        var ok := SendBin(frames[k]);
        if !ok {
          return false;
        }
        assert Outgoing(outTx.value, bs[..k + 1]) == Outgoing(outTx.value, bs[..k]) + [Sent(outTx.value, frames[k])];
      }
      assert bs[..|frames|] == bs;
      sent := true;
    }

    // ---- Dialing ----

    method BeginDial() returns (gen: nat)
      modifies this`dialGen, this`ready, this`conn, this`log
      ensures View() == DialBegin(old(View())) && gen == dialGen
    {
      dialGen := dialGen + 1;
      ready := false;
      conn := if conn.Open? || conn.Reconnecting? then Reconnecting else Connecting;
      gen := dialGen;
      log := log.(dials := log.dials + {gen});
    }

    /** After Hello. A dial that was overtaken, or that a close overtook, installs nothing. */
    method InstallDial(gen: nat) returns (installed: bool)
      requires gen in log.dials
      modifies this`outTx, this`conn, this`writerAlive, this`log, reconnects
      ensures View() == DialInstall(old(View()), gen)
      ensures installed == (gen == dialGen && !intentional)
      ensures writerAlive == (installed || old(writerAlive))
    {
      log := log.(dials := log.dials - {gen});
      if gen != dialGen || intentional {
        return false;
      }
      outTx := Some(gen);
      conn := Open;
      reconnects.ResetAttempts();
      writerAlive := true;
      log := log.(installed := log.installed + [gen]);
      installed := true;
    }

    /** A dial that failed before Hello: no lock section, only history. */
    method AbandonDial(gen: nat)
      modifies this`log
      ensures View() == DialAbandon(old(View()), gen)
    {
      log := log.(dials := log.dials - {gen});
    }

    // ---- Server events ----

    method DropAcked(ack: nat)
      modifies this`log, queue
      ensures var st, q := old(View()), AckThrough(old(queue.View()), ack);
              View() == State(st.s.(queue := q), st.log.(acked := st.log.acked + (Held(st.s.queue) - Held(q))))
    {
      hide Held, AckThrough;
      ghost var held := Held(queue.View());
      queue.Ack(ack);
      log := log.(acked := log.acked + (held - Held(queue.View())));
    }

    method TakeCursor(uid: Uid, ack: U32)
      modifies this`trackUid, this`lastAcked, this`lastAssigned
      ensures var st := old(View());
              View() == st.(s := st.s.(trackUid := if uid.NoUid? then st.s.trackUid else uid, lastAcked := ack,
                                       lastAssigned := Max(st.s.lastAssigned, ack)))
    {
      if !uid.NoUid? {
        trackUid := uid;
      }
      lastAcked := ack;
      if lastAssigned < lastAcked {
        lastAssigned := lastAcked;
      }
    }

    method ResumeOkLocked(uid: Uid, ack: U32)
      modifies this`trackUid, this`lastAcked, this`lastAssigned, this`ready, this`resumeWait, this`log, queue
      ensures View() == ResumeOk(old(View()), uid, ack)
    {
      hide Held, AckThrough;
      TakeCursor(uid, ack);
      DropAcked(ack);
      ready, resumeWait := true, false;
      log := log.(sessionStart := |log.built|);
    }

    /** ResumeOk: take the server's cursor, then send what it does not have. */
    method OnResumeOk(uid: Uid, ack: U32)
      requires Inv(View()) && Room(ResumeOk(View(), uid, ack).s)
      modifies this, queue
      ensures Delivery(ResumeOk(old(View()), uid, ack))
      ensures View() == Flushed(ResumeOk(old(View()), uid, ack), writerAlive) && writerAlive == old(writerAlive)
    {
      ghost var st := View();
      assert Delivery(st);
      hide Inv, Room, Delivery, Engine.ResumeOk;
      ResumeOkDelivery(st, uid, ack);
      ResumeOkLocked(uid, ack);
      FlushQueue();
    }

    method AckLocked(num: U32)
      modifies this`lastAcked, this`log, queue
      ensures View() == Engine.Ack(old(View()), num)
    {
      hide Held, AckThrough;
      if num > lastAcked {
        lastAcked := num;
      }
      DropAcked(num);
    }

    method OnAck(num: U32)
      requires Inv(View()) && Room(View().s)
      modifies this, queue
      ensures Delivery(Engine.Ack(old(View()), num)) && Room(Engine.Ack(old(View()), num).s)
      ensures View() == Flushed(Engine.Ack(old(View()), num), writerAlive) && writerAlive == old(writerAlive)
    {
      ghost var st := View();
      assert Delivery(st);
      AckRoom(st, num);
      hide Inv, Room, Delivery, Engine.Ack;
      AckDelivery(st, num);
      AckLocked(num);
      FlushQueue();
    }

    /** The counters restart; the queue is not cleared here. */
    method OnTrackStarted(uid: Uid)
      requires Inv(View()) && StartedCleanly(View().s) && Room(TrackStarted(View(), uid).s)
      modifies this, queue
      ensures Delivery(TrackStarted(old(View()), uid))
      ensures View() == Flushed(TrackStarted(old(View()), uid), writerAlive) && writerAlive == old(writerAlive)
    {
      ghost var st := View();
      assert Delivery(st);
      StartedDelivery(st, uid);
      trackUid, lastAssigned, lastAcked, ready := uid, 0, 0, true;
      starting, startWait := false, false;
      log := log.(epoch := log.epoch + 1, sessionStart := |log.built|);
      assert View() == TrackStarted(st, uid);
      hide Inv, Room, Delivery, TrackStarted;
      FlushQueue();
    }

    static ghost function Refused(st: State, code: T.ErrorCode): State {
      var a := if st.s.resumeWait && T.FatalResumeError(code) then DropTrack(st) else st;
      var b := a.(s := a.s.(resumeWait := false));
      var c := if b.s.startWait then b.(s := b.s.(starting := false, startWait := false)) else b;
      c.(s := c.s.(stopWait := false))
    }

    method ForgetTrack()
      modifies this`trackUid, this`ready, this`log, queue
      ensures View() == DropTrack(old(View()))
    {
      ghost var held := Held(queue.View());
      trackUid := NoUid;
      queue.Clear();
      ready := false;
      log := log.(discarded := log.discarded + held);
    }

    method OnTrackStopped(uid: Uid)
      modifies this`trackUid, this`ready, this`stopWait, this`log, queue
      ensures View() == TrackStopped(old(View()), uid)
    {
      hide DropTrack;
      if trackUid == uid {
        ForgetTrack();
      }
      stopWait := false;
    }

    method OnError(code: T.ErrorCode)
      modifies this`trackUid, this`ready, this`starting, this`startWait, this`stopWait, this`resumeWait, this`log, queue
      ensures View() == ErrorEvent(old(View()), code)
    {
      hide DropTrack;
      RefuseWaiters(code);
      if code.TrackNotFound? {
        ForgetTrack();
        starting := false;
      }
    }

    /** Whoever waits is told; a resume refused for good loses the track. */
    method RefuseWaiters(code: T.ErrorCode)
      modifies this`trackUid, this`ready, this`starting, this`startWait, this`stopWait, this`resumeWait, this`log, queue
      ensures View() == Refused(old(View()), code)
    {
      hide DropTrack;
      if resumeWait {
        if T.FatalResumeError(code) {
          ForgetTrack();
        }
        resumeWait := false;
      }
      if startWait {
        startWait := false;
        starting := false;
      }
      stopWait := false;
    }

    // ---- Losing the socket ----

    method RejectPending()
      modifies this`startWait, this`stopWait, this`resumeWait
      ensures View() == old(View()).(s := Reject(old(View()).s))
    {
      startWait, stopWait, resumeWait := false, false, false;
    }

    /** The delay before the next dial, or None when there is none. */
    method OnSocketClosed(gen: nat, canReconnect: bool, random: real) returns (delay: Option<nat>)
      modifies this`outTx, this`ready, this`conn, this`startWait, this`stopWait, this`resumeWait, queue, reconnects
      ensures View() == SocketClosed(old(View()), gen, canReconnect)
      ensures delay == if gen == dialGen && !intentional && canReconnect then Delay(old(View()).s.backoff, random) else None
    {
      if gen != dialGen {
        return None;
      }
      outTx := None;
      ready := false;
      queue.ForgetSent();
      if intentional {
        conn := Closed;
        return None;
      }
      if !canReconnect {
        conn := Closed;
        RejectPending();
        return None;
      }
      conn := Reconnecting;
      delay := reconnects.NextDelay(random);
      if delay.None? {
        conn := Closed;
        RejectPending();
      }
    }

    method OnAuthDenied()
      modifies this`intentional, this`conn, this`outTx
      ensures View() == AuthDenied(old(View()))
    {
      intentional, conn, outTx := true, Closed, None;
    }

    method OnAuthRefreshed()
      modifies this`dialGen, this`ready, this`outTx
      ensures View() == AuthRefreshed(old(View()))
    {
      dialGen := dialGen + 1;
      ready := false;
      outTx := None;
    }

    method OnAuthRefreshFailed()
      modifies this`intentional, this`conn
      ensures View() == AuthRefreshFailed(old(View()))
    {
      intentional, conn := true, Closed;
    }

    // ---- Commands ----

    method SendCmd(c: M.ClientCmd) returns (ok: bool)
      requires !c.LocationBatch?
      modifies this`log
      ensures View() == HandOver(old(View()), M.EncodeClient(c), writerAlive)
      ensures ok == Sends(View().s, writerAlive)
    {
      var bytes := C.EncodeClientCmd(c);
      ok := SendBin(bytes);
    }

    method BeginTrack()
      modifies this`starting, this`lastAssigned, this`lastAcked, this`ready, this`log, queue
      ensures View() == FreshTrack(old(View()))
    {
      ghost var held := Held(queue.View());
      starting := true;
      queue.Clear();
      lastAssigned, lastAcked, ready := 0, 0, false;
      log := log.(epoch := log.epoch + 1, discarded := log.discarded + held, starts := log.starts + 1);
    }

    method BeginStart()
      modifies this`starting, this`startWait, this`lastAssigned, this`lastAcked, this`ready, this`log, queue
      ensures View() == StartBegin(old(View()))
    {
      hide FreshTrack;
      BeginTrack();
      startWait := true;
    }

    /** start_track_meta up to the point where it waits for the answer. */
    method StartTrack(location: Option<LatLng>, route: seq<LatLng>, metadata: seq<Byte>) returns (waiting: bool)
      modifies this, queue
      ensures writerAlive == old(writerAlive)
      ensures var h := HandOver(StartBegin(old(View())), M.EncodeClient(M.TrackStart(location, route, metadata)), writerAlive);
              waiting == Sends(h.s, writerAlive) && View() == if waiting then h else StartFailed(h)
    {
      hide M.EncodeClient, HandOver, StartBegin, FreshTrack;
      BeginStart();
      waiting := SendCmd(M.TrackStart(location, route, metadata));
      if !waiting {
        startWait, starting := false, false;
      }
    }

    /** publish. The clock, the rate limiter and the noise filter are the caller's: `stamped` is the
        sample with its time, `inTime` the limiter's verdict, `emitted` what the filter let out. */
    method Publish(stamped: LatLng, inTime: bool, emitted: Option<LatLng>) returns (num: nat, accepted: bool)
      requires Room(View().s)
      modifies this, queue
      ensures writerAlive == old(writerAlive)
      ensures View() == Published(old(View()), queue.flat, stamped, inTime, emitted, writerAlive)
      ensures old(trackUid).NoUid? && !old(starting) && Sends(old(View()).s, writerAlive) ==> TripOpened(old(View()), View(), stamped)
      ensures (!old(trackUid).NoUid? || old(starting)) && (!inTime || emitted.None?) ==> View() == old(View())
      ensures if Idle(old(View()).s) then num == 0 && accepted == Sends(FreshTrack(old(View())).s, writerAlive)
              else num == lastAssigned && accepted == inTime
    {
      PublishOpensTrip(queue.flat, View(), stamped, inTime, emitted, writerAlive);
      hide TripOpened, AutoStarted, SentLive, PublishStaged, FreshTrack, Room;
      if trackUid.NoUid? && !starting {
        accepted := AutoStartTrack(stamped);
        return 0, accepted;
      }
      num, accepted := PublishPoint(inTime, emitted);
    }

    /** A point of a trip under way. */
    method PublishPoint(inTime: bool, emitted: Option<LatLng>) returns (num: nat, accepted: bool)
      requires Room(View().s)
      modifies this`lastAssigned, this`log, this`emitted, queue
      ensures View() == if !inTime || emitted.None? then old(View())
                        else if Live(old(View()).s) then SentLive(old(View()), queue.flat, emitted.value, writerAlive)
                        else PublishStaged(old(View()), queue.flat, emitted.value)
      ensures num == lastAssigned && accepted == inTime
    {
      assert lastAssigned + 1 < TWO32;
      hide SentLive, PublishStaged, Room;
      if !inTime {
        return lastAssigned, false;
      }
      if emitted.None? {
        return lastAssigned, true;
      }
      var open := ready && conn.Open? && outTx.Some? && |queue.sentFrameSeqs| < MAX_UNACKED_FRAMES;
      if !open {
        StagedLeaves(queue.flat, View(), emitted.value);
        Stage(emitted.value);
        return lastAssigned, true;
      }
      PublishNow(emitted.value);
      return lastAssigned, true;
    }

    method AutoStartTrack(stamped: LatLng) returns (sent: bool)
      requires Idle(View().s)
      modifies this`starting, this`lastAssigned, this`lastAcked, this`ready, this`log, queue
      ensures View() == AutoStarted(old(View()), stamped, writerAlive)
      ensures sent == Sends(FreshTrack(old(View())).s, writerAlive)
    {
      BeginTrack();
      hide M.EncodeClient;
      sent := SendCmd(M.TrackStart(Some(stamped), [], []));
      if !sent {
        starting := false;
      }
    }

    method Stage(point: LatLng)
      modifies this`log, this`emitted, queue
      ensures View() == PublishStaged(old(View()), queue.flat, point)
    {
      hide PushStaging, Held;
      ghost var held := Held(queue.View());
      var sample := Sample(emitted, point);
      queue.Push(sample);
      log := log.(evicted := log.evicted + (held + multiset{sample.id} - Held(queue.View())));
      emitted := emitted + 1;
    }

    method EnqueueNow(num: nat, sample: Sample)
      modifies queue
      ensures queue.View() == RecordFrame(Enqueue(queue.flat, old(queue.View()), num, sample), num)
    {
      hide Enqueue, RecordFrame;
      queue.EnqueueSent(num, sample);
      queue.Record(num);
    }

    /** Under the lock: number the point and count it as a frame of its own. */
    method NumberNow(point: LatLng)
      modifies this`lastAssigned, this`log, this`emitted, queue
      ensures lastAssigned == old(lastAssigned) + 1
      ensures View() == PublishLive(old(View()), queue.flat, point)
    {
      hide Enqueue, RecordFrame, Held, SingleBytes, FixOf;
      ghost var st := View();
      lastAssigned := lastAssigned + 1;
      var num, sample := lastAssigned, Sample(emitted, point);
      EnqueueNow(num, sample);
      log := log.(evicted := log.evicted + (Held(st.s.queue) + multiset{sample.id} - Held(Enqueue(queue.flat, st.s.queue, num, sample))),
                  names := log.names[Name(log.epoch, num) := sample],
                  built := log.built + [Built(log.epoch, trackUid, num, 1, true, SingleBytes(num, FixOf(point, true)))]);
      emitted := emitted + 1;
    }

    /** A live point goes out without its time. */
    method PublishNow(point: LatLng)
      requires lastAssigned + 1 < TWO32
      modifies this`lastAssigned, this`log, this`emitted, queue
      ensures lastAssigned == old(lastAssigned) + 1
      ensures View() == SentLive(old(View()), queue.flat, point, writerAlive)
    {
      hide M.EncodeClient, PublishLive, HandOver, SingleBytes, FixOf;
      NumberNow(point);
      SingleCommand(lastAssigned, point);
      var sent := SendCmd(M.LocationAdd(NoUid, lastAssigned, point.(timestampMs := None)));
    }

    method MoveCursor(uid: Uid, last: nat)
      modifies this`trackUid, this`lastAssigned, this`resumeWait, this`log
      ensures View() == ManualResume(old(View()), uid, last)
    {
      log := log.(epoch := if last >= lastAssigned then log.epoch else log.epoch + 1, sessionStart := |log.built|);
      trackUid, lastAssigned, resumeWait := uid, last, true;
    }

    /** resume(): one round, up to the point where it waits for the answer. */
    method ResumeTrack(uid: Uid, last: U64) returns (waiting: bool)
      modifies this`trackUid, this`lastAssigned, this`resumeWait, this`log
      ensures var h := HandOver(ManualResume(old(View()), uid, last), M.EncodeClient(M.Resume(uid, last)), writerAlive);
              waiting == Sends(h.s, writerAlive) && View() == if waiting then h else ResumeFailed(h)
    {
      MoveCursor(uid, last);
      hide M.EncodeClient, HandOver, ManualResume;
      waiting := SendCmd(M.Resume(uid, last));
      if !waiting {
        resumeWait := false;
      }
    }

    /** send_resume_and_wait: one round. It names the live track and the last number given out. */
    method SendResume() returns (waiting: bool)
      requires lastAssigned < TWO64
      modifies this`resumeWait, this`log
      ensures if trackUid.NoUid? then !waiting && View() == old(View())
              else View() == HandOver(ResumePrepare(old(View())), M.EncodeClient(M.Resume(trackUid, lastAssigned)), writerAlive)
                   && waiting == Sends(View().s, writerAlive)
    {
      if trackUid.NoUid? {
        return false;
      }
      resumeWait := true;
      hide M.EncodeClient;
      waiting := SendCmd(M.Resume(trackUid, lastAssigned));
    }

    /** The socket in use dies. Unless the client was closed or the attempts are used up, the delay
        passes, the next dial gets through, and a live track is resumed on it: on_socket_closed, then
        dial_inner with `send_resume` for a live track. */
    method Redial(random: real) returns (resuming: bool)
      requires lastAssigned < TWO64
      modifies this, queue, reconnects
      ensures var st, s := old(View()), old(View()).s;
              View() == if s.intentional || Exhausted(s.backoff) then SocketClosed(st, s.dialGen, true)
                        else if s.trackUid.NoUid? then Redialed(st)
                        else Asks(DialBegin(SocketClosed(st, s.dialGen, true)))
      ensures resuming == (!old(intentional) && !Exhausted(old(View()).s.backoff) && !old(trackUid).NoUid?)
      ensures resuming ==> trackUid == old(trackUid) && lastAssigned == old(lastAssigned)
      ensures resuming ==> outTx == Some(dialGen) && dialGen == old(dialGen) + 1 && conn.Open?
      ensures log.wire == old(log.wire) + if resuming then [Sent(dialGen, M.EncodeClient(M.Resume(old(trackUid), old(lastAssigned))))] else []
    {
      ghost var st := View();
      CloseKeeps(st, dialGen);
      var sendResume := !trackUid.NoUid?;
      var delay := OnSocketClosed(dialGen, true, random);
      hide SocketClosed, DialBegin, DialInstall, ResumePrepare, HandOver, M.EncodeClient;
      if delay.None? {
        assert log.wire == st.log.wire + [];
        return false;
      }
      ghost var d := View();
      BeginKeeps(d);
      var gen := BeginDial();
      InstallKeeps(View());
      var installed := InstallDial(gen);
      if sendResume {
        AskKeeps(View());
        resuming := SendResume();
      } else {
        NoAsk(View());
        assert log.wire == st.log.wire + [];
        resuming := false;
      }
    }

    /** stop_track, up to the point where it waits for the answer. Without a track it does nothing. */
    method StopTrack(uid: Option<Uid>) returns (waiting: bool)
      modifies this`stopWait, this`log
      ensures var target := if uid.Some? && !uid.value.NoUid? then uid.value else trackUid;
              var h := HandOver(StopWait(old(View()), true), M.EncodeClient(M.TrackStop(target)), writerAlive);
              waiting == (!target.NoUid? && Sends(h.s, writerAlive))
              && View() == if target.NoUid? then old(View()) else if waiting then h else StopWait(h, false)
    {
      var target := if uid.Some? && !uid.value.NoUid? then uid.value else trackUid;
      if target.NoUid? {
        return false;
      }
      stopWait := true;
      hide M.EncodeClient;
      waiting := SendCmd(M.TrackStop(target));
      if !waiting {
        stopWait := false;
      }
    }

    /** close: a last TrackStop for a live track, then the section after which nothing is sent. */
    method Close()
      modifies this`intentional, this`conn, this`ready, this`startWait, this`stopWait, this`resumeWait, this`outTx, this`log
      ensures View() == CloseLocked(if !trackUid.NoUid? then HandOver(old(View()), M.EncodeClient(M.TrackStop(trackUid)), writerAlive) else old(View()))
    {
      hide M.EncodeClient, HandOver, CloseLocked;
      if !trackUid.NoUid? {
        var sent := SendCmd(M.TrackStop(trackUid));
      }
      Shutdown();
    }

    method Shutdown()
      modifies this`intentional, this`conn, this`ready, this`startWait, this`stopWait, this`resumeWait, this`outTx
      ensures View() == CloseLocked(old(View()))
    {
      intentional, conn, ready := true, Closed, false;
      RejectPending();
      outTx := None;
    }
  }

  // ---- What a redial leaves alone ----

  lemma CloseKeeps(st: State, gen: nat)
    ensures var r := SocketClosed(st, gen, true);
            && r.s.trackUid == st.s.trackUid && r.s.lastAssigned == st.s.lastAssigned && r.log == st.log
            && r.s.dialGen == st.s.dialGen && r.s.intentional == st.s.intentional
  {
    hide MarkUnsent, Exhausted;
  }

  lemma BeginKeeps(st: State)
    ensures var r := DialBegin(st);
            && r.s.trackUid == st.s.trackUid && r.s.lastAssigned == st.s.lastAssigned && r.s.intentional == st.s.intentional
            && r.s.dialGen == st.s.dialGen + 1 && r.s.dialGen in r.log.dials && r.log.wire == st.log.wire
  {
  }

  lemma InstallKeeps(st: State)
    requires st.s.dialGen in st.log.dials && !st.s.intentional
    ensures var r := DialInstall(st, st.s.dialGen);
            && r.s.trackUid == st.s.trackUid && r.s.lastAssigned == st.s.lastAssigned && r.s.intentional == st.s.intentional
            && r.s.dialGen == st.s.dialGen && r.s.socket == Some(st.s.dialGen) && r.s.conn.Open? && r.log.wire == st.log.wire
  {
  }

  lemma AskKeeps(st: State)
    requires st.s.conn.Open? && st.s.socket.Some? && !st.s.trackUid.NoUid? && st.s.lastAssigned < TWO64
    ensures var bytes := M.EncodeClient(M.Resume(st.s.trackUid, st.s.lastAssigned));
            var r := HandOver(ResumePrepare(st), bytes, true);
            && Sends(r.s, true) && r.log.wire == st.log.wire + [Sent(st.s.socket.value, bytes)]
            && r.s.trackUid == st.s.trackUid && r.s.lastAssigned == st.s.lastAssigned
            && r.s.dialGen == st.s.dialGen && r.s.socket == st.s.socket && r.s.conn == st.s.conn
  {
    hide M.EncodeClient;
  }

  lemma NoAsk(st: State)
    requires st.s.trackUid.NoUid?
    ensures ResumePrepare(st) == st
  {
  }

  lemma NothingBuilt(built: seq<Built>)
    ensures built == built + built[|built|..] && BytesOf(built[|built|..]) == []
  {
  }

  function PointsOf(picked: seq<Queued>): (r: seq<LatLng>)
    ensures |r| == |picked|
  {
    seq(|picked|, i requires 0 <= i < |picked| => picked[i].sample.point)
  }

  lemma IdlePass(st: State)
    requires Delivery(st) && Room(st.s)
    ensures PickedOk(st.s) && (FlushIdle(st.s) ==> FlushPass(st) == st && FlushAll(st) == st)
    ensures Picked(st.s) == [] ==> FlushIdle(st.s)
  {
    assert Shape(st.s.queue, st.s.lastAssigned);
    PickedHasRoom(st.s);
    hide Delivery, Picked;
  }

  lemma PassStarts(st: State)
    requires Delivery(st) && Room(st.s)
    ensures PickedOk(st.s) && HasRoom(Picked(st.s))
    ensures FlushIdle(st.s) <==> !CanSend(st.s) || WindowRemaining(st.s.queue) == 0 || Picked(st.s) == []
    ensures FlushIdle(st.s) ==> FlushPass(st) == st
    ensures WindowRemaining(Claimed(st.s).queue) == WindowRemaining(st.s.queue)
  {
    IdlePass(st);
    ClaimedWindow(st.s);
    hide Delivery, Picked, Claimed;
  }

  /** The pass encodes exactly the fixes of the picked points, numbered up to the last of them. */
  lemma PassPieces(st: State)
    requires Delivery(st) && Room(st.s) && Picked(st.s) != [] && PickedOk(st.s) && HasRoom(Picked(st.s))
    ensures var picked := Picked(st.s);
            var last, first, points := picked[|picked| - 1].num, FirstNum(picked), PointsOf(picked);
            && Numbered(last, |points|)
            && Chained(Pieces(first, Fixes(picked), 0), first)
            && LocFrames(last, QuantiseAll(points)) == Frames(Pieces(first, Fixes(picked), 0), first)
            && Chained(Sending(st.s), first)
  {
    var picked := Picked(st.s);
    hide Delivery, Picked, Claimed, Room, PickedOk, HasRoom, Pieces, Frames, Chained, QuantiseAll, Fixes, PointsOf, Sending, Joined;
    PassNumbers(st);
    SamePoints(picked);
    SendingChained(st.s);
    FramesOf(picked);
  }

  lemma FramesOf(picked: seq<Queued>)
    requires picked != [] && |picked| <= picked[|picked| - 1].num < TWO32
    ensures var last, first := picked[|picked| - 1].num, FirstNum(picked);
            && Numbered(last, |picked|) && Chained(Pieces(first, Fixes(picked), 0), first)
            && LocFrames(last, Fixes(picked)) == Frames(Pieces(first, Fixes(picked), 0), first)
  {
    hide Pieces, Frames, Chained, Fixes, Joined;
    PiecesPartition(FirstNum(picked), Fixes(picked), 0);
  }

  lemma PassNumbers(st: State)
    requires Delivery(st) && Room(st.s) && Picked(st.s) != [] && PickedOk(st.s)
    ensures var picked := Picked(st.s); |picked| <= picked[|picked| - 1].num < TWO32
  {
    RoomClaimed(st.s);
    assert st.s.lastAssigned < TWO32;
    hide Delivery, Picked, Claimed, Room, Block;
  }

  lemma SamePoints(picked: seq<Queued>)
    ensures QuantiseAll(PointsOf(picked)) == Fixes(picked)
  {
    hide Quantise;
  }

  /** Numbering leaves the window alone. */
  lemma ClaimedWindow(s: Session)
    ensures WindowRemaining(Claimed(s).queue) == WindowRemaining(s.queue)
  {
    hide Unsent, Take, Number;
  }

  lemma PassDone(st: State, v: State, frames: seq<seq<Byte>>)
    requires Delivery(st) && Room(st.s) && PickedOk(st.s) && !FlushIdle(st.s)
    requires var picked := Picked(st.s);
             var first := FirstNum(picked);
             var pieces := Pieces(first, Fixes(picked), 0);
             var k := Min(|pieces|, WindowRemaining(st.s.queue));
             && Chained(pieces, first)
             && frames == Frames(pieces, first)[..k]
             && v.s == Claimed(st.s).(queue := RecordAll(Claimed(st.s).queue, pieces[..k]))
             && v.log == st.log.(names := st.log.names + NewNames(st.log.epoch, picked),
                                 built := st.log.built + (SendingChained(st.s); BuiltFrom(st.log.epoch, st.s.trackUid, Sending(st.s), first)))
    ensures v == FlushPass(st)
    ensures v.log.built == st.log.built + v.log.built[|st.log.built|..] && frames == BytesOf(v.log.built[|st.log.built|..])
    ensures frames != []
  {
    var picked := Picked(st.s);
    var first := FirstNum(picked);
    var pieces := Pieces(first, Fixes(picked), 0);
    var k := Min(|pieces|, WindowRemaining(st.s.queue));
    SendingChained(st.s);
    assert Sending(st.s) == pieces[..k] && k > 0;
    hide Delivery, Picked, Claimed, Pieces, Frames, Chained, NewNames, RecordAll, Fixes, BuiltFrom;
    FramesPrefix(pieces, first, k);
    FramesAreBuilt(st.log.epoch, st.s.trackUid, pieces[..k], first);
    assert v.log.built[|st.log.built|..] == BuiltFrom(st.log.epoch, st.s.trackUid, Sending(st.s), first);
  }
}
