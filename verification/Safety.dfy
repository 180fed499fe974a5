/** What holds in every run of lock sections, whatever the interleaving. */
module Safety {
  import opened Wrappers
  import opened Bytes
  import opened Points
  import opened Reading
  import opened Loc
  import opened Queue
  import opened Backoff
  import opened Engine
  import opened Runs
  import T = Types

  /** src/tracking/client.rs:226-252 */
  function Initial(cap: nat, backoff: BackoffState): State {
    State(
      Session(NoUid, 0, 0, Buffer(if cap == 0 then DEFAULT_MAX_QUEUE else cap, [], [], []), false, Connecting, None, 0,
              false, false, false, false, false, backoff),
      Log(0, map[], [], 0, 0, multiset{}, multiset{}, multiset{}, {}, [], [], 0))
  }

  lemma InitialInv(cap: nat, backoff: BackoffState)
    ensures Inv(Initial(cap, backoff))
  {
  }

  // ---- Frames never lie ----

  /** What a receiver makes of a frame the client built. */
  ghost predicate Means(b: Built, num: U32, fs: seq<Fix>) {
    && b.bytes != [] && b.bytes[0] == C_LOC
    && LocAt(b.bytes, 1) == if AllOnGlobe(fs) then Got(LocBody(num, fs), |b.bytes|) else Fail(Invalid)
  }

  lemma AgreesMeans(names: map<Name, Sample>, b: Built)
    requires Agrees(names, b)
    ensures Means(b, b.last, Payload(names, b))
  {
    hide Payload, LocAt, Linked, LocBytes, AllOnGlobe;
    assert b.last % TWO32 == b.last;
    PieceReads(Piece(b.last, Payload(names, b)));
  }

  /** In every reachable state, every Loc frame ever built, live or flushed or sent again, decodes
      to its last number and to exactly the points the names table gives for its numbers. */
  lemma FramesNeverLie(flat: Flat, cap: nat, backoff: BackoffState, es: seq<Event>, i: nat)
    requires Inv(Initial(cap, backoff)) && RunAllowed(flat, Initial(cap, backoff), es)
    requires i < |Run(flat, Initial(cap, backoff), es).log.built|
    ensures var log := Run(flat, Initial(cap, backoff), es).log;
            Agrees(log.names, log.built[i]) && Means(log.built[i], log.built[i].last, Payload(log.names, log.built[i]))
  {
    var log := Run(flat, Initial(cap, backoff), es).log;
    hide Run, RunAllowed;
    AgreesMeans(log.names, log.built[i]);
  }

  /** A number of a counter run keeps its point for the rest of the run, and frames once built stay in the history. */
  lemma {:induction false} NamesAreForever(flat: Flat, st: State, es: seq<Event>)
    requires Inv(st) && RunAllowed(flat, st, es)
    ensures Extends(st.log.names, Run(flat, st, es).log.names)
    ensures st.log.built <= Run(flat, st, es).log.built
    decreases es
  {
    if es != [] {
      InvStep(flat, st, es[0]);
      NamesStep(flat, st, es[0]);
      assert Shape(st.s.queue, st.s.lastAssigned);
      BuiltGrows(flat, st, es[0]);
      var next := Step(flat, st, es[0]);
      hide Step, Inv, Allowed, Shape, Extends;
      NamesAreForever(flat, next, es[1..]);
      ExtendsTrans(st.log, next.log, Run(flat, next, es[1..]).log);
    }
  }

  lemma ExtendsTrans(a: Log, b: Log, c: Log)
    requires Extends(a.names, b.names) && Extends(b.names, c.names) && a.built <= b.built && b.built <= c.built
    ensures Extends(a.names, c.names) && a.built <= c.built
  {
  }

  lemma BuiltGrows(flat: Flat, st: State, e: Event)
    requires Shape(st.s.queue, st.s.lastAssigned)
    ensures st.log.built <= Step(flat, st, e).log.built
  {
    hide Shape, FlushPass, Publish, ErrorEvent, Exhausted, AckThrough, MarkUnsent, Held, Cleared;
    match e
    case EFlush => PassQuiet(st);
    case EPublish(point) => PublishQuiet(flat, st, point);
    case EError(code) => ErrorQuiet(st, code);
    case _ =>
  }

  /** A live point goes out without its time, a flushed one with it; the rest is the same. */
  lemma TimeOnWire(p: LatLng)
    ensures FixOf(p, true) == Quantise(p).(time := None) && FixOf(p, false) == Quantise(p) && Quantise(p).time == p.timestampMs
  {
    hide Round, Clamp;
  }

  lemma StripOnlyTime(p: LatLng)
    ensures FixOf(p, true).(time := None) == FixOf(p, false).(time := None)
  {
  }

  /** Two frames of one counter run that carry the same number carry the same point there, but for a
      stripped time. For one track across counter runs see `Tracks.NoNumberTwiceOnTrack`. */
  lemma NoNumberTwice(st: State, i: nat, j: nat, num: nat)
    requires Delivery(st) && i < |st.log.built| && j < |st.log.built|
    requires var a, b := st.log.built[i], st.log.built[j];
             a.epoch == b.epoch && a.last - a.count < num <= a.last && b.last - b.count < num <= b.last
    ensures var a, b := st.log.built[i], st.log.built[j];
            && Agrees(st.log.names, a) && Agrees(st.log.names, b)
            && Payload(st.log.names, a)[num + a.count - a.last - 1].(time := None)
               == Payload(st.log.names, b)[num + b.count - b.last - 1].(time := None)
  {
    hide Shape, Labelled, NamesBelow, LocBytes, Linked, Quantise;
    var a, b := st.log.built[i], st.log.built[j];
    var x, y := num + a.count - a.last - 1, num + b.count - b.last - 1;
    assert Agrees(st.log.names, a) && Agrees(st.log.names, b);
    var point := st.log.names[Name(a.epoch, num)].point;
    assert a.last - a.count + 1 + x == num && b.last - b.count + 1 + y == num;
    assert Payload(st.log.names, a)[x] == FixOf(point, a.live) && Payload(st.log.names, b)[y] == FixOf(point, b.live);
    StripOnlyTime(point);
  }

  // ---- Closing ----

  ghost predicate Shut(st: State) {
    st.s.intentional && st.s.socket.None?
  }

  lemma ShutStep(flat: Flat, st: State, e: Event)
    requires Shape(st.s.queue, st.s.lastAssigned) && Shut(st)
    ensures var r := Step(flat, st, e); Shut(r) && r.log.wire == st.log.wire && r.log.installed == st.log.installed
  {
    hide Shape, FlushPass, Publish, ErrorEvent, Exhausted, AckThrough, MarkUnsent, Held, Cleared;
    match e
    case EFlush => PassQuiet(st);
    case EPublish(point) => PublishQuiet(flat, st, point);
    case EError(code) => ErrorQuiet(st, code);
    case _ =>
  }

  lemma PassQuiet(st: State)
    requires Shape(st.s.queue, st.s.lastAssigned)
    ensures PickedOk(st.s)
    ensures var r := FlushPass(st);
            && r.log.wire == st.log.wire && r.log.installed == st.log.installed && r.log.starts == st.log.starts
            && r.s.intentional == st.s.intentional && r.s.socket == st.s.socket && r.s.trackUid == st.s.trackUid
            && r.s.conn == st.s.conn && r.s.starting == st.s.starting && r.s.lastAssigned >= st.s.lastAssigned
            && r.s.resumeWait == st.s.resumeWait && st.log.built <= r.log.built
  {
    PickedHasRoom(st.s);
    PickedCases(st.s);
    hide Shape, RecordAll, Sending, NewNames, BuiltFrom, Picked;
  }

  lemma {:induction false} ShutForever(flat: Flat, st: State, es: seq<Event>)
    requires Inv(st) && RunAllowed(flat, st, es) && Shut(st)
    ensures var r := Run(flat, st, es); Shut(r) && r.log.wire == st.log.wire && r.log.installed == st.log.installed
    decreases es
  {
    if es != [] {
      assert Shape(st.s.queue, st.s.lastAssigned);
      InvStep(flat, st, es[0]);
      ShutStep(flat, st, es[0]);
      hide Step, Inv, Allowed, Shape;
      ShutForever(flat, Step(flat, st, es[0]), es[1..]);
    }
  }

  /** Once `close` has run its locked section, no socket is installed again and no byte is handed to
      a writer, whatever dials, relocations and late events are still outstanding. */
  lemma CloseIsFinal(flat: Flat, st: State, es: seq<Event>)
    requires Inv(st) && RunAllowed(flat, st, [EClose] + es)
    ensures var r := Run(flat, st, [EClose] + es);
            && r.s.socket.None? && r.log.wire == st.log.wire && r.log.installed == st.log.installed
  {
    var c := CloseLocked(st);
    assert Shape(st.s.queue, st.s.lastAssigned);
    InvStep(flat, st, EClose);
    assert Step(flat, st, EClose) == c;
    assert ([EClose] + es)[1..] == es;
    ShutForever(flat, c, es);
    hide Inv, Shape;
  }

  /** A failed credential refresh also ends the session but leaves the writer in place: a dial that
      is already past its check moves the state off Closed, and then bytes pass exactly when a
      socket was installed. */
  lemma AuthFailureLeavesWriter(st: State, bytes: seq<Byte>)
    ensures HandOver(AuthRefreshFailed(st), bytes, true).log.wire == st.log.wire
    ensures HandOver(DialBegin(AuthRefreshFailed(st)), bytes, true).log.wire != st.log.wire <==> st.s.socket.Some?
  {
    if st.s.socket.Some? {
      var w := HandOver(DialBegin(AuthRefreshFailed(st)), bytes, true).log.wire;
      assert |w| == |st.log.wire| + 1;
    }
  }

  /** Sockets are installed under strictly increasing generations. */
  lemma GenerationsIncrease(flat: Flat, st: State, es: seq<Event>, i: nat, j: nat)
    requires Inv(st) && RunAllowed(flat, st, es)
    requires i < j < |Run(flat, st, es).log.installed|
    ensures Run(flat, st, es).log.installed[i] < Run(flat, st, es).log.installed[j]
  {
    hide Run, RunAllowed;
  }

  // ---- What the environment's promises are worth ----

  /** `TrackStarted` restarts the counter without clearing the queue. That is sound exactly when
      nothing is in flight. */
  lemma TrackStartedSound(st: State, uid: Uid)
    requires Shape(st.s.queue, st.s.lastAssigned)
    ensures Shape(TrackStarted(st, uid).s.queue, TrackStarted(st, uid).s.lastAssigned) <==> st.s.queue.inflight == []
  {
  }

  /** `resume()` sets the counter to whatever the caller passes. The numbering stays in one block
      exactly when nothing is in flight or the counter does not move. */
  lemma ManualResumeSound(st: State, uid: Uid, last: nat)
    requires Shape(st.s.queue, st.s.lastAssigned)
    ensures Shape(ManualResume(st, uid, last).s.queue, last) <==> st.s.queue.inflight == [] || last == st.s.lastAssigned
  {
    if st.s.queue.inflight != [] && Shape(st.s.queue, last) {
      assert st.s.queue.inflight[0].num == last - |st.s.queue.inflight| + 1;
    }
  }

  // ---- A dropped socket is not a new trip ----

  /** Events that end or replace the track: the application starts or resumes one, or the server
      stops it, declares it lost, or answers with another one. */
  predicate KeepsTrack(s: Session, e: Event) {
    match e
    case EStartBegin => false
    case EManualResume(_, _) => false
    case ETrackStarted(_) => false
    case ETrackStopped(uid) => uid != s.trackUid
    case EError(code) => !code.TrackNotFound? && !(s.resumeWait && T.FatalResumeError(code))
    case EResumeOk(uid, _) => uid.NoUid? || uid == s.trackUid
    case _ => true
  }

  ghost predicate RunKeepsTrack(flat: Flat, st: State, es: seq<Event>)
    requires Inv(st) && RunAllowed(flat, st, es)
    decreases es
  {
    es == [] || (KeepsTrack(st.s, es[0]) && (InvStep(flat, st, es[0]); RunKeepsTrack(flat, Step(flat, st, es[0]), es[1..])))
  }

  lemma KeepsTrackStep(flat: Flat, st: State, e: Event)
    requires Shape(st.s.queue, st.s.lastAssigned) && KeepsTrack(st.s, e) && !st.s.trackUid.NoUid?
    ensures var r := Step(flat, st, e);
            r.s.trackUid == st.s.trackUid && r.log.starts == st.log.starts && r.s.lastAssigned >= st.s.lastAssigned
  {
    hide Shape, FlushPass, Publish, ErrorEvent, Exhausted, AckThrough, MarkUnsent, Held, Cleared;
    match e
    case EFlush => PassQuiet(st);
    case EPublish(point) => PublishQuiet(flat, st, point);
    case EError(code) => ErrorQuiet(st, code);
    case _ =>
  }

  /** `last_acked_seq` goes back exactly when a ResumeOk names a lower cursor; an Ack never lowers
      it, and both leave it at or above the number they name. */
  lemma AckedCursor(flat: Flat, st: State, e: Event)
    requires Shape(st.s.queue, st.s.lastAssigned) && KeepsTrack(st.s, e) && !st.s.trackUid.NoUid?
    ensures var r := Step(flat, st, e);
            && (r.s.lastAcked < st.s.lastAcked <==> e.EResumeOk? && e.ack < st.s.lastAcked)
            && (e.EAck? ==> r.s.lastAcked >= e.num) && (e.EResumeOk? ==> r.s.lastAcked == e.ack <= r.s.lastAssigned)
            && (!e.EAck? && !e.EResumeOk? ==> r.s.lastAcked == st.s.lastAcked)
  {
    hide Shape, FlushPass, Publish, ErrorEvent, Exhausted, AckThrough, MarkUnsent, Held, Cleared, KeepsTrack;
    if e.EFlush? {
      FlushAcked(st);
    } else if e.EPublish? {
      PublishAcked(flat, st, e.point);
    } else if e.EError? {
      ErrorAcked(st, e.code);
    } else {
      assert e.EAutoStart? ==> !Idle(st.s);
      assert !e.EStartBegin? && !e.EManualResume? && !e.ETrackStarted? by {
        StartsDoNotKeep(st.s, e);
      }
    }
  }

  lemma StartsDoNotKeep(s: Session, e: Event)
    requires KeepsTrack(s, e)
    ensures !e.EStartBegin? && !e.EManualResume? && !e.ETrackStarted?
  {
  }

  lemma FlushAcked(st: State)
    requires Shape(st.s.queue, st.s.lastAssigned)
    ensures PickedOk(st.s) && FlushPass(st).s.lastAcked == st.s.lastAcked
  {
    PickedHasRoom(st.s);
    PickedCases(st.s);
    hide Shape, RecordAll, Sending, NewNames, BuiltFrom, Picked;
  }

  lemma PublishAcked(flat: Flat, st: State, point: LatLng)
    ensures Publish(st, flat, point).s.lastAcked == st.s.lastAcked
  {
    hide Held, PushStaging, Enqueue, RecordFrame, SingleBytes, FixOf, Live;
  }

  lemma ErrorAcked(st: State, code: T.ErrorCode)
    ensures ErrorEvent(st, code).s.lastAcked == st.s.lastAcked
  {
    hide Held, Cleared;
  }

  /** Through any number of drops, dials, relocations, publishes and acks, a live track stays the
      same track: no TrackStart is issued, and the Resume that the next dial sends names it, with a
      cursor that never went back. */
  lemma {:induction false} DropIsNotANewTrip(flat: Flat, st: State, es: seq<Event>)
    requires Inv(st) && RunAllowed(flat, st, es) && RunKeepsTrack(flat, st, es)
    requires !st.s.trackUid.NoUid?
    ensures var r := Run(flat, st, es);
            && r.s.trackUid == st.s.trackUid && r.log.starts == st.log.starts
            && r.s.lastAssigned >= st.s.lastAssigned
            && ResumePrepare(r).s.resumeWait && AutoStart(r) == r
    decreases es
  {
    if es != [] {
      assert Shape(st.s.queue, st.s.lastAssigned);
      InvStep(flat, st, es[0]);
      KeepsTrackStep(flat, st, es[0]);
      hide Step, Inv, Allowed, Shape, KeepsTrack;
      DropIsNotANewTrip(flat, Step(flat, st, es[0]), es[1..]);
    }
  }
}
