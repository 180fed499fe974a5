/** What changes each part of a session, over all lock sections: for every event the new value is
    stated outright, so nothing else changes it. */
module Causes {
  import opened Wrappers
  import opened Bytes
  import opened Points
  import opened Reading
  import opened Loc
  import opened Queue
  import opened Backoff
  import opened Engine
  import opened Runs
  import opened Safety
  import opened Handlers
  import opened Sockets
  import T = Types

  // ---- What an event amounts to ----

  /** The server ends this track: it stopped it, or does not know it, or refuses the resume that is
      outstanding for want of rights. */
  predicate LosesTrack(s: Session, e: Event) {
    || (e.ETrackStopped? && e.uid == s.trackUid)
    || (e.EError? && (e.code.TrackNotFound? || (s.resumeWait && e.code.Auth?)))
  }

  /** A start, asked for or by the first point. */
  predicate BeginsTrack(s: Session, e: Event) {
    e.EStartBegin? || (e.EAutoStart? && s.trackUid == NoUid && !s.starting)
  }

  predicate LosesSocket(s: Session, e: Event) {
    e.ESocketClosed? && e.gen == s.dialGen
  }

  /** And no dial follows, though nobody closed the client. */
  predicate GivesUp(s: Session, e: Event) {
    LosesSocket(s, e) && !s.intentional
    && (!e.canReconnect || (s.backoff.maxAttempts > 0 && s.backoff.attempt >= s.backoff.maxAttempts))
  }

  predicate Installs(st: State, e: Event) {
    e.EDialInstall? && e.gen in st.log.dials && e.gen == st.s.dialGen && !st.s.intentional
  }

  // ---- Points come and go; the rest of the session stays ----

  lemma PublishMoves(flat: Flat, st: State, point: LatLng)
    ensures var r := Publish(st, flat, point).s; r == st.s.(queue := r.queue, lastAssigned := r.lastAssigned)
    ensures Publish(st, flat, point).s.lastAssigned == st.s.lastAssigned + if Live(st.s) then 1 else 0
  {
    hide Held, PushStaging, Enqueue, RecordFrame, SingleBytes, FixOf, Live;
  }

  lemma FlushMoves(st: State)
    requires Shape(st.s.queue, st.s.lastAssigned)
    ensures PickedOk(st.s)
    ensures var r := FlushPass(st).s; r == st.s.(queue := r.queue, lastAssigned := r.lastAssigned)
  {
    PickedHasRoom(st.s);
    hide Shape, RecordAll, Sending, NewNames, BuiltFrom, Picked, Claimed, FlushIdle;
    ClaimMoves(st.s);
  }

  lemma ClaimMoves(s: Session)
    ensures var r := Claimed(s); r == s.(queue := r.queue, lastAssigned := r.lastAssigned)
  {
    hide Unsent, Take, Number;
  }

  // ---- Field by field ----

  ghost predicate TrackAfter(s: Session, e: Event, r: Session) {
    r.trackUid == if LosesTrack(s, e) then NoUid
                  else if e.ETrackStarted? || e.EManualResume? || (e.EResumeOk? && e.uid != NoUid) then e.uid
                  else s.trackUid
  }

  ghost predicate ReadyAfter(s: Session, e: Event, r: Session) {
    r.ready == (e.EResumeOk? || e.ETrackStarted? ||
                (s.ready && !LosesTrack(s, e) && !BeginsTrack(s, e) && !LosesSocket(s, e)
                 && !e.EDialBegin? && !e.EAuthRefreshed? && !e.EClose?))
  }

  ghost predicate ConnAfter(st: State, e: Event, r: Session) {
    r.conn == if e.EDialBegin? then (if st.s.conn == Open || st.s.conn == Reconnecting then Reconnecting else Connecting)
              else if Installs(st, e) then Open
              else if LosesSocket(st.s, e) then (if st.s.intentional || GivesUp(st.s, e) then Closed else Reconnecting)
              else if e.EAuthDenied? || e.EAuthRefreshFailed? || e.EClose? then Closed
              else st.s.conn
  }

  ghost predicate SocketAfter(st: State, e: Event, r: Session) {
    && r.socket == (if Installs(st, e) then Some(e.gen)
                    else if LosesSocket(st.s, e) || e.EAuthDenied? || e.EAuthRefreshed? || e.EClose? then None
                    else st.s.socket)
    && r.intentional == (st.s.intentional || e.EAuthDenied? || e.EAuthRefreshFailed? || e.EClose?)
    && r.dialGen == st.s.dialGen + (if e.EDialBegin? || e.EAuthRefreshed? then 1 else 0)
    && r.backoff == (if Installs(st, e) then st.s.backoff.(attempt := 0)
                     else if LosesSocket(st.s, e) && !st.s.intentional && !GivesUp(st.s, e)
                          then st.s.backoff.(attempt := st.s.backoff.attempt + 1)
                     else st.s.backoff)
  }

  /** Who waits for an answer, and who is told. */
  ghost predicate WaitsAfter(s: Session, e: Event, r: Session) {
    && r.starting == (BeginsTrack(s, e) ||
                      (s.starting && !e.ETrackStarted? && !e.EStartFailed? && !e.EAutoStartFailed?
                       && !(e.EError? && (s.startWait || e.code.TrackNotFound?))))
    && r.startWait == (e.EStartBegin? ||
                       (s.startWait && !e.ETrackStarted? && !e.EStartFailed? && !e.EError? && !GivesUp(s, e) && !e.EClose?))
    && r.stopWait == (e == EStopWait(true) ||
                      (s.stopWait && e != EStopWait(false) && !e.ETrackStopped? && !e.EError? && !GivesUp(s, e) && !e.EClose?))
    && r.resumeWait == (e.EManualResume? || (e.EResumePrepare? && s.trackUid != NoUid) ||
                        (s.resumeWait && !e.EResumeOk? && !e.EResumeFailed? && !e.EError? && !GivesUp(s, e) && !e.EClose?))
  }

  /** The two cursors, for every event but a flush. */
  ghost predicate CursorsAfter(s: Session, e: Event, r: Session) {
    && r.lastAcked == (if BeginsTrack(s, e) || e.ETrackStarted? then 0
                       else if e.EResumeOk? then e.ack
                       else if e.EAck? && e.num > s.lastAcked then e.num
                       else s.lastAcked)
    && (!e.EFlush? ==>
          r.lastAssigned == (if BeginsTrack(s, e) || e.ETrackStarted? then 0
                             else if e.EResumeOk? && e.ack > s.lastAssigned then e.ack
                             else if e.EManualResume? then e.last
                             else if e.EPublish? && s.ready && s.conn == Open && s.socket.Some? && |s.queue.frames| < 8
                                  then s.lastAssigned + 1
                             else s.lastAssigned))
  }

  /** The queue, for every event but a publish and a flush: emptied with its track, forgetting what was
      sent with its socket, rid of what an ack covers, and otherwise left alone. */
  ghost predicate QueueAfter(s: Session, e: Event, r: Session) {
    r.queue == if LosesTrack(s, e) || BeginsTrack(s, e) then Buffer(s.queue.cap, [], [], [])
               else if LosesSocket(s, e) then MarkUnsent(s.queue)
               else if e.EAck? then AckThrough(s.queue, e.num)
               else if e.EResumeOk? then AckThrough(s.queue, e.ack)
               else s.queue
  }

  ghost predicate AllAfter(st: State, e: Event, r: Session) {
    && TrackAfter(st.s, e, r) && ReadyAfter(st.s, e, r) && ConnAfter(st, e, r) && SocketAfter(st, e, r)
    && WaitsAfter(st.s, e, r) && CursorsAfter(st.s, e, r)
    && (!e.EPublish? && !e.EFlush? ==> QueueAfter(st.s, e, r))
  }

  /** A new client: nothing queued, nobody waiting, no socket; ten thousand points by default. */
  lemma NewClient(cap: nat, backoff: BackoffState)
    ensures var s := Initial(cap, backoff).s;
            && s.queue.cap == (if cap == 0 then 10_000 else cap)
            && s.queue.staging == [] && s.queue.inflight == [] && s.queue.frames == []
            && s.trackUid == NoUid && s.lastAssigned == 0 && s.lastAcked == 0 && s.conn == Connecting && s.socket == None
            && s.dialGen == 0 && s.backoff == backoff
            && !(s.ready || s.intentional || s.starting || s.startWait || s.stopWait || s.resumeWait)
  {
  }

  /** In every state of a run: at most eight frames unacknowledged, the queue within its cap, and every
      frame ever built has 1 to 100 points. */
  lemma Limits(flat: Flat, cap: nat, backoff: BackoffState, es: seq<Event>, i: nat)
    requires Inv(Initial(cap, backoff)) && RunAllowed(flat, Initial(cap, backoff), es)
    requires i < |Run(flat, Initial(cap, backoff), es).log.built|
    ensures var r := Run(flat, Initial(cap, backoff), es);
            && |r.s.queue.frames| <= 8 && |r.s.queue.staging| + |r.s.queue.inflight| <= r.s.queue.cap
            && 1 <= r.log.built[i].count <= 100
  {
    var r := Run(flat, Initial(cap, backoff), es);
    hide Run, RunAllowed, Linked, LocBytes, Payload;
    assert Agrees(r.log.names, r.log.built[i]);
  }

  /** Bytes handed over are on the wire of the socket in use, exactly when there is one with a writer that
      listens and nobody closed the client; nothing else moves. */
  lemma BytesGoOut(st: State, bytes: seq<Byte>, alive: bool)
    ensures var r := HandOver(st, bytes, alive);
            && r.s == st.s && r.log == st.log.(wire := r.log.wire)
            && (st.s.socket.Some? && alive && !(st.s.conn == Closed && st.s.intentional) ==>
                  r.log.wire == st.log.wire + [Sent(st.s.socket.value, bytes)])
            && (st.s.socket.None? || !alive || (st.s.conn == Closed && st.s.intentional) ==> r.log.wire == st.log.wire)
  {
  }

  /** For every event from every state. */
  lemma Effects(flat: Flat, st: State, e: Event)
    requires Shape(st.s.queue, st.s.lastAssigned)
    ensures AllAfter(st, e, Step(flat, st, e).s)
  {
    hide Shape, FlushPass, Publish, ErrorEvent, SocketClosed, TrackStopped, TrackStarted, StartBegin, AutoStart, Ack, ResumeOk,
      ManualResume, PickedOk, DialBegin, DialInstall, DialAbandon, HandOver, AllAfter, StartFailed, AutoStartFailed, ResumePrepare,
      ResumeFailed, StopWait, AuthDenied, AuthRefreshed, AuthRefreshFailed, CloseLocked;
    if e.EPublish? {
      PublishedAfter(flat, st, e.point);
    } else if e.EFlush? {
      FlushedAfter(st);
    } else if e.EError? {
      ErrorAfter(st, e.code);
    } else if e.ETrackStopped? {
      StoppedAfter(st, e.uid);
    } else if e.ESocketClosed? {
      ClosedAfter(st, e.gen, e.canReconnect);
    } else if e.EClose? {
      ClosedForGood(st);
    } else if e.EAuthDenied? {
      DeniedAfter(st);
    } else if e.EAuthRefreshed? {
      RefreshedAfter(st);
    } else if e.EAuthRefreshFailed? {
      RefreshFailedAfter(st);
    } else if e.EDialBegin? {
      DialBegunAfter(st);
    } else if e.EDialInstall? {
      InstalledAfter(st, e.gen);
    } else if e.EDialAbandon? {
      AbandonedAfter(st, e.gen);
    } else if e.EHandOver? {
      HandedAfter(st, e.bytes, e.alive);
    } else if e.EAck? {
      AckedAfter(st, e.num);
    } else if e.EResumeOk? {
      ResumedAfter(st, e.uid, e.ack);
    } else if e.ETrackStarted? {
      StartedAfter(st, e.uid);
    } else if e.EStartBegin? {
      StartAfter(st);
    } else if e.EAutoStart? {
      AutoStartAfter(st);
    } else if e.EStartFailed? {
      StartFailedAfter(st);
    } else if e.EAutoStartFailed? {
      AutoStartFailedAfter(st);
    } else if e.EManualResume? {
      ManualAfter(st, e.uid, e.last);
    } else if e.EResumePrepare? {
      PreparedAfter(st);
    } else if e.EResumeFailed? {
      ResumeFailedAfter(st);
    } else if e.EStopWait? {
      StopWaitAfter(st, e.waiting);
    }
  }

  lemma PublishedAfter(flat: Flat, st: State, point: LatLng)
    ensures AllAfter(st, EPublish(point), Publish(st, flat, point).s)
  {
    PublishMoves(flat, st, point);
    hide Publish;
  }

  lemma FlushedAfter(st: State)
    requires Shape(st.s.queue, st.s.lastAssigned)
    ensures PickedOk(st.s) && AllAfter(st, EFlush, FlushPass(st).s)
  {
    FlushMoves(st);
    hide *;
    OnlyPointsMove(st, FlushPass(st).s);
  }

  lemma OnlyPointsMove(st: State, r: Session)
    requires r == st.s.(queue := r.queue, lastAssigned := r.lastAssigned)
    ensures AllAfter(st, EFlush, r)
  {
  }

  lemma ErrorAfter(st: State, code: T.ErrorCode)
    ensures AllAfter(st, EError(code), ErrorEvent(st, code).s)
  {
    hide Held;
  }

  lemma StoppedAfter(st: State, uid: Uid)
    ensures AllAfter(st, ETrackStopped(uid), TrackStopped(st, uid).s)
  {
    hide Held;
  }

  lemma ClosedAfter(st: State, gen: nat, canReconnect: bool)
    ensures AllAfter(st, ESocketClosed(gen, canReconnect), SocketClosed(st, gen, canReconnect).s)
  {
    hide MarkUnsent;
  }

  lemma DialBegunAfter(st: State)
    ensures AllAfter(st, EDialBegin, DialBegin(st).s)
  {
  }

  lemma InstalledAfter(st: State, gen: nat)
    ensures AllAfter(st, EDialInstall(gen), DialInstall(st, gen).s)
  {
  }

  lemma ClosedForGood(st: State)
    ensures AllAfter(st, EClose, CloseLocked(st).s)
  {
  }

  lemma DeniedAfter(st: State)
    ensures AllAfter(st, EAuthDenied, AuthDenied(st).s)
  {
  }

  lemma RefreshedAfter(st: State)
    ensures AllAfter(st, EAuthRefreshed, AuthRefreshed(st).s)
  {
  }

  lemma RefreshFailedAfter(st: State)
    ensures AllAfter(st, EAuthRefreshFailed, AuthRefreshFailed(st).s)
  {
  }

  lemma AbandonedAfter(st: State, gen: nat)
    ensures AllAfter(st, EDialAbandon(gen), DialAbandon(st, gen).s)
  {
  }

  lemma HandedAfter(st: State, bytes: seq<Byte>, alive: bool)
    ensures AllAfter(st, EHandOver(bytes, alive), HandOver(st, bytes, alive).s)
  {
  }

  lemma AckedAfter(st: State, num: U32)
    ensures AllAfter(st, EAck(num), Ack(st, num).s)
  {
    hide Held, AckThrough;
  }

  lemma ResumedAfter(st: State, uid: Uid, ack: U32)
    ensures AllAfter(st, EResumeOk(uid, ack), ResumeOk(st, uid, ack).s)
  {
    hide Held, AckThrough;
  }

  lemma StartedAfter(st: State, uid: Uid)
    ensures AllAfter(st, ETrackStarted(uid), TrackStarted(st, uid).s)
  {
  }

  lemma StartAfter(st: State)
    ensures AllAfter(st, EStartBegin, StartBegin(st).s)
  {
    hide Held;
  }

  lemma AutoStartAfter(st: State)
    ensures AllAfter(st, EAutoStart, AutoStart(st).s)
  {
    hide Held;
  }

  lemma StartFailedAfter(st: State)
    ensures AllAfter(st, EStartFailed, StartFailed(st).s)
  {
  }

  lemma AutoStartFailedAfter(st: State)
    ensures AllAfter(st, EAutoStartFailed, AutoStartFailed(st).s)
  {
  }

  lemma ResumeFailedAfter(st: State)
    ensures AllAfter(st, EResumeFailed, ResumeFailed(st).s)
  {
  }

  lemma StopWaitAfter(st: State, waiting: bool)
    ensures AllAfter(st, EStopWait(waiting), StopWait(st, waiting).s)
  {
  }

  lemma ManualAfter(st: State, uid: Uid, last: nat)
    ensures AllAfter(st, EManualResume(uid, last), ManualResume(st, uid, last).s)
  {
  }

  lemma PreparedAfter(st: State)
    ensures AllAfter(st, EResumePrepare, ResumePrepare(st).s)
  {
  }
}
