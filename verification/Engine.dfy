/** The delivery engine (src/tracking/client.rs), one lock section at a time.

    `Session` is what the mutex guards. Every function below is one `inner.lock()` block of the
    source; what a task does outside the lock is left to interleaving. `Log` is history that no
    branch reads: which number was given to which point, which frames were built, what was handed
    to a writer, and where every emitted point went. */
module Engine {
  import opened Wrappers
  import opened Bytes
  import opened Points
  import opened Reading
  import opened Loc
  import opened Queue
  import opened Backoff
  import T = Types

  datatype Connection = Connecting | Open | Reconnecting | Closed

  datatype Session = Session(
    trackUid: Uid,
    lastAssigned: nat,
    lastAcked: nat,
    queue: Buffer,
    ready: bool,
    conn: Connection,
    socket: Option<nat>,      // out_tx, by the generation of the dial that installed it
    dialGen: nat,
    intentional: bool,
    starting: bool,
    startWait: bool,
    stopWait: bool,
    resumeWait: bool,
    backoff: BackoffState)

  /** A sequence number within one run of the counter: a new run begins with each start and whenever
      `resume()` sets the counter back. */
  datatype Name = Name(epoch: nat, num: nat)

  /** A Loc frame at the moment it was encoded, and the track it was encoded for. */
  datatype Built = Built(epoch: nat, track: Uid, last: nat, count: nat, live: bool, bytes: seq<Byte>)

  datatype Sent = Sent(gen: nat, bytes: seq<Byte>)

  datatype Log = Log(
    epoch: nat,
    names: map<Name, Sample>,
    built: seq<Built>,
    sessionStart: nat,          // |built| when this session became ready
    emitted: nat,
    acked: multiset<nat>,       // ids that left the queue by an ack, by the cap, with their track
    evicted: multiset<nat>,
    discarded: multiset<nat>,
    dials: set<nat>,            // dials in progress
    installed: seq<nat>,
    wire: seq<Sent>,
    starts: nat)                // TrackStart commands issued

  datatype State = State(s: Session, log: Log)

  function Max(a: nat, b: nat): nat {
    if a < b then b else a
  }

  function Min(a: nat, b: nat): nat {
    if a < b then a else b
  }

  // ---- Bookkeeping ----

  function SampleIds(ss: seq<Sample>): (r: seq<nat>)
    ensures |r| == |ss|
  {
    seq(|ss|, i requires 0 <= i < |ss| => ss[i].id)
  }

  function QueuedIds(qs: seq<Queued>): (r: seq<nat>)
    ensures |r| == |qs|
  {
    seq(|qs|, i requires 0 <= i < |qs| => qs[i].sample.id)
  }

  function Held(q: Buffer): multiset<nat> {
    multiset(QueuedIds(q.inflight)) + multiset(SampleIds(q.staging))
  }

  // ---- Dialing ----

  /** src/tracking/client.rs:298-309 */
  function DialBegin(st: State): State {
    var gen := st.s.dialGen + 1;
    State(
      st.s.(dialGen := gen, ready := false,
            conn := if st.s.conn.Open? || st.s.conn.Reconnecting? then Reconnecting else Connecting),
      st.log.(dials := st.log.dials + {gen}))
  }

  /** src/tracking/client.rs:381-387 */
  function DialInstall(st: State, gen: nat): State {
    if gen !in st.log.dials then st else
      var log := st.log.(dials := st.log.dials - {gen});
      if gen != st.s.dialGen || st.s.intentional then State(st.s, log)
      else State(st.s.(socket := Some(gen), conn := Open, backoff := Reset(st.s.backoff)),
                 log.(installed := log.installed + [gen]))
  }

  /** A dial that fails before Hello takes no lock section of its own. */
  function DialAbandon(st: State, gen: nat): State {
    State(st.s, st.log.(dials := st.log.dials - {gen}))
  }

  // ---- Server events ----

  /** src/tracking/client.rs:471-481 */
  function ResumeOk(st: State, uid: Uid, ack: U32): State {
    var q := AckThrough(st.s.queue, ack);
    State(
      st.s.(trackUid := if uid.NoUid? then st.s.trackUid else uid,
            lastAcked := ack,
            lastAssigned := Max(st.s.lastAssigned, ack),
            queue := q,
            ready := true,
            resumeWait := false),
      st.log.(acked := st.log.acked + (Held(st.s.queue) - Held(q)), sessionStart := |st.log.built|))
  }

  /** src/tracking/client.rs:490-496. The counters restart; the queue is not cleared. */
  function TrackStarted(st: State, uid: Uid): State {
    State(
      st.s.(trackUid := uid, lastAssigned := 0, lastAcked := 0, ready := true, starting := false, startWait := false),
      st.log.(epoch := st.log.epoch + 1, sessionStart := |st.log.built|))
  }

  /** The track ends: src/tracking/client.rs:507-510, 547-550, 562-564. */
  function DropTrack(st: State): State {
    State(
      st.s.(trackUid := NoUid, queue := Cleared(st.s.queue), ready := false),
      st.log.(discarded := st.log.discarded + Held(st.s.queue)))
  }

  /** src/tracking/client.rs:505-512 */
  function TrackStopped(st: State, uid: Uid): State {
    var d := if st.s.trackUid == uid then DropTrack(st) else st;
    d.(s := d.s.(stopWait := false))
  }

  /** src/tracking/client.rs:520-524 */
  function Ack(st: State, num: U32): State {
    var q := AckThrough(st.s.queue, num);
    State(
      st.s.(lastAcked := Max(st.s.lastAcked, num), queue := q),
      st.log.(acked := st.log.acked + (Held(st.s.queue) - Held(q))))
  }

  /** src/tracking/client.rs:544-566 */
  function ErrorEvent(st: State, code: T.ErrorCode): State {
    var a := if st.s.resumeWait && T.FatalResumeError(code) then DropTrack(st) else st;
    var b := a.(s := a.s.(resumeWait := false));
    var c := if b.s.startWait then b.(s := b.s.(starting := false, startWait := false)) else b;
    var d := c.(s := c.s.(stopWait := false));
    if code.TrackNotFound? then
      var e := DropTrack(d);
      e.(s := e.s.(starting := false))
    else d
  }

  // ---- Losing the socket ----

  function Reject(s: Session): Session {
    s.(startWait := false, stopWait := false, resumeWait := false)
  }

  /** src/tracking/client.rs:660-695 */
  function SocketClosed(st: State, gen: nat, canReconnect: bool): State {
    if gen != st.s.dialGen then st else
      var s := st.s.(socket := None, ready := false, queue := MarkUnsent(st.s.queue));
      if s.intentional then st.(s := s.(conn := Closed))
      else if !canReconnect then st.(s := Reject(s.(conn := Closed)))
      else if Exhausted(s.backoff) then st.(s := Reject(s.(conn := Closed)))
      else st.(s := s.(conn := Reconnecting, backoff := After(s.backoff)))
  }

  /** The socket in use dies, the delay passes, the next dial gets through, and its task asks to
      resume: src/tracking/client.rs:654-705 and 296-423, with nothing in between. */
  function Redialed(st: State): State {
    var d := DialBegin(SocketClosed(st, st.s.dialGen, true));
    ResumePrepare(DialInstall(d, d.s.dialGen))
  }

  /** src/tracking/client.rs:611-616 */
  function AuthDenied(st: State): State {
    st.(s := st.s.(intentional := true, conn := Closed, socket := None))
  }

  /** src/tracking/client.rs:632-636 */
  function AuthRefreshed(st: State): State {
    st.(s := st.s.(dialGen := st.s.dialGen + 1, ready := false, socket := None))
  }

  /** src/tracking/client.rs:647-649. The writer stays. */
  function AuthRefreshFailed(st: State): State {
    st.(s := st.s.(intentional := true, conn := Closed))
  }

  /** src/tracking/client.rs:1153-1158 */
  function CloseLocked(st: State): State {
    st.(s := Reject(st.s.(intentional := true, conn := Closed, ready := false)).(socket := None))
  }

  // ---- Commands ----

  function FreshTrack(st: State): State {
    State(
      st.s.(starting := true, queue := Cleared(st.s.queue), lastAssigned := 0, lastAcked := 0, ready := false),
      st.log.(epoch := st.log.epoch + 1, discarded := st.log.discarded + Held(st.s.queue), starts := st.log.starts + 1))
  }

  /** src/tracking/client.rs:905-912 */
  function StartBegin(st: State): State {
    var f := FreshTrack(st);
    f.(s := f.s.(startWait := true))
  }

  /** src/tracking/client.rs:926-928 */
  function StartFailed(st: State): State {
    st.(s := st.s.(startWait := false, starting := false))
  }

  predicate Idle(s: Session) {
    s.trackUid.NoUid? && !s.starting
  }

  /** src/tracking/client.rs:978-990 */
  function AutoStart(st: State): State {
    if Idle(st.s) then FreshTrack(st) else st
  }

  /** src/tracking/client.rs:1002-1003 */
  function AutoStartFailed(st: State): State {
    st.(s := st.s.(starting := false))
  }

  /** src/tracking/client.rs:941-945. A lower number begins a new run of the counter. */
  function ManualResume(st: State, uid: Uid, last: nat): State {
    State(
      st.s.(trackUid := uid, lastAssigned := last, resumeWait := true),
      st.log.(epoch := if last >= st.s.lastAssigned then st.log.epoch else st.log.epoch + 1,
              sessionStart := |st.log.built|))
  }

  /** src/tracking/client.rs:740-746; the command is `Resume { track_uid, last_assigned_seq }`. */
  function ResumePrepare(st: State): State {
    if st.s.trackUid.NoUid? then st else st.(s := st.s.(resumeWait := true))
  }

  /** src/tracking/client.rs:955-956 */
  function ResumeFailed(st: State): State {
    st.(s := st.s.(resumeWait := false))
  }

  /** src/tracking/client.rs:1061-1062 and 1065-1066 */
  function StopWait(st: State, waiting: bool): State {
    st.(s := st.s.(stopWait := waiting))
  }

  // ---- Points ----

  predicate CanSend(s: Session) {
    s.ready && s.conn.Open? && s.socket.Some?
  }

  /** strip_live_time: the server stamps live points on arrival. */
  function FixOf(p: LatLng, live: bool): Fix {
    if live then Quantise(p.(timestampMs := None)) else Quantise(p)
  }

  function SingleBytes(num: nat, f: Fix): seq<Byte> {
    LocBytes(num % TWO32, [f])
  }

  predicate Live(s: Session) {
    CanSend(s) && !WindowFull(s.queue)
  }

  /** src/tracking/client.rs:1024-1025 */
  function PublishStaged(st: State, flat: Flat, point: LatLng): State {
    var s, log := st.s, st.log;
    var sample := Sample(log.emitted, point);
    var q := PushStaging(flat, s.queue, sample);
    State(s.(queue := q),
          log.(emitted := log.emitted + 1,
               evicted := log.evicted + (Held(s.queue) + multiset{sample.id} - Held(q))))
  }

  /** src/tracking/client.rs:1027-1031 */
  function PublishLive(st: State, flat: Flat, point: LatLng): State {
    var s, log := st.s, st.log;
    var sample := Sample(log.emitted, point);
    var num := s.lastAssigned + 1;
    var q := Enqueue(flat, s.queue, num, sample);
    State(s.(lastAssigned := num, queue := RecordFrame(q, num)),
          log.(emitted := log.emitted + 1,
               evicted := log.evicted + (Held(s.queue) + multiset{sample.id} - Held(q)),
               names := log.names[Name(log.epoch, num) := sample],
               built := log.built + [Built(log.epoch, s.trackUid, num, 1, true, SingleBytes(num, FixOf(point, true)))]))
  }

  /** A point that the filter let through: src/tracking/client.rs:1019-1031. */
  function Publish(st: State, flat: Flat, point: LatLng): State {
    if Live(st.s) then PublishLive(st, flat, point) else PublishStaged(st, flat, point)
  }

  // ---- One pass of flush_queue: src/tracking/client.rs:773-829 ----

  function Take(s: Session): (n: nat)
    ensures n <= |s.queue.staging|
  {
    Min(|s.queue.staging|, MAX_LOC_POINTS * WindowRemaining(s.queue))
  }

  /** The points the pass encodes: what is unsent, else the next of Staging under new numbers. */
  function Picked(s: Session): seq<Queued> {
    var u := Unsent(s.queue.inflight);
    if u != [] then u else Number(s.queue.staging[..Take(s)], s.lastAssigned)
  }

  /** The session after the pass numbered what it picked. */
  function Claimed(s: Session): Session {
    if Unsent(s.queue.inflight) != [] then s
    else s.(queue := Assign(s.queue, Take(s), s.lastAssigned), lastAssigned := s.lastAssigned + Take(s))
  }

  function Fixes(qs: seq<Queued>): (fs: seq<Fix>)
    ensures |fs| == |qs|
  {
    seq(|qs|, i requires 0 <= i < |qs| => Quantise(qs[i].sample.point))
  }

  /** Picked points are numbered in one block; source code takes the last number and counts back. */
  ghost predicate Block(qs: seq<Queued>, first: nat) {
    forall i :: 0 <= i < |qs| ==> qs[i].num == first + i
  }

  predicate HasRoom(qs: seq<Queued>) {
    qs != [] ==> |qs| <= qs[|qs| - 1].num
  }

  function FirstNum(qs: seq<Queued>): nat
    requires qs != [] && HasRoom(qs)
  {
    qs[|qs| - 1].num + 1 - |qs|
  }

  /** The frames that fit the window. */
  function Sending(s: Session): seq<Piece>
    requires HasRoom(Picked(s))
  {
    if Picked(s) == [] then [] else
      var pieces := Pieces(FirstNum(Picked(s)), Fixes(Picked(s)), 0);
      pieces[..Min(|pieces|, WindowRemaining(s.queue))]
  }

  /** The number is read back from bytes 1..5 of the frame, hence modulo 2^32. */
  function RecordAll(q: Buffer, pieces: seq<Piece>): Buffer
    decreases pieces
  {
    if pieces == [] then q else RecordAll(RecordFrame(q, pieces[0].num % TWO32), pieces[1..])
  }

  function NewNames(epoch: nat, qs: seq<Queued>): map<Name, Sample> {
    if qs == [] then map[] else NewNames(epoch, qs[..|qs| - 1])[Name(epoch, qs[|qs| - 1].num) := qs[|qs| - 1].sample]
  }

  function BuiltFrom(epoch: nat, track: Uid, pieces: seq<Piece>, next: nat): (r: seq<Built>)
    requires Chained(pieces, next)
    ensures |r| == |pieces|
    decreases pieces
  {
    if pieces == [] then [] else
      [Built(epoch, track, pieces[0].num, |pieces[0].fixes|, false, PieceBytes(pieces[0]))]
      + BuiltFrom(epoch, track, pieces[1..], pieces[0].num + 1)
  }

  lemma SendingChained(s: Session)
    requires Picked(s) != [] && HasRoom(Picked(s))
    ensures Chained(Sending(s), FirstNum(Picked(s)))
    ensures |Joined(Sending(s))| <= |Picked(s)| && Joined(Sending(s)) == Fixes(Picked(s))[..|Joined(Sending(s))|]
  {
    var picked, first := Picked(s), FirstNum(Picked(s));
    var all := Pieces(first, Fixes(picked), 0);
    PiecesPartition(first, Fixes(picked), 0);
    assert Fixes(picked)[0..] == Fixes(picked);
    ChainedPrefix(all, first, Min(|all|, WindowRemaining(s.queue)));
    hide Pieces, Chained, Joined, Picked, Fixes;
  }

  predicate FlushIdle(s: Session) {
    !CanSend(s) || WindowRemaining(s.queue) == 0 || Picked(s) == []
  }

  function FlushPass(st: State): State
    requires HasRoom(Picked(st.s))
  {
    var s, log := st.s, st.log;
    if FlushIdle(s) then st else
      var c, pieces := Claimed(s), Sending(s);
      SendingChained(s);
      State(c.(queue := RecordAll(c.queue, pieces)),
            log.(names := log.names + NewNames(log.epoch, Picked(s)),
                 built := log.built + BuiltFrom(log.epoch, s.trackUid, pieces, FirstNum(Picked(s)))))
  }

  /** send_bin: src/tracking/client.rs:872-880. `alive` says whether the writer task still listens. */
  function HandOver(st: State, bytes: seq<Byte>, alive: bool): State {
    if st.s.conn.Closed? && st.s.intentional then st
    else if st.s.socket.None? || !alive then st
    else st.(log := st.log.(wire := st.log.wire + [Sent(st.s.socket.value, bytes)]))
  }
}
