/** Runs that the code allows and that break what one might expect of it, each from a state that a
    new client reaches, and what exactly decides whether they do. */
module Races {
  import opened Wrappers
  import opened Bytes
  import opened Points
  import opened Reading
  import opened Loc
  import opened Queue
  import opened Backoff
  import opened Engine
  import opened Runs
  import opened Safety
  import opened Handlers
  import opened Tracks
  import T = Types

  // ---- Building runs ----

  /** `es` leads from `st` to `r`. */
  ghost predicate Reaches(flat: Flat, st: State, es: seq<Event>, r: State) {
    Inv(st) && RunAllowed(flat, st, es) && Run(flat, st, es) == r
  }

  /** Some run of lock sections leads from `st` to `r`. */
  ghost predicate Reachable(flat: Flat, st: State, r: State) {
    exists es :: Reaches(flat, st, es, r)
  }

  lemma ReachesNothing(flat: Flat, st: State)
    requires Inv(st)
    ensures Reaches(flat, st, [], st)
  {
    hide Inv;
  }

  lemma {:induction false} ReachesMore(flat: Flat, st: State, es: seq<Event>, r: State, e: Event)
    requires Reaches(flat, st, es, r) && Allowed(r, e)
    ensures Shape(r.s.queue, r.s.lastAssigned) && Reaches(flat, st, es + [e], Step(flat, r, e)) && Inv(Step(flat, r, e))
    decreases es
  {
    hide Inv, Allowed, Step, Shape;
    InvShape(r);
    InvStep(flat, r, e);
    if es == [] {
      RunFrom(flat, st, e, []);
      assert [e] + [] == [] + [e];
    } else {
      InvShape(st);
      InvStep(flat, st, es[0]);
      var v := Step(flat, st, es[0]);
      ReachesMore(flat, v, es[1..], r, e);
      RunFrom(flat, st, es[0], es[1..] + [e]);
      assert [es[0]] + (es[1..] + [e]) == es + [e];
    }
  }

  // ---- One lock section more ----

  lemma Onward(flat: Flat, s0: State, st: State, e: Event)
    requires Reachable(flat, s0, st) && Inv(st) && Allowed(st, e)
    ensures Shape(st.s.queue, st.s.lastAssigned) && Reachable(flat, s0, Step(flat, st, e)) && Inv(Step(flat, st, e))
  {
    hide Inv, Allowed, Step, Reaches;
    InvShape(st);
    var es :| Reaches(flat, s0, es, st);
    ReachesMore(flat, s0, es, st, e);
  }

  lemma ThenDialBegin(flat: Flat, s0: State, st: State)
    requires Reachable(flat, s0, st) && Inv(st)
    ensures Reachable(flat, s0, DialBegin(st)) && Inv(DialBegin(st))
  {
    hide Inv, Reachable, Shape, StartedCleanly, ResumesCleanly, Room, FlushPass, Publish, ErrorEvent, SocketClosed, TrackStopped,
      TrackStarted, StartBegin, AutoStart, Ack, ResumeOk, ManualResume, ResumePrepare, DialBegin, DialInstall, PickedOk;
    Onward(flat, s0, st, EDialBegin);
  }

  lemma ThenDialInstall(flat: Flat, s0: State, st: State, gen: nat)
    requires Reachable(flat, s0, st) && Inv(st)
    ensures Reachable(flat, s0, DialInstall(st, gen)) && Inv(DialInstall(st, gen))
  {
    hide Inv, Reachable, Shape, StartedCleanly, ResumesCleanly, Room, FlushPass, Publish, ErrorEvent, SocketClosed, TrackStopped,
      TrackStarted, StartBegin, AutoStart, Ack, ResumeOk, ManualResume, ResumePrepare, DialBegin, DialInstall, PickedOk;
    Onward(flat, s0, st, EDialInstall(gen));
  }

  lemma ThenAutoStart(flat: Flat, s0: State, st: State)
    requires Reachable(flat, s0, st) && Inv(st)
    ensures Reachable(flat, s0, AutoStart(st)) && Inv(AutoStart(st))
  {
    hide Inv, Reachable, Shape, StartedCleanly, ResumesCleanly, Room, FlushPass, Publish, ErrorEvent, SocketClosed, TrackStopped,
      TrackStarted, StartBegin, AutoStart, Ack, ResumeOk, ManualResume, ResumePrepare, DialBegin, DialInstall, PickedOk;
    Onward(flat, s0, st, EAutoStart);
  }

  lemma ThenStartBegin(flat: Flat, s0: State, st: State)
    requires Reachable(flat, s0, st) && Inv(st)
    ensures Reachable(flat, s0, StartBegin(st)) && Inv(StartBegin(st))
  {
    hide Inv, Reachable, Shape, StartedCleanly, ResumesCleanly, Room, FlushPass, Publish, ErrorEvent, SocketClosed, TrackStopped,
      TrackStarted, StartBegin, AutoStart, Ack, ResumeOk, ManualResume, ResumePrepare, DialBegin, DialInstall, PickedOk;
    Onward(flat, s0, st, EStartBegin);
  }

  lemma ThenResumePrepare(flat: Flat, s0: State, st: State)
    requires Reachable(flat, s0, st) && Inv(st)
    ensures Reachable(flat, s0, ResumePrepare(st)) && Inv(ResumePrepare(st))
  {
    hide Inv, Reachable, Shape, StartedCleanly, ResumesCleanly, Room, FlushPass, Publish, ErrorEvent, SocketClosed, TrackStopped,
      TrackStarted, StartBegin, AutoStart, Ack, ResumeOk, ManualResume, ResumePrepare, DialBegin, DialInstall, PickedOk;
    Onward(flat, s0, st, EResumePrepare);
  }

  lemma ThenSocketClosed(flat: Flat, s0: State, st: State, gen: nat)
    requires Reachable(flat, s0, st) && Inv(st)
    ensures Reachable(flat, s0, SocketClosed(st, gen, true)) && Inv(SocketClosed(st, gen, true))
  {
    hide Inv, Reachable, Shape, StartedCleanly, ResumesCleanly, Room, FlushPass, Publish, ErrorEvent, SocketClosed, TrackStopped,
      TrackStarted, StartBegin, AutoStart, Ack, ResumeOk, ManualResume, ResumePrepare, DialBegin, DialInstall, PickedOk;
    Onward(flat, s0, st, ESocketClosed(gen, true));
  }

  lemma ThenResumeOk(flat: Flat, s0: State, st: State, uid: Uid, ack: U32)
    requires Reachable(flat, s0, st) && Inv(st)
    ensures Reachable(flat, s0, ResumeOk(st, uid, ack)) && Inv(ResumeOk(st, uid, ack))
  {
    hide Inv, Reachable, Shape, StartedCleanly, ResumesCleanly, Room, FlushPass, Publish, ErrorEvent, SocketClosed, TrackStopped,
      TrackStarted, StartBegin, AutoStart, Ack, ResumeOk, ManualResume, ResumePrepare, DialBegin, DialInstall, PickedOk;
    Onward(flat, s0, st, EResumeOk(uid, ack));
  }

  lemma ThenTrackStarted(flat: Flat, s0: State, st: State, uid: Uid)
    requires Reachable(flat, s0, st) && Inv(st) && StartedCleanly(st.s)
    ensures Reachable(flat, s0, TrackStarted(st, uid)) && Inv(TrackStarted(st, uid))
  {
    hide Inv, Reachable, Shape, StartedCleanly, ResumesCleanly, Room, FlushPass, Publish, ErrorEvent, SocketClosed, TrackStopped,
      TrackStarted, StartBegin, AutoStart, Ack, ResumeOk, ManualResume, ResumePrepare, DialBegin, DialInstall, PickedOk;
    Onward(flat, s0, st, ETrackStarted(uid));
  }

  lemma ThenManualResume(flat: Flat, s0: State, st: State, uid: Uid, last: nat)
    requires Reachable(flat, s0, st) && Inv(st) && ResumesCleanly(st.s, last)
    ensures Reachable(flat, s0, ManualResume(st, uid, last)) && Inv(ManualResume(st, uid, last))
  {
    hide Inv, Reachable, Shape, StartedCleanly, ResumesCleanly, Room, FlushPass, Publish, ErrorEvent, SocketClosed, TrackStopped,
      TrackStarted, StartBegin, AutoStart, Ack, ResumeOk, ManualResume, ResumePrepare, DialBegin, DialInstall, PickedOk;
    Onward(flat, s0, st, EManualResume(uid, last));
  }

  lemma ThenPublish(flat: Flat, s0: State, st: State, point: LatLng)
    requires Reachable(flat, s0, st) && Inv(st) && Room(st.s)
    ensures Reachable(flat, s0, Publish(st, flat, point)) && Inv(Publish(st, flat, point))
  {
    hide Inv, Reachable, Shape, Room, Publish, Ack, Step, Allowed;
    InvShape(st);
    StepIsPublish(flat, st, point);
    Onward(flat, s0, st, EPublish(point));
  }

  lemma ThenAck(flat: Flat, s0: State, st: State, num: U32)
    requires Reachable(flat, s0, st) && Inv(st)
    ensures Reachable(flat, s0, Ack(st, num)) && Inv(Ack(st, num))
  {
    hide Inv, Reachable, Shape, Room, Publish, Ack, Step, Allowed;
    InvShape(st);
    StepIsAck(flat, st, num);
    Onward(flat, s0, st, EAck(num));
  }

  lemma ThenDialAbandon(flat: Flat, s0: State, st: State, gen: nat)
    requires Reachable(flat, s0, st) && Inv(st)
    ensures Reachable(flat, s0, DialAbandon(st, gen)) && Inv(DialAbandon(st, gen))
  {
    hide Inv, Reachable, Shape, StartedCleanly, ResumesCleanly, Room, FlushPass, Publish, ErrorEvent, SocketClosed, TrackStopped,
      TrackStarted, StartBegin, AutoStart, Ack, ResumeOk, ManualResume, ResumePrepare, DialBegin, DialInstall, DialAbandon, PickedOk;
    Onward(flat, s0, st, EDialAbandon(gen));
  }

  lemma ThenHandOver(flat: Flat, s0: State, st: State, bytes: seq<Byte>)
    requires Reachable(flat, s0, st) && Inv(st)
    ensures Reachable(flat, s0, HandOver(st, bytes, true)) && Inv(HandOver(st, bytes, true))
  {
    hide Inv, Reachable, Shape, StartedCleanly, ResumesCleanly, Room, FlushPass, Publish, ErrorEvent, SocketClosed, TrackStopped,
      TrackStarted, StartBegin, AutoStart, Ack, ResumeOk, ManualResume, ResumePrepare, DialBegin, DialInstall, HandOver, PickedOk;
    Onward(flat, s0, st, EHandOver(bytes, true));
  }

  // ---- A track under way ----

  /** A live track on an open socket, everything sent and acknowledged. */
  ghost predicate Sailing(st: State, uid: Uid, last: nat) {
    && Inv(st) && !uid.NoUid? && st.s.trackUid == uid
    && st.s.ready && st.s.conn.Open? && st.s.socket.Some? && !st.s.intentional && !st.s.starting
    && !Exhausted(st.s.backoff) && st.s.socket == Some(st.s.dialGen) && st.s.dialGen in st.log.installed
    && st.s.lastAssigned == last && last + 4 < TWO32
    && st.s.queue.staging == [] && st.s.queue.inflight == [] && st.s.queue.frames == [] && st.s.queue.cap >= 4
  }

  /** The first dial, the automatic start, and its answer. */
  function Launch(cap: nat, backoff: BackoffState, uid: Uid): State {
    TrackStarted(AutoStart(DialInstall(DialBegin(Initial(cap, backoff)), 1)), uid)
  }

  /** A new client gets there with its first point. */
  lemma SetsSail(flat: Flat, cap: nat, backoff: BackoffState, uid: Uid)
    requires !uid.NoUid? && (cap == 0 || cap >= 4)
    ensures var st := Launch(cap, backoff, uid);
            && Reachable(flat, Initial(cap, backoff), st) && Sailing(st, uid, 0)
            && st.log.built == [] && st.log.emitted == 0 && OnceNamed(st)
  {
    var s0 := Initial(cap, backoff);
    Launched(cap, backoff, uid);
    InitialInv(cap, backoff);
    hide Inv, Reachable, Reaches, Initial, DialBegin, DialInstall, AutoStart, TrackStarted, Sailing, OnceNamed, StartedCleanly;
    ReachesNothing(flat, s0);
    assert Reachable(flat, s0, s0) by {
      ReachableSelf(flat, s0);
    }
    ThenDialBegin(flat, s0, s0);
    ThenDialInstall(flat, s0, DialBegin(s0), 1);
    ThenAutoStart(flat, s0, DialInstall(DialBegin(s0), 1));
    ThenTrackStarted(flat, s0, AutoStart(DialInstall(DialBegin(s0), 1)), uid);
  }

  lemma ReachableSelf(flat: Flat, st: State)
    requires Inv(st)
    ensures Reachable(flat, st, st)
  {
    ReachesNothing(flat, st);
    hide Inv, Reaches;
  }

  lemma Launched(cap: nat, backoff: BackoffState, uid: Uid)
    requires !uid.NoUid? && (cap == 0 || cap >= 4)
    ensures var s3 := AutoStart(DialInstall(DialBegin(Initial(cap, backoff)), 1));
            var st := TrackStarted(s3, uid);
            && StartedCleanly(s3.s)
            && (Inv(st) ==> Sailing(st, uid, 0)) && st.log.built == [] && st.log.emitted == 0 && OnceNamed(st)
  {
    hide Inv;
  }

  /** May send, and nothing waits, is in flight, or is counted in the window. */
  predicate Empty(s: Session) {
    CanSend(s) && s.queue.staging == [] && s.queue.inflight == [] && s.queue.frames == [] && s.queue.cap >= 4
  }

  function LiveBuilt(st: State, point: LatLng): Built {
    Built(st.log.epoch, st.s.trackUid, st.s.lastAssigned + 1, 1, true, SingleBytes(st.s.lastAssigned + 1, FixOf(point, true)))
  }

  /** A publish over an empty queue goes live under the next number. */
  lemma FirstPublish(flat: Flat, st: State, point: LatLng)
    requires Empty(st.s)
    ensures var r, num, sample := Publish(st, flat, point), st.s.lastAssigned + 1, Sample(st.log.emitted, point);
            && r.s == st.s.(lastAssigned := num, queue := Buffer(st.s.queue.cap, [], [Queued(num, sample, true)], [num]))
            && r.log == st.log.(emitted := st.log.emitted + 1, evicted := r.log.evicted,
                                names := st.log.names[Name(st.log.epoch, num) := sample], built := st.log.built + [LiveBuilt(st, point)])
  {
    hide SingleBytes, FixOf, Held;
    var num, sample := st.s.lastAssigned + 1, Sample(st.log.emitted, point);
    var q := st.s.queue.(inflight := [Queued(num, sample, true)]);
    assert st.s.queue.inflight + [Queued(num, sample, true)] == q.inflight;
    CapSingle(flat, q);
    assert MarkThrough(q.inflight, num) == q.inflight;
    hide MarkThrough, EnforceCap, DropOne;
  }

  /** A drop and a dial that gets through: nothing counts as sent, the session is not open, and a
      live track has its Resume outstanding. */
  lemma RedialedIs(st: State)
    requires !st.s.intentional && !Exhausted(st.s.backoff)
    ensures var r, gen := Redialed(st), st.s.dialGen + 1;
            && r.s == st.s.(socket := Some(gen), conn := Open, ready := false, queue := MarkUnsent(st.s.queue), dialGen := gen,
                            backoff := Reset(After(st.s.backoff)), resumeWait := st.s.resumeWait || !st.s.trackUid.NoUid?)
            && r.log == st.log.(dials := r.log.dials, installed := st.log.installed + [gen])
  {
    hide MarkUnsent;
  }

  lemma ThenRedial(flat: Flat, s0: State, st: State)
    requires Reachable(flat, s0, st) && Inv(st)
    ensures Reachable(flat, s0, Redialed(st)) && Inv(Redialed(st))
  {
    var a := SocketClosed(st, st.s.dialGen, true);
    var b := DialBegin(a);
    hide Inv, Reachable, SocketClosed, DialBegin, DialInstall, ResumePrepare;
    ThenSocketClosed(flat, s0, st, st.s.dialGen);
    ThenDialBegin(flat, s0, a);
    ThenDialInstall(flat, s0, b, b.s.dialGen);
    ThenResumePrepare(flat, s0, DialInstall(b, b.s.dialGen));
  }

  // ---- One number, two points of one track ----

  /** `r` built two frames since `st`, for two counter runs: number `num` of track `uid` with `p`,
      and again with `q`. */
  ghost predicate TwoPoints(st: State, r: State, uid: Uid, num: nat, p: LatLng, q: LatLng) {
    && |r.log.built| == |st.log.built| + 2
    && (var a, b := r.log.built[|st.log.built|], r.log.built[|st.log.built| + 1];
        && a.epoch != b.epoch
        && a == Built(a.epoch, uid, num, 1, true, SingleBytes(num, FixOf(p, true)))
        && b == Built(b.epoch, uid, num, 1, true, SingleBytes(num, FixOf(q, true))))
  }

  /** Publish `p`; a new start that is not answered before the socket drops; the redial resumes the
      old track at its cursor. */
  function Restarted(flat: Flat, st: State, uid: Uid, last: U32, p: LatLng): State {
    ResumeOk(Redialed(StartBegin(Publish(st, flat, p))), uid, last)
  }

  lemma RestartedIs(flat: Flat, st: State, uid: Uid, last: U32, p: LatLng)
    requires Sailing(st, uid, last)
    ensures var d := Restarted(flat, st, uid, last, p);
            && Empty(d.s) && d.s.trackUid == uid && d.s.lastAssigned == last && d.s.starting
            && d.log.epoch == st.log.epoch + 1 && d.log.built == st.log.built + [LiveBuilt(st, p)] && !Beyond(d)
  {
    hide Inv, Sailing, CanSend, Publish, LiveBuilt, StartBegin, Redialed, ResumeOk, Exhausted, Beyond, NextToSend;
    SailingEmpty(st, uid, last);
    PublishedOne(flat, st, p);
    var a := Publish(st, flat, p);
    StartedAgain(a);
    ResumeEmpty(StartBegin(a), uid, last);
    var d := Restarted(flat, st, uid, last, p);
    assert LiveBuilt(st, p) in d.log.built;
    BuiltFor(st, p);
    EmptyNext(d.s);
    NotBeyond(d, LiveBuilt(st, p));
  }

  lemma BuiltFor(st: State, p: LatLng)
    ensures var b := LiveBuilt(st, p); b.epoch == st.log.epoch && b.track == st.s.trackUid && b.last == st.s.lastAssigned + 1
  {
    hide SingleBytes, FixOf;
  }

  lemma StartedAgain(a: State)
    ensures var b := StartBegin(a);
            && b.s.queue == Cleared(a.s.queue) && b.s.trackUid == a.s.trackUid && b.s.lastAssigned == 0 && b.s.starting
            && b.s.intentional == a.s.intentional && b.s.backoff == a.s.backoff
            && b.log.epoch == a.log.epoch + 1 && b.log.built == a.log.built
  {
  }

  /** Nothing queued, a drop, a redial, and a ResumeOk. */
  lemma ResumeEmpty(a: State, uid: Uid, ack: U32)
    requires !a.s.intentional && !Exhausted(a.s.backoff) && a.s.trackUid == uid && a.s.lastAssigned <= ack
    requires a.s.queue.inflight == [] && a.s.queue.staging == [] && a.s.queue.frames == [] && a.s.queue.cap >= 4
    ensures var c := ResumeOk(Redialed(a), uid, ack);
            && Empty(c.s) && c.s.lastAssigned == ack && c.s.trackUid == uid && c.s.starting == a.s.starting
            && c.log.epoch == a.log.epoch && c.log.built == a.log.built
  {
    RedialedIs(a);
    assert MarkUnsent(a.s.queue) == a.s.queue;
    assert AckThrough(a.s.queue, ack) == a.s.queue;
    hide Redialed, MarkUnsent, AckThrough, Reset, Exhausted, Held;
  }

  lemma NotBeyond(d: State, b: Built)
    ensures b in d.log.built && b.track == d.s.trackUid && b.epoch != d.log.epoch && NextToSend(d.s) <= b.last ==> !Beyond(d)
  {
    hide NextToSend;
  }

  /** Both points went out under the same number of the same track. */
  lemma RestartRebinds(flat: Flat, s0: State, st: State, uid: Uid, last: U32, p: LatLng, q: LatLng)
    requires Reachable(flat, s0, st) && Sailing(st, uid, last) && OnceNamed(st)
    ensures var d := Restarted(flat, st, uid, last, p);
            var r := Publish(d, flat, q);
            && Reachable(flat, s0, d) && !Beyond(d)
            && Reachable(flat, s0, r) && TwoPoints(st, r, uid, last + 1, p, q)
            && AllAgree(r.log.names, r.log.built) && !TrackAgrees(r.log)
  {
    var d := Restarted(flat, st, uid, last, p);
    RestartedIs(flat, st, uid, last, p);
    SailingInv(st, uid, last);
    TwiceBuilt(flat, st, d, uid, last, p, q);
    hide *;
    RestartReached(flat, s0, st, uid, last, p);
    ThenPublish(flat, s0, d, q);
    RestartOnceNamed(flat, st, uid, last, p, q);
    TwoPointsDisagree(st, Publish(d, flat, q), uid, last + 1, p, q);
  }

  lemma SailingInv(st: State, uid: Uid, last: nat)
    requires Sailing(st, uid, last)
    ensures Inv(st) && Room(st.s)
  {
    hide Inv;
  }

  /** The same number once more, in another counter run. */
  lemma TwiceBuilt(flat: Flat, st: State, d: State, uid: Uid, last: nat, p: LatLng, q: LatLng)
    requires Sailing(st, uid, last)
    requires Empty(d.s) && d.s.trackUid == uid && d.s.lastAssigned == last && d.log.epoch != st.log.epoch
    requires d.log.built == st.log.built + [LiveBuilt(st, p)]
    ensures TwoPoints(st, Publish(d, flat, q), uid, last + 1, p, q) && Room(d.s)
  {
    hide Inv, Publish, SingleBytes, FixOf, Exhausted;
    FirstPublish(flat, d, q);
    TwoMore(st.log.built, LiveBuilt(st, p), LiveBuilt(d, q), Publish(d, flat, q).log.built);
  }

  lemma TwoMore(x: seq<Built>, a: Built, b: Built, y: seq<Built>)
    requires y == x + [a] + [b]
    ensures |y| == |x| + 2 && y[|x|] == a && y[|x| + 1] == b
  {
  }

  lemma RestartReached(flat: Flat, s0: State, st: State, uid: Uid, last: U32, p: LatLng)
    requires Reachable(flat, s0, st) && Inv(st) && Room(st.s)
    ensures var d := Restarted(flat, st, uid, last, p); Reachable(flat, s0, d) && Inv(d)
  {
    hide Inv, Reachable, Room, Publish, StartBegin, Redialed, ResumeOk;
    ThenPublish(flat, s0, st, p);
    ThenStartBegin(flat, s0, Publish(st, flat, p));
    ThenRedial(flat, s0, StartBegin(Publish(st, flat, p)));
    ThenResumeOk(flat, s0, Redialed(StartBegin(Publish(st, flat, p))), uid, last);
  }

  lemma RestartOnceNamed(flat: Flat, st: State, uid: Uid, last: U32, p: LatLng, q: LatLng)
    requires Inv(st) && OnceNamed(st) && Room(st.s) && Room(Restarted(flat, st, uid, last, p).s) && Inv(Restarted(flat, st, uid, last, p))
    ensures OnceNamed(Publish(Restarted(flat, st, uid, last, p), flat, q))
  {
    var a := Publish(st, flat, p);
    var d := Restarted(flat, st, uid, last, p);
    PublishOnceNamed(flat, st, p);
    RestartKeepsNames(flat, st, uid, last, p);
    hide Inv, Room, Publish, Restarted, OnceNamed;
    OnceNamedSame(a, d);
    PublishOnceNamed(flat, d, q);
  }

  lemma RestartKeepsNames(flat: Flat, st: State, uid: Uid, last: U32, p: LatLng)
    ensures var a, d := Publish(st, flat, p), Restarted(flat, st, uid, last, p);
            d.log.names == a.log.names && d.log.emitted == a.log.emitted && d.s.queue.staging == []
  {
    hide Publish, StartBegin, Redialed, ResumeOk;
    StartedNames(Publish(st, flat, p));
    ResumedNames(StartBegin(Publish(st, flat, p)), uid, last);
  }

  lemma StartedNames(a: State)
    ensures var b := StartBegin(a); b.log.names == a.log.names && b.log.emitted == a.log.emitted && b.s.queue.staging == []
  {
    hide Held;
  }

  lemma ResumedNames(b: State, uid: Uid, ack: U32)
    ensures var d := ResumeOk(Redialed(b), uid, ack);
            d.log.names == b.log.names && d.log.emitted == b.log.emitted && d.s.queue.staging == b.s.queue.staging
  {
    hide KeepAbove, FramesAbove, Held, Exhausted, MarkUnsent, Reset;
    MarkKeepsStaging(b.s.queue);
  }

  lemma PublishOnceNamed(flat: Flat, st: State, point: LatLng)
    requires Inv(st) && OnceNamed(st) && Room(st.s)
    ensures OnceNamed(Publish(st, flat, point))
  {
    InvParts(st);
    InvShape(st);
    hide Inv, Delivery, Shape, OnceNamed, Room, Publish, Step, Allowed;
    StepIsPublish(flat, st, point);
    OnceNamedStep(flat, st, EPublish(point));
  }

  lemma TwoPointsDisagree(st: State, r: State, uid: Uid, num: nat, p: LatLng, q: LatLng)
    requires Inv(r) && OnceNamed(r) && TwoPoints(st, r, uid, num, p, q)
    ensures AllAgree(r.log.names, r.log.built) && !TrackAgrees(r.log)
  {
    InvParts(r);
    var a, b := r.log.built[|st.log.built|], r.log.built[|st.log.built| + 1];
    hide Inv, OnceNamed, Delivery, TrackAgrees, SingleBytes, FixOf;
    AcrossRunsDiffers(r, a, b, num);
  }

  /** By hand: resume another track, come back below what was sent, publish. */
  function CameBack(flat: Flat, st: State, uid: Uid, other: Uid, last: U32, p: LatLng): State
    requires last + 1 < TWO32
  {
    ManualResume(ManualResume(Ack(Publish(st, flat, p), last + 1), other, 0), uid, last)
  }

  lemma AckOne(q: Buffer, num: nat)
    requires |q.inflight| == 1 && q.inflight[0].num == num && q.frames == [num]
    ensures AckThrough(q, num) == q.(inflight := [], frames := [])
  {
    assert KeepAbove(q.inflight[1..], num) == [] && FramesAbove(q.frames[1..], num) == [];
  }

  /** One point published and acknowledged. */
  lemma OneAcked(flat: Flat, st: State, p: LatLng)
    requires Empty(st.s) && st.s.lastAssigned + 1 < TWO32
    ensures var b := Ack(Publish(st, flat, p), st.s.lastAssigned + 1);
            && b.s.queue == st.s.queue && b.s.lastAssigned == st.s.lastAssigned + 1 && b.s.trackUid == st.s.trackUid && CanSend(b.s)
            && b.log.epoch == st.log.epoch && b.log.built == st.log.built + [LiveBuilt(st, p)]
  {
    PublishedOne(flat, st, p);
    PublishOpen(flat, st, p);
    var a := Publish(st, flat, p);
    hide Publish, LiveBuilt, Held, CanSend;
    AckOne(a.s.queue, st.s.lastAssigned + 1);
    hide AckThrough;
  }

  lemma PublishOpen(flat: Flat, st: State, p: LatLng)
    requires Empty(st.s)
    ensures CanSend(Publish(st, flat, p).s)
  {
    FirstPublish(flat, st, p);
    hide Publish, LiveBuilt;
  }

  /** To another track and back. */
  lemma ThereAndBack(b: State, uid: Uid, other: Uid, last: nat)
    requires Empty(b.s) && b.s.trackUid == uid != other && last < TWO32 && b.s.lastAssigned > 0
    ensures var c := ManualResume(b, other, 0);
            var d := ManualResume(c, uid, last);
            && ResumesCleanly(b.s, 0) && ResumesCleanly(c.s, last)
            && Empty(d.s) && d.s.trackUid == uid && d.s.lastAssigned == last
            && d.log.epoch == b.log.epoch + 1 && d.log.built == b.log.built
  {
  }

  lemma CameBackIs(flat: Flat, st: State, uid: Uid, other: Uid, last: U32, p: LatLng)
    requires Sailing(st, uid, last) && other != uid
    ensures var b := Ack(Publish(st, flat, p), last + 1);
            var d := CameBack(flat, st, uid, other, last, p);
            && ResumesCleanly(b.s, 0) && ResumesCleanly(ManualResume(b, other, 0).s, last)
            && Empty(d.s) && d.s.trackUid == uid && d.s.lastAssigned == last
            && d.log.epoch == st.log.epoch + 1 && d.log.built == st.log.built + [LiveBuilt(st, p)] && !Beyond(d)
  {
    hide Inv, Publish, SingleBytes, FixOf, Ack, ManualResume, ResumesCleanly, Beyond, Exhausted;
    OneAcked(flat, st, p);
    ThereAndBack(Ack(Publish(st, flat, p), last + 1), uid, other, last);
    var d := CameBack(flat, st, uid, other, last, p);
    NotBeyond(d, LiveBuilt(st, p));
    assert LiveBuilt(st, p) in d.log.built;
    EmptyNext(d.s);
  }

  lemma EmptyNext(s: Session)
    requires Empty(s)
    ensures NextToSend(s) == s.lastAssigned + 1
  {
  }

  lemma ManualResumeRebinds(flat: Flat, s0: State, st: State, uid: Uid, other: Uid, last: U32, p: LatLng, q: LatLng)
    requires Reachable(flat, s0, st) && Sailing(st, uid, last) && other != uid
    ensures var d := CameBack(flat, st, uid, other, last, p);
            var r := Publish(d, flat, q);
            && Reachable(flat, s0, d) && !Beyond(d)
            && Reachable(flat, s0, r) && TwoPoints(st, r, uid, last + 1, p, q)
  {
    var d := CameBack(flat, st, uid, other, last, p);
    CameBackIs(flat, st, uid, other, last, p);
    SailingInv(st, uid, last);
    TwiceBuilt(flat, st, d, uid, last, p, q);
    var num: U32 := last + 1;
    var a := Publish(st, flat, p);
    var b := Ack(a, num);
    var c := ManualResume(b, other, 0);
    assert d == ManualResume(c, uid, last);
    hide *;
    ThenPublish(flat, s0, st, p);
    ThenAck(flat, s0, a, num);
    ThenManualResume(flat, s0, b, other, 0);
    ThenManualResume(flat, s0, c, uid, last);
    ThenPublish(flat, s0, d, q);
  }

  /** Or simply set the counter of the same track back. */
  function Rewound(flat: Flat, st: State, uid: Uid, last: U32, p: LatLng): State
    requires last + 1 < TWO32
  {
    ManualResume(Ack(Publish(st, flat, p), last + 1), uid, last)
  }

  lemma RewoundIs(flat: Flat, st: State, uid: Uid, last: U32, p: LatLng)
    requires Sailing(st, uid, last)
    ensures var d := Rewound(flat, st, uid, last, p);
            && ResumesCleanly(Ack(Publish(st, flat, p), last + 1).s, last)
            && Empty(d.s) && d.s.trackUid == uid && d.s.lastAssigned == last
            && d.log.epoch == st.log.epoch + 1 && d.log.built == st.log.built + [LiveBuilt(st, p)] && !Beyond(d)
  {
    hide Inv, Publish, SingleBytes, FixOf, Ack, ManualResume, ResumesCleanly, Beyond, Exhausted;
    OneAcked(flat, st, p);
    SetBack(Ack(Publish(st, flat, p), last + 1), uid, last);
    var d := Rewound(flat, st, uid, last, p);
    NotBeyond(d, LiveBuilt(st, p));
    assert LiveBuilt(st, p) in d.log.built;
    EmptyNext(d.s);
  }

  lemma SetBack(b: State, uid: Uid, last: nat)
    requires Empty(b.s) && b.s.trackUid == uid && last < b.s.lastAssigned && last < TWO32
    ensures var d := ManualResume(b, uid, last);
            && ResumesCleanly(b.s, last) && Empty(d.s) && d.s.trackUid == uid && d.s.lastAssigned == last
            && d.log.epoch == b.log.epoch + 1 && d.log.built == b.log.built
  {
  }

  lemma RewindRebinds(flat: Flat, s0: State, st: State, uid: Uid, last: U32, p: LatLng, q: LatLng)
    requires Reachable(flat, s0, st) && Sailing(st, uid, last)
    ensures var d := Rewound(flat, st, uid, last, p);
            var r := Publish(d, flat, q);
            && Reachable(flat, s0, d) && !Beyond(d)
            && Reachable(flat, s0, r) && TwoPoints(st, r, uid, last + 1, p, q)
  {
    var d := Rewound(flat, st, uid, last, p);
    RewoundIs(flat, st, uid, last, p);
    SailingInv(st, uid, last);
    TwiceBuilt(flat, st, d, uid, last, p, q);
    var num: U32 := last + 1;
    var a := Publish(st, flat, p);
    assert d == ManualResume(Ack(a, num), uid, last);
    hide *;
    ThenPublish(flat, s0, st, p);
    ThenAck(flat, s0, a, num);
    ThenManualResume(flat, s0, Ack(a, num), uid, last);
    ThenPublish(flat, s0, d, q);
  }

  // ---- A dial that is installed over an open session ----

  /** A live publish under the cap. */
  lemma LiveUnderCap(flat: Flat, st: State, point: LatLng)
    requires Live(st.s) && Size(st.s.queue) < st.s.queue.cap
    ensures var q, num := st.s.queue, st.s.lastAssigned + 1;
            Publish(st, flat, point).s.queue
            == RecordFrame(q.(inflight := q.inflight + [Queued(num, Sample(st.log.emitted, point), true)]), num)
  {
    LiveQueue(flat, st, point);
    PublishCases(flat, st, point);
    CapSingle(flat, st.s.queue.(inflight := st.s.queue.inflight + [Queued(st.s.lastAssigned + 1, Sample(st.log.emitted, point), true)]));
    hide Publish, PublishLive, EnforceCap, RecordFrame, Live;
  }

  /** A publish that cannot go live, over an empty queue. */
  lemma FirstStaged(flat: Flat, st: State, point: LatLng)
    requires !st.s.ready && st.s.queue.cap >= 4 && st.s.queue.staging == [] && st.s.queue.inflight == []
    ensures var r := Publish(st, flat, point);
            && r.s == st.s.(queue := st.s.queue.(staging := [Sample(st.log.emitted, point)]))
            && r.log == st.log.(emitted := st.log.emitted + 1, evicted := r.log.evicted)
  {
    CapSingle(flat, st.s.queue.(staging := st.s.queue.staging + [Sample(st.log.emitted, point)]));
    hide EnforceCap, PublishLive, Held;
  }

  /** A first session is being started when a relocation begins the second dial. */
  function Relocating(cap: nat, backoff: BackoffState): State {
    DialBegin(AutoStart(DialInstall(DialBegin(Initial(cap, backoff)), 1)))
  }

  /** `p` has to wait, and the answer to the start arrives on the old socket. */
  function LateStart(flat: Flat, cap: nat, backoff: BackoffState, uid: Uid, p: LatLng): State {
    TrackStarted(Publish(Relocating(cap, backoff), flat, p), uid)
  }

  lemma RelocatingIs(cap: nat, backoff: BackoffState)
    requires cap >= 4
    ensures var d := Relocating(cap, backoff);
            && !d.s.ready && d.s.conn.Reconnecting? && d.s.socket.Some? && d.s.dialGen == 2 && !d.s.intentional
            && d.s.lastAssigned == 0 && d.s.queue == Buffer(cap, [], [], []) && d.log.dials == {2} && d.log.emitted == 0
  {
    var d := Relocating(cap, backoff);
    assert d.log.dials == {2};
  }

  lemma LateStartIs(flat: Flat, cap: nat, backoff: BackoffState, uid: Uid, p: LatLng)
    requires cap >= 4
    ensures var d := LateStart(flat, cap, backoff, uid, p);
            && d.s.ready && d.s.conn.Reconnecting? && d.s.socket.Some? && d.s.dialGen == 2 && !d.s.intentional
            && d.s.lastAssigned == 0 && d.s.queue == Buffer(cap, [Sample(0, p)], [], []) && 2 in d.log.dials && d.log.emitted == 1
            && StartedCleanly(Publish(Relocating(cap, backoff), flat, p).s) && Room(Relocating(cap, backoff).s)
  {
    RelocatingIs(cap, backoff);
    hide Relocating;
    FirstStaged(flat, Relocating(cap, backoff), p);
    hide Publish;
  }

  /** The install opens the connection behind the session, and the next publish goes ahead of `p`. */
  lemma InstallOvertakes(flat: Flat, d: State, p: LatLng, q: LatLng)
    requires d.s.ready && d.s.conn.Reconnecting? && d.s.socket.Some? && d.s.dialGen == 2 && !d.s.intentional
    requires d.s.queue == Buffer(d.s.queue.cap, [Sample(0, p)], [], []) && 2 in d.log.dials && d.log.emitted == 1 && d.s.queue.cap >= 4
    requires d.s.lastAssigned == 0
    ensures var u := DialInstall(d, 2);
            var r := Publish(u, flat, q);
            && FlushIdle(d.s) && Drained(d.s) && !InstallsQuietly(d, 2) && !Drained(u.s) && Room(u.s)
            && r.s.queue.inflight == [Queued(1, Sample(1, q), true)] && r.s.queue.staging == [Sample(0, p)]
  {
    var u := DialInstall(d, 2);
    hide Reset;
    assert u.s.queue == d.s.queue && Live(u.s) && u.log.emitted == 1;
    LiveUnderCap(flat, u, q);
    hide DialInstall, Publish, Picked;
    assert MarkThrough([Queued(1, Sample(1, q), true)], 1) == [Queued(1, Sample(1, q), true)];
  }

  /** A new client gets there by handlers alone: before the install nothing waits that could go;
      after it `p` does, and the next point is numbered and sent ahead of it. */
  lemma InstallBreaksOrder(flat: Flat, cap: nat, backoff: BackoffState, uid: Uid, p: LatLng, q: LatLng)
    requires cap >= 4
    ensures var s0, d := Initial(cap, backoff), LateStart(flat, cap, backoff, uid, p);
            var u := DialInstall(d, 2);
            var r := Publish(u, flat, q);
            && Reachable(flat, s0, d) && FlushIdle(d.s) && Drained(d.s) && !InstallsQuietly(d, 2)
            && Reachable(flat, s0, u) && !Drained(u.s)
            && Reachable(flat, s0, r) && r.s.queue.inflight == [Queued(1, Sample(1, q), true)] && r.s.queue.staging == [Sample(0, p)]
            && !Increasing(QueuedIds(r.s.queue.inflight) + SampleIds(r.s.queue.staging))
  {
    var d := LateStart(flat, cap, backoff, uid, p);
    LateStartIs(flat, cap, backoff, uid, p);
    InstallOvertakes(flat, d, p, q);
    LateStartReached(flat, cap, backoff, uid, p);
    hide LateStart, Inv, Reachable, DialInstall, Publish, Initial, FlushIdle, Drained, InstallsQuietly, Room;
    ThenDialInstall(flat, Initial(cap, backoff), d, 2);
    var r := Publish(DialInstall(d, 2), flat, q);
    ThenPublish(flat, Initial(cap, backoff), DialInstall(d, 2), q);
    var ids := QueuedIds(r.s.queue.inflight) + SampleIds(r.s.queue.staging);
    assert ids[0] == 1 && ids[1] == 0;
  }

  lemma LateStartReached(flat: Flat, cap: nat, backoff: BackoffState, uid: Uid, p: LatLng)
    requires cap >= 4
    ensures var d := LateStart(flat, cap, backoff, uid, p); Reachable(flat, Initial(cap, backoff), d) && Inv(d)
  {
    var s0 := Initial(cap, backoff);
    InitialInv(cap, backoff);
    LateStartIs(flat, cap, backoff, uid, p);
    hide Inv, Reachable, Initial, DialBegin, DialInstall, AutoStart, TrackStarted, Publish, StartedCleanly, Room;
    ReachableSelf(flat, s0);
    ThenDialBegin(flat, s0, s0);
    ThenDialInstall(flat, s0, DialBegin(s0), 1);
    ThenAutoStart(flat, s0, DialInstall(DialBegin(s0), 1));
    ThenDialBegin(flat, s0, AutoStart(DialInstall(DialBegin(s0), 1)));
    ThenPublish(flat, s0, Relocating(cap, backoff), p);
    ThenTrackStarted(flat, s0, Publish(Relocating(cap, backoff), flat, p), uid);
  }

  // ---- A start that a resumed session overtakes ----

  /** From nothing in flight, one lock section puts something there exactly when it is a publish
      that goes live, or a flush that may send and finds points waiting. */
  lemma PutsInFlight(flat: Flat, st: State, e: Event)
    requires Inv(st) && Allowed(st, e) && st.s.queue.inflight == []
    ensures Shape(st.s.queue, st.s.lastAssigned)
    ensures Step(flat, st, e).s.queue.inflight != [] <==>
              (e.EPublish? && Live(st.s)) || (e.EFlush? && CanSend(st.s) && !WindowFull(st.s.queue) && st.s.queue.staging != [])
  {
    InvParts(st);
    InvShape(st);
    hide Inv, Delivery, Shape, Live, CanSend, WindowFull, Step, Allowed;
    if e.EFlush? {
      StepIsFlush(flat, st);
      FlushFromNothing(st);
    } else if e.EPublish? {
      StepIsPublish(flat, st, e.point);
      PublishFromNothing(flat, st, e.point);
    } else {
      OthersFromNothing(flat, st, e);
    }
  }

  lemma FlushFromNothing(st: State)
    requires Delivery(st) && Room(st.s) && st.s.queue.inflight == []
    ensures PickedOk(st.s)
    ensures FlushPass(st).s.queue.inflight != [] <==> CanSend(st.s) && !WindowFull(st.s.queue) && st.s.queue.staging != []
  {
    DeliveryShape(st);
    PickedHasRoom(st.s);
    NothingPicked(st.s);
    hide Delivery, Shape, FlushIdle, Picked, CanSend, WindowFull, PickedOk;
    if FlushIdle(st.s) {
      IdleFlush(st);
    } else {
      PassWorks(st);
      hide FlushPass;
      DeliveryShape(FlushPass(st));
      FramesHold(FlushPass(st).s);
    }
  }

  lemma NothingPicked(s: Session)
    requires s.queue.inflight == []
    ensures FlushIdle(s) <==> !(CanSend(s) && !WindowFull(s.queue) && s.queue.staging != [])
  {
  }

  lemma FramesHold(s: Session)
    requires Shape(s.queue, s.lastAssigned) && |s.queue.frames| > 0
    ensures s.queue.inflight != []
  {
  }

  lemma PublishFromNothing(flat: Flat, st: State, point: LatLng)
    requires Shape(st.s.queue, st.s.lastAssigned) && st.s.queue.inflight == []
    ensures Publish(st, flat, point).s.queue.inflight != [] <==> Live(st.s)
  {
    hide *;
    PublishCases(flat, st, point);
    if Live(st.s) {
      LiveQueue(flat, st, point);
      EnqueueFills(flat, st.s.queue, st.s.lastAssigned, Sample(st.log.emitted, point));
    } else {
      StagedQuiet(flat, st, point);
    }
  }

  lemma EnqueueFills(flat: Flat, q: Buffer, last: nat, sample: Sample)
    requires Shape(q, last)
    ensures RecordFrame(Enqueue(flat, q, last + 1, sample), last + 1).inflight != []
  {
    EnqueueShifts(flat, q, last, sample);
    hide Enqueue, Shape;
  }

  lemma OthersFromNothing(flat: Flat, st: State, e: Event)
    requires Shape(st.s.queue, st.s.lastAssigned) && st.s.queue.inflight == [] && !e.EFlush? && !e.EPublish?
    ensures Step(flat, st, e).s.queue.inflight == []
  {
    if Quiet(e) {
      SettledQuiet(flat, st, e);
      hide Shape, Step;
    } else if e.EAck? || e.EResumeOk? {
      hide Shape, Held, FramesAbove;
    } else if e.ESocketClosed? {
      hide Shape, Exhausted;
    } else {
      hide Shape, Publish, FlushPass, PickedOk, Held, AckThrough, MarkUnsent;
    }
  }

  /** A ResumeOk that comes while a start is unanswered opens the old session for the new track's
      points, exactly when there is an open connection: then the next publish goes live and a flush
      numbers whatever is staged, and the answer to the start finds them in flight. */
  lemma ResumeOpens(flat: Flat, st: State, uid: Uid, ack: U32, point: LatLng)
    requires Inv(st) && Unopened(st.s) && Room(ResumeOk(st, uid, ack).s)
    ensures var c := ResumeOk(st, uid, ack);
            var open := st.s.conn.Open? && st.s.socket.Some?;
            && StartedCleanly(c.s) && PickedOk(c.s)
            && (StartedCleanly(Publish(c, flat, point).s) <==> !open)
            && (StartedCleanly(FlushPass(c).s) <==> !open || st.s.queue.staging == [])
  {
    InvParts(st);
    InvShape(st);
    var c := ResumeOk(st, uid, ack);
    ResumeUnopened(st, uid, ack);
    StepIsResume(flat, st, uid, ack);
    InvStep(flat, st, EResumeOk(uid, ack));
    hide Inv, Delivery, Shape, Step, ResumeOk, Publish, FlushPass, PickedOk, Allowed;
    InvParts(c);
    InvShape(c);
    PublishFromNothing(flat, c, point);
    FlushFromNothing(c);
  }

  lemma StepIsResume(flat: Flat, st: State, uid: Uid, ack: U32)
    requires Shape(st.s.queue, st.s.lastAssigned)
    ensures Allowed(st, EResumeOk(uid, ack)) && Step(flat, st, EResumeOk(uid, ack)) == ResumeOk(st, uid, ack)
  {
    hide Shape, ResumeOk;
  }

  lemma ResumeUnopened(st: State, uid: Uid, ack: U32)
    requires Shape(st.s.queue, st.s.lastAssigned) && Unopened(st.s)
    ensures var c := ResumeOk(st, uid, ack);
            && c.s.queue == st.s.queue && c.s.ready && c.s.conn == st.s.conn && c.s.socket == st.s.socket && !WindowFull(c.s.queue)
  {
    assert st.s.queue.frames == [];
    hide Shape, Held;
  }

  /** The whole handler: its flush leaves nothing in flight exactly when nothing was staged or no
      connection is open. */
  lemma ResumeWhileStarting(flat: Flat, st: State, uid: Uid, ack: U32)
    requires Settling(st) && Unopened(st.s) && HandlerAllowed(flat, st, EResumeOk(uid, ack))
    ensures StartedCleanly(Handle(flat, st, EResumeOk(uid, ack)).s)
            <==> st.s.queue.staging == [] || !(st.s.conn.Open? && st.s.socket.Some?)
  {
    MidParts(st);
    var c := ResumeOk(st, uid, ack);
    ResumeUnopened(st, uid, ack);
    StepIsResume(flat, st, uid, ack);
    InvStep(flat, st, EResumeOk(uid, ack));
    assert Handle(flat, st, EResumeOk(uid, ack)) == FlushAll(c) && Room(c.s);
    hide Settling, HandlerAllowed, Handle, Inv, Delivery, Shape, Step, ResumeOk, Allowed, Room, FlushAll;
    InvParts(c);
    NothingPicked(c.s);
    hide WindowFull;
    FlushAllFills(c);
  }

  lemma {:induction false} FlushAllFills(st: State)
    requires Delivery(st) && Room(st.s)
    ensures var r := FlushAll(st);
            && Delivery(r) && |r.s.queue.frames| >= |st.s.queue.frames|
            && (FlushIdle(st.s) ==> r == st) && (!FlushIdle(st.s) ==> r.s.queue.inflight != [])
    decreases WindowRemaining(st.s.queue)
  {
    hide Delivery, Room, FlushPass, FlushIdle, Consecutive, NextToSend, Picked, HasRoom, Block, Claimed;
    if !FlushIdle(st.s) {
      PassWorks(st);
      Sent1(st);
      var p := Transmit(FlushPass(st), |st.log.built|);
      TransmitKeeps(FlushPass(st), |st.log.built|);
      hide Transmit;
      FlushAllFills(p);
      DeliveryShape(FlushAll(p));
      hide Shape;
      FramesHold(FlushAll(p).s);
    }
  }

  /** The drop of a live track, a start before the Resume is answered, the answer, a point. */
  function Overtaken(flat: Flat, st: State, uid: Uid, last: U32, p: LatLng): State {
    Publish(ResumeOk(StartBegin(Redialed(st)), uid, last), flat, p)
  }

  /** A new client gets there: the start is still unanswered, a point is in flight, and whatever
      track the answer names, the counter would restart under that point. */
  lemma ResumeOvertakesStart(flat: Flat, s0: State, st: State, uid: Uid, last: U32, p: LatLng, answer: Uid)
    requires Reachable(flat, s0, st) && Sailing(st, uid, last)
    ensures var r := Overtaken(flat, st, uid, last, p);
            && Reachable(flat, s0, r) && r.s.starting && r.s.startWait
            && r.s.queue.inflight == [Queued(last + 1, Sample(st.log.emitted, p), true)]
            && !StartedCleanly(r.s)
            && !Shape(TrackStarted(r, answer).s.queue, TrackStarted(r, answer).s.lastAssigned)
  {
    var a := Redialed(st);
    var b := StartBegin(a);
    var c := ResumeOk(b, uid, last);
    SailingInv(st, uid, last);
    SailingEmpty(st, uid, last);
    RedialedEmpty(st);
    StartedResumed(a, uid, last);
    hide Inv, Reachable, Sailing, Exhausted, Redialed, StartBegin, ResumeOk, Publish, Shape, TrackStarted, Room;
    PublishedOne(flat, c, p);
    ThenRedial(flat, s0, st);
    ThenStartBegin(flat, s0, a);
    ThenResumeOk(flat, s0, b, uid, last);
    ThenPublish(flat, s0, c, p);
    PublishedStarting(flat, c, p);
    InvShape(Publish(c, flat, p));
    TrackStartedSound(Publish(c, flat, p), answer);
  }

  lemma RedialedEmpty(st: State)
    requires Empty(st.s) && !st.s.intentional && !Exhausted(st.s.backoff)
    ensures var a := Redialed(st);
            && a.s.conn.Open? && a.s.socket.Some? && a.s.queue == st.s.queue && a.s.trackUid == st.s.trackUid
            && a.log.emitted == st.log.emitted
  {
    RedialedIs(st);
    assert MarkUnsent(st.s.queue) == st.s.queue;
    hide Redialed, MarkUnsent, Reset, Exhausted;
  }

  lemma StartedResumed(a: State, uid: Uid, ack: U32)
    requires a.s.conn.Open? && a.s.socket.Some? && a.s.trackUid == uid && ack + 4 < TWO32
    requires a.s.queue == Buffer(a.s.queue.cap, [], [], []) && a.s.queue.cap >= 4
    ensures var c := ResumeOk(StartBegin(a), uid, ack);
            && Empty(c.s) && c.s.lastAssigned == ack && c.s.trackUid == uid && c.s.starting && c.s.startWait && Room(c.s)
            && c.log.emitted == a.log.emitted
  {
    hide Held;
    assert AckThrough(StartBegin(a).s.queue, ack) == a.s.queue;
  }

  lemma PublishedStarting(flat: Flat, c: State, p: LatLng)
    requires Empty(c.s)
    ensures var r := Publish(c, flat, p); r.s.starting == c.s.starting && r.s.startWait == c.s.startWait
  {
    FirstPublish(flat, c, p);
    hide Publish, LiveBuilt;
  }

  /** `resume()` over a point in flight, to any other number than the counter's. */
  lemma ManualResumeBreaks(flat: Flat, s0: State, st: State, uid: Uid, last: U32, p: LatLng, other: Uid, to: nat)
    requires Reachable(flat, s0, st) && Sailing(st, uid, last) && to != last + 1
    ensures var r := Publish(st, flat, p);
            && Reachable(flat, s0, r) && Shape(r.s.queue, r.s.lastAssigned)
            && !Shape(ManualResume(r, other, to).s.queue, to)
  {
    SailingInv(st, uid, last);
    SailingEmpty(st, uid, last);
    hide Inv, Reachable, Sailing, Exhausted, Publish, ManualResume, Shape, Room;
    ThenPublish(flat, s0, st, p);
    PublishedOne(flat, st, p);
    InvShape(Publish(st, flat, p));
    ManualResumeSound(Publish(st, flat, p), other, to);
  }

  // ---- A live publish overtakes what is unsent ----

  /** InFlight after a live enqueue: the old points, at most the oldest left out, then the new one. */
  lemma EnqueueShifts(flat: Flat, q: Buffer, last: nat, sample: Sample)
    requires Shape(q, last)
    ensures var r := Enqueue(flat, q, last + 1, sample).inflight;
            var o := |q.inflight| + 1 - |r|;
            && 0 <= o <= 1 && o <= |q.inflight| && r == q.inflight[o..] + [Queued(last + 1, sample, true)]
  {
    var p := q.(inflight := q.inflight + [Queued(last + 1, sample, true)]);
    CapSingle(flat, p);
    hide EnforceCap, FirstFlat, Contiguous, Increasing, High;
    if Size(p) > p.cap && |p.inflight| > 1 {
      assert p.inflight[1..] == q.inflight[1..] + [Queued(last + 1, sample, true)];
    }
  }

  function AllMarked(qs: seq<Queued>): (r: seq<Queued>)
    ensures |r| == |qs|
  {
    seq(|qs|, i requires 0 <= i < |qs| => qs[i].(sent := true))
  }

  lemma RecordMarks(qs: seq<Queued>, last: nat, sample: Sample)
    requires forall k :: 0 <= k < |qs| ==> qs[k].num <= last
    ensures MarkThrough(qs + [Queued(last + 1, sample, true)], last + 1) == AllMarked(qs) + [Queued(last + 1, sample, true)]
  {
  }

  /** A live publish puts one frame on the wire, and it carries the new point alone; yet every point
      it keeps in flight now counts as sent. That alters some other point exactly when one was unsent
      and the cap did not take the last of them. */
  lemma PublishOvertakes(flat: Flat, st: State, point: LatLng)
    requires Delivery(st) && Room(st.s) && Live(st.s)
    ensures var q, t := st.s.queue.inflight, Publish(st, flat, point);
            var o := |q| + 1 - |t.s.queue.inflight|;
            && 0 <= o <= 1 && o <= |q|
            && t.log.built == st.log.built + [LiveBuilt(st, point)]
            && t.s.queue.inflight == AllMarked(q[o..]) + [Queued(st.s.lastAssigned + 1, Sample(st.log.emitted, point), true)]
            && (AllMarked(q[o..]) == q[o..] <==> Unsent(q) == [] || q[o..] == [])
  {
    hide *;
    DeliveryShape(st);
    PublishCases(flat, st, point);
    LiveQueue(flat, st, point);
    LiveOne(flat, st, point);
    QueueOvertakes(flat, st.s.queue, st.s.lastAssigned, Sample(st.log.emitted, point));
  }

  lemma LiveOne(flat: Flat, st: State, point: LatLng)
    requires Live(st.s)
    ensures PublishLive(st, flat, point).log.built == st.log.built + [LiveBuilt(st, point)]
  {
    LiveIs(flat, st, point);
    hide PublishLive, SingleBytes, FixOf;
  }

  lemma QueueOvertakes(flat: Flat, q: Buffer, last: nat, sample: Sample)
    requires Shape(q, last)
    ensures var r := RecordFrame(Enqueue(flat, q, last + 1, sample), last + 1).inflight;
            var o := |q.inflight| + 1 - |r|;
            && 0 <= o <= 1 && o <= |q.inflight|
            && r == AllMarked(q.inflight[o..]) + [Queued(last + 1, sample, true)]
            && (AllMarked(q.inflight[o..]) == q.inflight[o..] <==> Unsent(q.inflight) == [] || q.inflight[o..] == [])
  {
    EnqueueShifts(flat, q, last, sample);
    hide Enqueue, MarkThrough, AllMarked, Unsent, Shape;
    var o := |q.inflight| + 1 - |Enqueue(flat, q, last + 1, sample).inflight|;
    KeptAlready(q, last, o);
    RecordMarks(q.inflight[o..], last, sample);
  }

  /** The points kept are a suffix, and so are the unsent ones. */
  lemma KeptAlready(q: Buffer, last: nat, o: nat)
    requires Shape(q, last) && o <= |q.inflight|
    ensures var kept := q.inflight[o..];
            && (forall k :: 0 <= k < |kept| ==> kept[k].num <= last)
            && (AllMarked(kept) == kept <==> Unsent(q.inflight) == [] || kept == [])
  {
    UnsentIsSuffix(q, last);
    var kept, u := q.inflight[o..], Unsent(q.inflight);
    forall k | 0 <= k < |kept| ensures kept[k].num <= last {
      assert kept[k] == q.inflight[o + k];
    }
    if u == [] {
      AllSent(q, last);
      hide Shape, Unsent;
      assert AllMarked(kept) == kept;
    } else if kept != [] {
      hide Shape, Unsent;
      assert u[|u| - 1] == q.inflight[|q.inflight| - 1] == kept[|kept| - 1];
      assert AllMarked(kept)[|kept| - 1].sent;
    }
  }

  lemma {:induction false} FramesBelow(names: map<Name, Sample>, bs: seq<Built>, epoch: nat, a: int, c: int)
    requires Consecutive(bs, epoch, a, c) && AllAgree(names, bs)
    ensures forall b :: b in bs ==> b.last < c
    ensures a <= c
    decreases bs
  {
    if bs != [] {
      assert Agrees(names, bs[0]);
      TailConsecutive(bs, epoch, a, c);
      assert AllAgree(names, bs[1..]) by {
        forall i | 0 <= i < |bs[1..]| ensures Agrees(names, bs[1..][i]) {
          assert Agrees(names, bs[i + 1]);
        }
      }
      hide Consecutive, Agrees;
      FramesBelow(names, bs[1..], epoch, bs[0].last + 1, c);
    }
  }

  ghost predicate CarriedIn(bs: seq<Built>, num: nat) {
    exists b :: b in bs && Carries(b, num)
  }

  /** What the session then lacks: from its first number to the new one its frames carry exactly the
      numbers below the next that was due, and the new one. The rest is there exactly when something
      was unsent, and since nothing counts as unsent any more, no flush of the session will send it. */
  lemma OvertakingLeavesGap(flat: Flat, st: State, point: LatLng)
    requires Inv(st) && Room(st.s) && Live(st.s) && st.log.sessionStart <= |st.log.built| && BackToBack(st)
    ensures var r, next, last := Publish(st, flat, point), NextToSend(st.s), st.s.lastAssigned;
            && (next <= last <==> Unsent(st.s.queue.inflight) != [])
            && st.log.sessionStart == r.log.sessionStart <= |r.log.built|
            && (forall num: nat :: FirstOf(SessionFrames(st.log), next) <= num <= last + 1 ==>
                  (CarriedIn(SessionFrames(r.log), num) <==> num < next || num == last + 1))
            && Unsent(r.s.queue.inflight) == []
  {
    hide *;
    InvShape(st);
    PublishCases(flat, st, point);
    LiveOne(flat, st, point);
    LiveStart(flat, st, point);
    LiveQuiet(flat, st, point);
    LiveLeavesNone(flat, st, point);
    NextDue(st.s);
    var bs, r := SessionFrames(st.log), Publish(st, flat, point);
    SessionBelow(st);
    SessionGrows(st.log, r.log, LiveBuilt(st, point));
    forall num: nat | FirstOf(bs, NextToSend(st.s)) <= num <= st.s.lastAssigned + 1
      ensures CarriedIn(SessionFrames(r.log), num) <==> num < NextToSend(st.s) || num == st.s.lastAssigned + 1
    {
      OneMore(bs, LiveBuilt(st, point), num);
      CarriesOne(st, point, num);
    }
  }

  lemma SessionGrows(log: Log, log': Log, b: Built)
    requires log.sessionStart == log'.sessionStart <= |log.built| && log'.built == log.built + [b]
    ensures SessionFrames(log') == SessionFrames(log) + [b]
  {
  }

  lemma CarriesOne(st: State, point: LatLng, num: nat)
    ensures Carries(LiveBuilt(st, point), num) <==> num == st.s.lastAssigned + 1
  {
    hide SingleBytes, FixOf;
  }

  lemma NextDue(s: Session)
    ensures NextToSend(s) <= s.lastAssigned + 1
    ensures NextToSend(s) <= s.lastAssigned <==> Unsent(s.queue.inflight) != []
  {
    hide Unsent;
  }

  lemma OneMore(bs: seq<Built>, b: Built, num: nat)
    ensures CarriedIn(bs + [b], num) <==> CarriedIn(bs, num) || Carries(b, num)
  {
    hide Carries;
    if CarriedIn(bs, num) {
      var x :| x in bs && Carries(x, num);
      assert x in bs + [b];
    }
    if Carries(b, num) {
      assert b in bs + [b];
    }
  }

  lemma LiveStart(flat: Flat, st: State, point: LatLng)
    requires Live(st.s)
    ensures PublishLive(st, flat, point).log.sessionStart == st.log.sessionStart
  {
    LiveQuiet(flat, st, point);
    hide *;
  }

  lemma LiveLeavesNone(flat: Flat, st: State, point: LatLng)
    requires Delivery(st) && Live(st.s)
    ensures Unsent(PublishLive(st, flat, point).s.queue.inflight) == []
  {
    assert Shape(st.s.queue, st.s.lastAssigned) && !WindowFull(st.s.queue);
    hide *;
    LiveEmptiesQueue(flat, st.s.queue, st.s.lastAssigned, Sample(st.log.emitted, point));
    LiveQueue(flat, st, point);
  }

  /** The frames of an open session carry exactly the numbers up to the next one. */
  lemma SessionBelow(st: State)
    requires Delivery(st) && st.s.ready && BackToBack(st)
    ensures var bs, next := SessionFrames(st.log), NextToSend(st.s);
            forall num: nat :: FirstOf(bs, next) <= num ==> (CarriedIn(bs, num) <==> num < next)
  {
    assert AllAgree(st.log.names, st.log.built);
    var bs, next := SessionFrames(st.log), NextToSend(st.s);
    hide Delivery, AllAgree, Consecutive, NextToSend, FirstOf;
    SessionAgrees(st.log);
    var first := FirstOf(bs, next);
    FramesBelow(st.log.names, bs, st.log.epoch, first, next);
    forall num: nat | first <= num ensures CarriedIn(bs, num) <==> num < next {
      if num < next {
        FramesCover(bs, st.log.epoch, first, next, num);
      }
    }
  }

  lemma SessionAgrees(log: Log)
    requires log.sessionStart <= |log.built| && AllAgree(log.names, log.built)
    ensures AllAgree(log.names, SessionFrames(log))
  {
    hide Agrees;
    forall i | 0 <= i < |SessionFrames(log)| ensures Agrees(log.names, SessionFrames(log)[i]) {
      assert SessionFrames(log)[i] == log.built[log.sessionStart + i];
    }
  }

  /** The state a ResumeOk leaves after a drop, before its flush: `p` is numbered and unsent. */
  function ResumedUnsent(flat: Flat, st: State, uid: Uid, last: U32, p: LatLng): State {
    ResumeOk(Redialed(Publish(st, flat, p)), uid, last)
  }

  lemma ResumedUnsentIs(flat: Flat, st: State, uid: Uid, last: U32, p: LatLng)
    requires Sailing(st, uid, last)
    ensures var c := ResumedUnsent(flat, st, uid, last, p);
            && CanSend(c.s) && c.s.lastAssigned == last + 1 && c.s.trackUid == uid
            && c.s.queue == Buffer(st.s.queue.cap, [], [Queued(last + 1, Sample(st.log.emitted, p), false)], [])
            && c.log.emitted == st.log.emitted + 1 && c.log.epoch == st.log.epoch
            && c.log.built == st.log.built + [LiveBuilt(st, p)] && c.log.sessionStart == |c.log.built|
  {
    hide Inv, Sailing, Empty, CanSend, Publish, LiveBuilt, Redialed, ResumeOk, Exhausted;
    SailingEmpty(st, uid, last);
    PublishedOne(flat, st, p);
    ResumeAfterDrop(Publish(st, flat, p), uid, last);
  }

  lemma SailingEmpty(st: State, uid: Uid, last: nat)
    requires Sailing(st, uid, last)
    ensures Empty(st.s) && st.s.trackUid == uid && st.s.lastAssigned == last && !st.s.intentional && !Exhausted(st.s.backoff)
    ensures last + 4 < TWO32
  {
    hide Inv, Exhausted;
  }

  /** FirstPublish, field by field. */
  lemma PublishedOne(flat: Flat, st: State, p: LatLng)
    requires Empty(st.s)
    ensures var a, num := Publish(st, flat, p), st.s.lastAssigned + 1;
            && a.s.lastAssigned == num && a.s.trackUid == st.s.trackUid && a.s.intentional == st.s.intentional
            && a.s.backoff == st.s.backoff
            && a.s.queue == Buffer(st.s.queue.cap, [], [Queued(num, Sample(st.log.emitted, p), true)], [num])
            && a.log.emitted == st.log.emitted + 1 && a.log.epoch == st.log.epoch
            && a.log.built == st.log.built + [LiveBuilt(st, p)]
  {
    FirstPublish(flat, st, p);
    hide Publish, LiveBuilt;
  }

  /** One point in flight, a drop, a redial, and a ResumeOk below it. */
  lemma ResumeAfterDrop(a: State, uid: Uid, ack: U32)
    requires !a.s.intentional && !Exhausted(a.s.backoff) && a.s.trackUid == uid && ack <= a.s.lastAssigned
    requires |a.s.queue.inflight| == 1 && a.s.queue.inflight[0].num > ack
    ensures var c := ResumeOk(Redialed(a), uid, ack);
            && CanSend(c.s) && c.s.lastAssigned == a.s.lastAssigned && c.s.trackUid == uid
            && c.s.queue == a.s.queue.(inflight := [a.s.queue.inflight[0].(sent := false)], frames := [])
            && c.log.emitted == a.log.emitted && c.log.epoch == a.log.epoch
            && c.log.built == a.log.built && c.log.sessionStart == |c.log.built|
  {
    RedialedIs(a);
    var b := Redialed(a);
    MarkOne(a.s.queue);
    hide Redialed, MarkUnsent, Reset, Exhausted, Held;
    AckBelow(b.s.queue, ack);
    hide AckThrough;
  }

  lemma MarkOne(q: Buffer)
    requires |q.inflight| == 1
    ensures MarkUnsent(q) == q.(inflight := [q.inflight[0].(sent := false)], frames := [])
  {
  }

  lemma AckBelow(q: Buffer, ack: nat)
    requires |q.inflight| == 1 && q.inflight[0].num > ack && q.frames == []
    ensures AckThrough(q, ack) == q
  {
    assert KeepAbove(q.inflight[1..], ack) == [];
    assert [q.inflight[0]] == q.inflight;
  }

  /** A new client gets there: `p` goes out, the socket drops, the ResumeOk opens the session, and
      `q` is published before the flush. `p` is then marked sent although no frame of the session
      carries it, and the flush finds nothing to do. */
  lemma OvertakenInSession(flat: Flat, s0: State, st: State, uid: Uid, last: U32, p: LatLng, q: LatLng)
    requires Reachable(flat, s0, st) && Sailing(st, uid, last)
    ensures var c := ResumedUnsent(flat, st, uid, last, p);
            var r := Publish(c, flat, q);
            && Reachable(flat, s0, r)
            && r.s.queue.inflight == [Queued(last + 1, Sample(st.log.emitted, p), true), Queued(last + 2, Sample(st.log.emitted + 1, q), true)]
            && FlushIdle(r.s) && r.log.sessionStart <= |r.log.built| && SessionFrames(r.log) == [LiveBuilt(c, q)] && LiveBuilt(c, q).last == last + 2
  {
    ResumedUnsentIs(flat, st, uid, last, p);
    SailingInv(st, uid, last);
    var a := Publish(st, flat, p);
    var b := Redialed(a);
    var c := ResumedUnsent(flat, st, uid, last, p);
    SecondPublish(flat, c, q);
    RoomThere(st, c, uid, last);
    assert c == ResumeOk(b, uid, last);
    hide *;
    ThenPublish(flat, s0, st, p);
    ThenRedial(flat, s0, a);
    ThenResumeOk(flat, s0, b, uid, last);
    ThenPublish(flat, s0, c, q);
  }

  lemma RoomThere(st: State, c: State, uid: Uid, last: nat)
    requires Sailing(st, uid, last) && c.s.lastAssigned == last + 1 && c.s.queue.staging == []
    ensures Room(c.s)
  {
    hide Inv;
  }

  /** A publish over one unsent point. */
  lemma SecondPublish(flat: Flat, c: State, q: LatLng)
    requires CanSend(c.s) && c.s.queue.cap >= 4 && c.s.queue.staging == [] && c.s.queue.frames == []
    requires |c.s.queue.inflight| == 1 && c.s.queue.inflight[0].num <= c.s.lastAssigned && c.log.sessionStart == |c.log.built|
    ensures var r, num := Publish(c, flat, q), c.s.lastAssigned + 1;
            && r.s.queue.inflight == [c.s.queue.inflight[0].(sent := true), Queued(num, Sample(c.log.emitted, q), true)]
            && FlushIdle(r.s) && r.log.sessionStart <= |r.log.built| && SessionFrames(r.log) == [LiveBuilt(c, q)] && LiveBuilt(c, q).last == num
  {
    var num, sample := c.s.lastAssigned + 1, Sample(c.log.emitted, q);
    var x := c.s.queue.inflight + [Queued(num, sample, true)];
    var b := c.s.queue.(inflight := x);
    CapSingle(flat, b);
    PublishCases(flat, c, q);
    LiveQueue(flat, c, q);
    LiveIs(flat, c, q);
    LiveQuiet(flat, c, q);
    assert MarkThrough(x, num) == [c.s.queue.inflight[0].(sent := true), Queued(num, sample, true)];
    assert Enqueue(flat, c.s.queue, num, sample) == b;
    hide MarkThrough, EnforceCap, DropOne, Enqueue, Publish, PublishLive, SingleBytes, FixOf;
    var r := Publish(c, flat, q);
    assert r.s.queue == RecordFrame(b, num);
    assert Unsent(r.s.queue.inflight) == [] by {
      NoneOfTwo(r.s.queue.inflight);
    }
    hide Unsent, RecordFrame;
  }

  lemma NoneOfTwo(qs: seq<Queued>)
    requires |qs| == 2 && qs[0].sent && qs[1].sent
    ensures Unsent(qs) == []
  {
    assert Unsent(qs[1..][1..]) == [];
    assert Unsent(qs[1..]) == [];
  }
}
