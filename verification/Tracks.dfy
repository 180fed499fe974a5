/** Sequence numbers per track, in any interleaving of lock sections.

    The counter restarts while a track uid stays: a start on a live track, or a resume by hand, may
    lead back to the same uid with a lower counter. A number then names one point per track exactly
    as long as each session opens above everything that earlier counter runs sent for its uid. */
module Tracks {
  import opened Wrappers
  import opened Bytes
  import opened Points
  import opened Reading
  import opened Loc
  import opened Queue
  import opened Backoff
  import opened Engine
  import opened Runs
  import opened Safety
  import opened Handlers
  import T = Types

  predicate Carries(b: Built, num: int) {
    b.last - b.count < num <= b.last
  }

  /** Two frames of one track that both carry `num`. */
  predicate Share(a: Built, b: Built, num: int) {
    a.track == b.track && Carries(a, num) && Carries(b, num)
  }

  /** The emitted point that `b` carries under `num`. */
  ghost function Said(names: map<Name, Sample>, b: Built, num: nat): Sample
    requires Covered(names, b) && Carries(b, num)
  {
    names[Name(b.epoch, num)]
  }

  /** No number of a track ever stands for two emitted points. */
  ghost predicate TrackAgrees(log: Log)
    requires AllAgree(log.names, log.built)
  {
    forall a, b, num: nat :: a in log.built && b in log.built && Share(a, b, num) ==>
      Covered(log.names, a) && Covered(log.names, b) && Said(log.names, a, num) == Said(log.names, b, num)
  }

  /** Frames of one track that share a number come from one run of the counter. */
  ghost predicate OneCounter(built: seq<Built>) {
    forall a, b, num: nat :: a in built && b in built && Share(a, b, num) ==> a.epoch == b.epoch
  }

  /** The next number to send lies above everything earlier counter runs sent for this track: what
      a caller can tell from the highest number sent per uid. */
  ghost predicate Beyond(st: State) {
    forall b :: b in st.log.built && b.track == st.s.trackUid && b.epoch != st.log.epoch ==> b.last < NextToSend(st.s)
  }

  /** Events that open a session or move the counter under one. */
  predicate Opens(e: Event) {
    e.EResumeOk? || e.ETrackStarted? || e.EManualResume?
  }

  // ---- A point gets one name ----

  ghost predicate NamesApart(names: map<Name, Sample>) {
    forall n, m :: n in names && m in names && n != m ==> names[n].id != names[m].id
  }

  ghost predicate IdsApart(staging: seq<Sample>) {
    forall i, j :: 0 <= i < j < |staging| ==> staging[i].id != staging[j].id
  }

  /** `s` was emitted and has no name yet. */
  ghost predicate Unnamed(s: Sample, names: map<Name, Sample>, emitted: nat) {
    s.id < emitted && forall n :: n in names ==> names[n].id != s.id
  }

  /** Every emitted point has at most one name, and none while it is staged. */
  ghost predicate OnceNamed(st: State) {
    && NamesApart(st.log.names) && IdsApart(st.s.queue.staging)
    && (forall n :: n in st.log.names ==> st.log.names[n].id < st.log.emitted)
    && (forall s :: s in st.s.queue.staging ==> Unnamed(s, st.log.names, st.log.emitted))
  }

  lemma OnceNamedSame(st: State, r: State)
    requires OnceNamed(st) && r.log.names == st.log.names && r.log.emitted == st.log.emitted
    requires r.s.queue.staging == st.s.queue.staging || r.s.queue.staging == []
    ensures OnceNamed(r)
  {
  }

  lemma OnceNamedStaged(flat: Flat, st: State, point: LatLng)
    requires OnceNamed(st) && Delivery(st)
    ensures OnceNamed(PublishStaged(st, flat, point))
  {
    StagedThins(flat, st, point);
    var r, p := PublishStaged(st, flat, point), st.s.queue.staging + [Sample(st.log.emitted, point)];
    hide Delivery, PublishStaged, Without;
    AppendApart(st.s.queue.staging, st.log.names, st.log.emitted, point);
    hide IdsApart, NamesApart;
    if r.s.queue.staging != p {
      var k :| 0 <= k < |p| && r.s.queue.staging == Without(p, k);
      WithoutApart(p, k);
    }
  }

  lemma AppendApart(staging: seq<Sample>, names: map<Name, Sample>, emitted: nat, point: LatLng)
    requires IdsApart(staging) && forall s :: s in staging ==> Unnamed(s, names, emitted)
    requires forall n :: n in names ==> names[n].id < emitted
    ensures var p := staging + [Sample(emitted, point)]; IdsApart(p) && forall s :: s in p ==> Unnamed(s, names, emitted + 1)
  {
    var p := staging + [Sample(emitted, point)];
    forall i, j | 0 <= i < j < |p| ensures p[i].id != p[j].id {
      assert p[i] in staging;
    }
  }

  lemma WithoutApart(p: seq<Sample>, k: nat)
    requires k < |p| && IdsApart(p)
    ensures IdsApart(Without(p, k)) && forall s :: s in Without(p, k) ==> s in p
  {
    var r := Without(p, k);
    assert forall i :: 0 <= i < |r| ==> r[i] == p[if i < k then i else i + 1];
  }

  /** Staging a point appends it, and the cap takes at most one. */
  lemma StagedThins(flat: Flat, st: State, point: LatLng)
    requires Delivery(st)
    ensures var r, p := PublishStaged(st, flat, point), st.s.queue.staging + [Sample(st.log.emitted, point)];
            && r.log.names == st.log.names && r.log.emitted == st.log.emitted + 1
            && (r.s.queue.staging == p || exists k :: 0 <= k < |p| && r.s.queue.staging == Without(p, k))
  {
    var p := st.s.queue.(staging := st.s.queue.staging + [Sample(st.log.emitted, point)]);
    assert Size(st.s.queue) <= st.s.queue.cap;
    DropOneWithout(flat, p);
    CapSingle(flat, p);
    hide Delivery, Held, DropOne, EnforceCap, Without;
  }

  lemma OnceNamedLive(flat: Flat, st: State, point: LatLng)
    requires OnceNamed(st) && Delivery(st)
    ensures OnceNamed(PublishLive(st, flat, point))
  {
    var num, sample := st.s.lastAssigned + 1, Sample(st.log.emitted, point);
    LiveStaging(flat, st.s.queue, num, sample);
    LiveNames(flat, st, point);
    NamesBelowNow(st);
    var r := PublishLive(st, flat, point);
    hide Delivery, PublishLive, Enqueue, Subsequence, OnceNamed;
    NamedNow(st, r, Name(st.log.epoch, num), sample);
  }

  lemma NamesBelowNow(st: State)
    requires Delivery(st)
    ensures Name(st.log.epoch, st.s.lastAssigned + 1) !in st.log.names
  {
    hide Shape, Labelled, AllAgree;
  }

  /** A new name for a new point. */
  lemma NamedNow(st: State, r: State, n: Name, sample: Sample)
    requires OnceNamed(st) && sample.id == st.log.emitted && n !in st.log.names
    requires r.log.names == st.log.names[n := sample] && r.log.emitted == st.log.emitted + 1
    requires Subsequence(r.s.queue.staging, st.s.queue.staging)
    ensures OnceNamed(r)
  {
    DistinctSub(r.s.queue.staging, st.s.queue.staging);
    hide Subsequence, IdsApart;
  }

  lemma LiveNames(flat: Flat, st: State, point: LatLng)
    ensures var r, num, sample := PublishLive(st, flat, point), st.s.lastAssigned + 1, Sample(st.log.emitted, point);
            && r.log.names == st.log.names[Name(st.log.epoch, num) := sample] && r.log.emitted == st.log.emitted + 1
            && r.s.queue.staging == Enqueue(flat, st.s.queue, num, sample).staging
  {
    hide Enqueue, Held, SingleBytes, FixOf;
  }

  lemma LiveStaging(flat: Flat, q: Buffer, num: nat, sample: Sample)
    ensures Subsequence(Enqueue(flat, q, num, sample).staging, q.staging)
  {
    CapKeepsNewest(flat, q.(inflight := q.inflight + [Queued(num, sample, true)]));
    hide EnforceCap, Subsequence;
  }

  lemma {:induction false} DistinctSub(a: seq<Sample>, b: seq<Sample>)
    requires Subsequence(a, b) && IdsApart(b)
    ensures (forall s :: s in a ==> s in b) && IdsApart(a)
    decreases b
  {
    if a != [] {
      var rest := b[1..];
      assert IdsApart(rest);
      if Subsequence(a, rest) {
        DistinctSub(a, rest);
      } else {
        DistinctSub(a[1..], rest);
        HeadApart(a, b);
      }
    }
  }

  lemma HeadApart(a: seq<Sample>, b: seq<Sample>)
    requires a != [] && b != [] && a[0] == b[0] && IdsApart(b) && IdsApart(a[1..])
    requires forall s :: s in a[1..] ==> s in b[1..]
    ensures IdsApart(a) && forall s :: s in a ==> s in b
  {
    forall i, j | 0 <= i < j < |a| ensures a[i].id != a[j].id {
      assert a[j] == a[1..][j - 1];
      if i == 0 {
        assert a[j] in a[1..] && a[j] in b[1..];
        var k :| 0 <= k < |b[1..]| && b[1..][k] == a[j];
        assert b[k + 1] == a[j];
      } else {
        assert a[i] == a[1..][i - 1];
      }
    }
    forall s | s in a ensures s in b {
      if s != a[0] {
        assert s in a[1..];
      }
    }
  }

  lemma OnceNamedFlush(st: State)
    requires OnceNamed(st) && Delivery(st) && !FlushIdle(st.s)
    ensures PickedOk(st.s) && OnceNamed(FlushPass(st))
  {
    PassNames(st);
    if Unsent(st.s.queue.inflight) == [] {
      hide FlushPass, FlushIdle, PickedOk, OnceNamed;
      OnceNamedTaken(st, FlushPass(st));
    } else {
      hide FlushPass, Delivery, Unsent, FlushIdle;
      OnceNamedSame(st, FlushPass(st));
    }
  }

  lemma OnceNamedTaken(st: State, r: State)
    requires OnceNamed(st) && Delivery(st) && NamesTaken(st, r) && Unsent(st.s.queue.inflight) == []
    ensures OnceNamed(r)
  {
    var s, n := st.s, Take(st.s);
    var numbered := Number(s.queue.staging[..n], s.lastAssigned);
    NumberBlock(s.queue.staging[..n], s.lastAssigned);
    NewNamesAre(st.log.epoch, numbered, s.lastAssigned + 1);
    var add := NewNames(st.log.epoch, numbered);
    hide NewNames, Unsent, Shape, Take, AllAgree;
    TakenFrom(st, n, add);
    hide Number, Labelled, NamesBelow, Delivery;
    TakenApart(st.log.names, s.queue.staging, n, add, st.log.epoch, s.lastAssigned, st.log.emitted);
  }

  /** Each new name stands for its point of the head of Staging. */
  ghost predicate NamesHead(add: map<Name, Sample>, staging: seq<Sample>, n: nat, epoch: nat, last: nat) {
    n <= |staging| && forall a :: a in add ==> a.epoch == epoch && last < a.num <= last + n && add[a] == staging[a.num - last - 1]
  }

  lemma TakenFrom(st: State, n: nat, add: map<Name, Sample>)
    requires n <= |st.s.queue.staging|
    requires Labelled(Number(st.s.queue.staging[..n], st.s.lastAssigned), st.log.epoch, add)
    requires forall m :: m in add ==> m.epoch == st.log.epoch && st.s.lastAssigned + 1 <= m.num < st.s.lastAssigned + 1 + n
    ensures NamesHead(add, st.s.queue.staging, n, st.log.epoch, st.s.lastAssigned)
  {
    var last, staging := st.s.lastAssigned, st.s.queue.staging;
    var numbered := Number(staging[..n], last);
    forall a | a in add ensures add[a] == staging[a.num - last - 1] {
      var k := a.num - last - 1;
      assert numbered[k] == Queued(a.num, staging[k], false);
      assert a == Name(st.log.epoch, numbered[k].num);
    }
  }

  lemma TakenApart(names: map<Name, Sample>, staging: seq<Sample>, n: nat, add: map<Name, Sample>, epoch: nat, last: nat, emitted: nat)
    requires NamesApart(names) && IdsApart(staging) && NamesHead(add, staging, n, epoch, last)
    requires forall m :: m in names ==> names[m].id < emitted
    requires forall s :: s in staging ==> Unnamed(s, names, emitted)
    ensures NamesApart(names + add) && IdsApart(staging[n..])
    ensures forall m :: m in names + add ==> (names + add)[m].id < emitted
    ensures forall s :: s in staging[n..] ==> Unnamed(s, names + add, emitted)
  {
    var all := names + add;
    forall a | a in add ensures add[a] in staging {
      assert add[a] == staging[a.num - last - 1];
    }
    forall m, k | m in all && k in all && m != k ensures all[m].id != all[k].id {
      if m in add && k in add {
        assert m.num != k.num;
      } else if m in add {
        assert Unnamed(add[m], names, emitted);
      } else if k in add {
        assert Unnamed(add[k], names, emitted);
      }
    }
    forall s | s in staging[n..] ensures Unnamed(s, all, emitted) {
      var i :| 0 <= i < |staging[n..]| && staging[n..][i] == s;
      assert s == staging[n + i] && s in staging;
      forall m | m in all ensures all[m].id != s.id {
        if m in add {
          assert add[m] == staging[m.num - last - 1];
        }
      }
    }
  }

  lemma OnceNamedStep(flat: Flat, st: State, e: Event)
    requires OnceNamed(st) && Delivery(st) && Allowed(st, e)
    ensures OnceNamed(Step(flat, st, e))
  {
    assert Shape(st.s.queue, st.s.lastAssigned);
    hide OnceNamed, Delivery, Shape, FlushPass, Publish, Allowed;
    if e.EFlush? {
      PickedHasRoom(st.s);
      if !FlushIdle(st.s) {
        OnceNamedFlush(st);
      } else {
        IdleFlush(st);
      }
    } else if e.EPublish? {
      PublishCases(flat, st, e.point);
      OnceNamedStaged(flat, st, e.point);
      OnceNamedLive(flat, st, e.point);
    } else {
      BuildsNothing(flat, st, e);
      OnceNamedSame(st, Step(flat, st, e));
    }
  }

  lemma IdleFlush(st: State)
    requires HasRoom(Picked(st.s)) && FlushIdle(st.s)
    ensures FlushPass(st) == st
  {
    hide Picked, FlushIdle;
  }

  lemma PublishCases(flat: Flat, st: State, point: LatLng)
    ensures Publish(st, flat, point) == if Live(st.s) then PublishLive(st, flat, point) else PublishStaged(st, flat, point)
  {
    hide Live, PublishLive, PublishStaged;
  }

  /** Events other than a publish and a pass give no names and build no frames. */
  lemma BuildsNothing(flat: Flat, st: State, e: Event)
    requires Shape(st.s.queue, st.s.lastAssigned) && !e.EFlush? && !e.EPublish?
    ensures var r := Step(flat, st, e);
            && r.log.names == st.log.names && r.log.emitted == st.log.emitted && r.log.built == st.log.built
            && (r.s.queue.staging == st.s.queue.staging || r.s.queue.staging == [])
  {
    hide Shape, FlushPass, Publish, ErrorEvent, SocketClosed, TrackStopped, TrackStarted, StartBegin, AutoStart, Ack, ResumeOk, ManualResume, PickedOk;
    if Quiet(e) {
      SettledQuiet(flat, st, e);
      QuietBuilds(flat, st, e);
    } else if e.EError? {
      ErrorKeepsLog(st, e.code);
    } else if e.ETrackStopped? {
      EndsQuietly(st, e.uid);
    } else if e.EStartBegin? || e.EAutoStart? {
      EndsQuietly(st, NoUid);
    } else if e.ESocketClosed? {
      ClosesQuietly(st, e.gen, e.canReconnect);
    } else {
      OpensBuilds(flat, st, e);
    }
  }

  lemma QuietBuilds(flat: Flat, st: State, e: Event)
    requires Shape(st.s.queue, st.s.lastAssigned) && Quiet(e)
    ensures var r := Step(flat, st, e);
            && r.log.names == st.log.names && r.log.emitted == st.log.emitted && r.log.built == st.log.built
            && r.log.epoch == st.log.epoch && r.s.trackUid == st.s.trackUid
  {
    hide Shape, Step, Quiet;
    QuietLeaves(flat, st, e);
  }

  lemma OpensBuilds(flat: Flat, st: State, e: Event)
    requires Shape(st.s.queue, st.s.lastAssigned) && (Opens(e) || e.EAck?)
    ensures var r := Step(flat, st, e);
            && r.log.names == st.log.names && r.log.emitted == st.log.emitted && r.log.built == st.log.built
            && r.s.queue.staging == st.s.queue.staging
  {
    hide Shape, FlushPass, Publish, ErrorEvent, SocketClosed, TrackStopped, StartBegin, AutoStart, PickedOk, Held, KeepAbove, FramesAbove;
  }

  // ---- While a session is open its numbers go up ----

  /** Nothing opened: an open session stays with its track and counter run, and what it sends next
      never moves down. */
  ghost predicate CountsOn(st: State, r: State) {
    r.s.ready ==> st.s.ready && r.s.trackUid == st.s.trackUid && r.log.epoch == st.log.epoch && NextToSend(r.s) >= NextToSend(st.s)
  }

  lemma CountsStep(flat: Flat, st: State, e: Event)
    requires Delivery(st) && Allowed(st, e) && !Opens(e) && !e.EFlush? && !e.EPublish?
    ensures CountsOn(st, Step(flat, st, e))
  {
    assert Shape(st.s.queue, st.s.lastAssigned);
    hide Delivery, Shape, Allowed, NextToSend, FlushPass, Publish, ErrorEvent, SocketClosed, TrackStopped, StartBegin, AutoStart, Ack, PickedOk, EndsSession;
    if Quiet(e) {
      SettledQuiet(flat, st, e);
      QuietNotReady(flat, st, e);
      QuietBuilds(flat, st, e);
      NextOf(st.s, Step(flat, st, e).s);
    } else if e.EAck? {
      AckCounts(st, e.num);
    } else if e.EError? {
      ErrorKeepsLog(st, e.code);
      ErrorTrack(st, e.code);
      NextOf(st.s, ErrorEvent(st, e.code).s);
    } else if e.ESocketClosed? {
      ClosesQuietly(st, e.gen, e.canReconnect);
      EndsCount(st, SocketClosed(st, e.gen, e.canReconnect));
      ClosedTrack(st, e.gen, e.canReconnect);
    } else if e.ETrackStopped? {
      EndsQuietly(st, e.uid);
      EndsCount(st, TrackStopped(st, e.uid));
      StoppedTrack(st, e.uid);
    } else {
      EndsQuietly(st, NoUid);
      EndsCount(st, StartBegin(st));
      EndsCount(st, AutoStart(st));
      StartedTrack(st);
    }
  }

  lemma EndsCount(st: State, r: State)
    requires EndsSession(st, r)
    ensures r.s.ready ==> st.s.ready && r.log.epoch == st.log.epoch && NextToSend(r.s) == NextToSend(st.s)
  {
    hide NextToSend;
    NextOf(st.s, r.s);
  }

  lemma ErrorTrack(st: State, code: T.ErrorCode)
    ensures var r := ErrorEvent(st, code); r.s.ready ==> r.s.trackUid == st.s.trackUid && r.log.epoch == st.log.epoch
  {
    hide Held;
  }

  lemma ClosedTrack(st: State, gen: nat, canReconnect: bool)
    ensures SocketClosed(st, gen, canReconnect).s.trackUid == st.s.trackUid
  {
    hide Exhausted, MarkUnsent;
  }

  lemma StoppedTrack(st: State, uid: Uid)
    ensures var r := TrackStopped(st, uid); r.s.ready ==> r.s.trackUid == st.s.trackUid
  {
    hide Held;
  }

  lemma StartedTrack(st: State)
    ensures StartBegin(st).s.trackUid == st.s.trackUid && AutoStart(st).s.trackUid == st.s.trackUid
  {
    hide Held;
  }

  /** An ack never moves the next number to send down. */
  lemma AckCounts(st: State, num: U32)
    requires Shape(st.s.queue, st.s.lastAssigned)
    ensures CountsOn(st, Ack(st, num))
  {
    var q, last := st.s.queue, st.s.lastAssigned;
    AckKeepsShape(q, last, num);
    UnsentCount(q, last);
    UnsentCount(AckThrough(q, num), last);
    AckKeepsWindow(q, last, num);
    assert |q.inflight| <= last;
    hide Unsent, Shape, KeepAbove, FramesAbove, Held, Increasing, Contiguous;
  }

  // ---- New frames ----

  /** `bs` were built for the open session of `st`, from its next number on and below `end`. */
  ghost predicate NewFrames(st: State, bs: seq<Built>, end: int) {
    forall b :: b in bs ==> b.track == st.s.trackUid && b.epoch == st.log.epoch && NextToSend(st.s) <= b.last - b.count + 1 && b.last < end
  }

  lemma {:induction false} BuiltRange(epoch: nat, track: Uid, pieces: seq<Piece>, next: nat)
    requires Chained(pieces, next)
    ensures forall b :: b in BuiltFrom(epoch, track, pieces, next) ==>
              b.epoch == epoch && b.track == track && next <= b.last - b.count + 1 && b.last < next + |Joined(pieces)|
    decreases pieces
  {
    hide PieceOk, PieceBytes;
    if pieces != [] {
      BuiltRange(epoch, track, pieces[1..], pieces[0].num + 1);
    }
  }

  lemma FlushFrames(st: State)
    requires Delivery(st) && Room(st.s) && !FlushIdle(st.s)
    ensures PickedOk(st.s) && st.log.built <= FlushPass(st).log.built
    ensures NewFrames(st, FlushPass(st).log.built[|st.log.built|..], NextToSend(FlushPass(st).s))
  {
    assert Shape(st.s.queue, st.s.lastAssigned) && Picked(st.s) != [];
    hide *;
    PassReaches(st);
    PassBuilds(st);
    PickedStartsNext(st.s);
    PickedHasRoom(st.s);
    NextAfter(FlushPass(st).s, FirstNum(Picked(st.s)), |Joined(Sending(st.s))|);
    BuiltRange(st.log.epoch, st.s.trackUid, Sending(st.s), FirstNum(Picked(st.s)));
    FramesFrom(st, FlushPass(st), Sending(st.s), FirstNum(Picked(st.s)));
  }

  lemma FramesFrom(st: State, r: State, pieces: seq<Piece>, first: nat)
    requires Chained(pieces, first) && NextToSend(st.s) == first && NextToSend(r.s) == first + |Joined(pieces)|
    requires r.log.built == st.log.built + BuiltFrom(st.log.epoch, st.s.trackUid, pieces, first)
    requires forall b :: b in BuiltFrom(st.log.epoch, st.s.trackUid, pieces, first) ==>
               b.epoch == st.log.epoch && b.track == st.s.trackUid && first <= b.last - b.count + 1 && b.last < first + |Joined(pieces)|
    ensures st.log.built <= r.log.built && NewFrames(st, r.log.built[|st.log.built|..], NextToSend(r.s))
  {
    hide NextToSend, Chained, Joined, BuiltFrom;
    assert r.log.built[|st.log.built|..] == BuiltFrom(st.log.epoch, st.s.trackUid, pieces, first);
  }

  /** The frame of a live publish. */
  lemma LiveFrame(flat: Flat, st: State, point: LatLng)
    requires Delivery(st) && Live(st.s)
    ensures var r, num := PublishLive(st, flat, point), st.s.lastAssigned + 1;
            && r.log.built == st.log.built + [Built(st.log.epoch, st.s.trackUid, num, 1, true, SingleBytes(num, FixOf(point, true)))]
            && r.s.lastAssigned == num && NextToSend(r.s) == num + 1 && NextToSend(st.s) <= num
            && r.s.trackUid == st.s.trackUid && r.log.epoch == st.log.epoch && r.s.ready && CanSend(r.s)
            && (st.s.queue.staging == [] ==> r.s.queue.staging == [])
  {
    assert Shape(st.s.queue, st.s.lastAssigned);
    hide Delivery, Shape, SingleBytes, FixOf, NextToSend, WindowFull, PublishLive;
    LiveIs(flat, st, point);
    LiveNext(flat, st, point);
  }

  lemma LiveIs(flat: Flat, st: State, point: LatLng)
    requires Live(st.s)
    ensures var r, num := PublishLive(st, flat, point), st.s.lastAssigned + 1;
            && r.log.built == st.log.built + [Built(st.log.epoch, st.s.trackUid, num, 1, true, SingleBytes(num, FixOf(point, true)))]
            && r.s.lastAssigned == num && r.s.trackUid == st.s.trackUid && r.log.epoch == st.log.epoch && r.s.ready && CanSend(r.s)
  {
    hide Enqueue, RecordFrame, Held, SingleBytes, FixOf, WindowFull;
  }

  lemma LiveNext(flat: Flat, st: State, point: LatLng)
    requires Shape(st.s.queue, st.s.lastAssigned) && !WindowFull(st.s.queue)
    ensures var r := PublishLive(st, flat, point).s;
            && NextToSend(r) == st.s.lastAssigned + 2 && NextToSend(st.s) <= st.s.lastAssigned + 1
            && (st.s.queue.staging == [] ==> r.queue.staging == [])
  {
    LiveEmptiesQueue(flat, st.s.queue, st.s.lastAssigned, Sample(st.log.emitted, point));
    LiveQueue(flat, st, point);
    LiveCounter(flat, st, point);
    hide Shape, Unsent, Enqueue, RecordFrame, PublishLive, WindowFull;
  }

  lemma LiveCounter(flat: Flat, st: State, point: LatLng)
    ensures PublishLive(st, flat, point).s.lastAssigned == st.s.lastAssigned + 1
  {
    hide Enqueue, RecordFrame, Held, SingleBytes, FixOf;
  }

  lemma LiveFrames(flat: Flat, st: State, point: LatLng)
    requires Delivery(st) && Live(st.s)
    ensures var r := PublishLive(st, flat, point);
            st.log.built <= r.log.built && NewFrames(st, r.log.built[|st.log.built|..], NextToSend(r.s))
  {
    LiveFrame(flat, st, point);
    hide Delivery, Live, PublishLive, NextToSend, SingleBytes, FixOf;
    var r := PublishLive(st, flat, point);
    assert r.log.built[|st.log.built|..] == [r.log.built[|st.log.built|]];
  }

  /** What a step that builds frames does to an open session. */
  ghost predicate Sends(st: State, r: State) {
    && st.s.ready && r.s.trackUid == st.s.trackUid && r.log.epoch == st.log.epoch
    && st.log.built <= r.log.built && NextToSend(st.s) <= NextToSend(r.s)
    && NewFrames(st, r.log.built[|st.log.built|..], NextToSend(r.s))
  }

  /** Frames above everything earlier counter runs sent share no number with them. */
  lemma SendsKeepsTracks(st: State, r: State)
    requires OneCounter(st.log.built) && Beyond(st) && Sends(st, r)
    ensures OneCounter(r.log.built) && Beyond(r)
  {
    var bs := r.log.built[|st.log.built|..];
    hide NextToSend;
    assert r.log.built == st.log.built + bs;
    forall a, b, num: nat | a in r.log.built && b in r.log.built && Share(a, b, num) ensures a.epoch == b.epoch {
      if a in st.log.built && b in st.log.built {
      } else if a in bs && b in bs {
      } else if a in bs {
        assert b in st.log.built;
      } else {
        assert b in bs && a in st.log.built;
      }
    }
  }

  // ---- Every run ----

  /** Numbers are unambiguous so far, and an open session sends above what other runs sent. */
  ghost predicate TrackSafe(st: State) {
    OneCounter(st.log.built) && (st.s.ready ==> Beyond(st))
  }

  lemma TrackSafeStep(flat: Flat, st: State, e: Event)
    requires Delivery(st) && Allowed(st, e) && TrackSafe(st)
    requires Opens(e) ==> Step(flat, st, e).s.ready ==> Beyond(Step(flat, st, e))
    ensures TrackSafe(Step(flat, st, e))
  {
    assert Shape(st.s.queue, st.s.lastAssigned);
    hide Delivery, Shape, OneCounter, Beyond, FlushPass, Publish, NextToSend;
    if e.EFlush? {
      FlushSends(st);
      if !FlushIdle(st.s) {
        SendsKeepsTracks(st, FlushPass(st));
      }
    } else if e.EPublish? {
      PublishCases(flat, st, e.point);
      if Live(st.s) {
        LiveSends(flat, st, e.point);
        SendsKeepsTracks(st, PublishLive(st, flat, e.point));
      } else {
        StagedCounts(flat, st, e.point);
        CountsKeepsTracks(st, PublishStaged(st, flat, e.point));
      }
    } else {
      BuildsNothing(flat, st, e);
      if !Opens(e) {
        CountsStep(flat, st, e);
        CountsKeepsTracks(st, Step(flat, st, e));
      }
    }
  }

  lemma FlushSends(st: State)
    requires Delivery(st) && Room(st.s)
    ensures PickedOk(st.s) && if FlushIdle(st.s) then FlushPass(st) == st else Sends(st, FlushPass(st))
  {
    assert Shape(st.s.queue, st.s.lastAssigned);
    PickedHasRoom(st.s);
    if FlushIdle(st.s) {
      IdleFlush(st);
    } else {
      assert st.s.ready;
      PassWorks(st);
      PassQuiet(st);
      FlushFrames(st);
      PassAgrees(st);
      hide *;
      FlushRises(st, FlushPass(st));
    }
  }

  lemma PassAgrees(st: State)
    requires Delivery(st) && Room(st.s) && !FlushIdle(st.s)
    ensures PickedOk(st.s) && AllAgree(FlushPass(st).log.names, FlushPass(st).log.built) && Delivery(FlushPass(st))
  {
    PassWorks(st);
    DeliveryAgrees(FlushPass(st));
    hide Delivery, FlushPass, FlushIdle, Consecutive, NextToSend, Room, PickedOk;
  }

  lemma FlushRises(st: State, r: State)
    requires PassEffect(st, r) && st.s.ready && r.s.trackUid == st.s.trackUid && AllAgree(r.log.names, r.log.built)
    requires NewFrames(st, r.log.built[|st.log.built|..], NextToSend(r.s))
    ensures Sends(st, r) && NextToSend(st.s) < NextToSend(r.s)
  {
    hide Delivery, NextToSend, Consecutive;
    var b := r.log.built[|st.log.built|];
    assert b == r.log.built[|st.log.built|..][0];
    assert Agrees(r.log.names, b);
  }

  lemma LiveSends(flat: Flat, st: State, point: LatLng)
    requires Delivery(st) && Live(st.s)
    ensures Sends(st, PublishLive(st, flat, point))
  {
    LiveFrame(flat, st, point);
    LiveFrames(flat, st, point);
    hide Delivery, PublishLive, NextToSend, NewFrames, SingleBytes, FixOf, WindowFull;
  }

  lemma StagedCounts(flat: Flat, st: State, point: LatLng)
    requires Delivery(st)
    ensures CountsOn(st, PublishStaged(st, flat, point)) && PublishStaged(st, flat, point).log.built == st.log.built
  {
    assert Shape(st.s.queue, st.s.lastAssigned);
    StagedQuiet(flat, st, point);
    hide Delivery, Shape, PublishStaged, Unsent;
  }

  lemma CountsKeepsTracks(st: State, r: State)
    requires TrackSafe(st) && CountsOn(st, r) && r.log.built == st.log.built
    ensures TrackSafe(r)
  {
    hide NextToSend, OneCounter;
  }

  /** Every event of `es` that opens a session opens it above what earlier counter runs sent for the
      uid it then has. */
  ghost predicate OpensBeyond(flat: Flat, st: State, es: seq<Event>)
    requires Inv(st) && RunAllowed(flat, st, es)
    decreases es
  {
    es == [] ||
    (InvStep(flat, st, es[0]);
     var r := Step(flat, st, es[0]);
     && (Opens(es[0]) && r.s.ready ==> Beyond(r))
     && OpensBeyond(flat, r, es[1..]))
  }

  lemma {:induction false} TracksStaySafe(flat: Flat, st: State, es: seq<Event>)
    requires Inv(st) && RunAllowed(flat, st, es) && OpensBeyond(flat, st, es)
    requires TrackSafe(st) && OnceNamed(st)
    ensures TrackSafe(Run(flat, st, es)) && OnceNamed(Run(flat, st, es))
    decreases es
  {
    if es != [] {
      InvParts(st);
      InvShape(st);
      InvStep(flat, st, es[0]);
      TrackSafeStep(flat, st, es[0]);
      OnceNamedStep(flat, st, es[0]);
      hide Step, Inv, Allowed, Shape, TrackSafe, OnceNamed, Beyond, Opens;
      TracksStaySafe(flat, Step(flat, st, es[0]), es[1..]);
    }
  }

  lemma OneCounterAgrees(log: Log)
    requires AllAgree(log.names, log.built) && OneCounter(log.built)
    ensures TrackAgrees(log)
  {
    hide Linked, LocBytes, Payload;
    forall a, b, num: nat | a in log.built && b in log.built && Share(a, b, num)
      ensures Covered(log.names, a) && Covered(log.names, b) && Said(log.names, a, num) == Said(log.names, b, num)
    {
      InBuilt(log, a);
      InBuilt(log, b);
    }
  }

  lemma InBuilt(log: Log, b: Built)
    requires AllAgree(log.names, log.built) && b in log.built
    ensures Agrees(log.names, b) && Covered(log.names, b)
  {
    var i :| 0 <= i < |log.built| && log.built[i] == b;
    assert Agrees(log.names, log.built[i]);
    hide Linked, LocBytes, Payload;
  }

  /** Along every run whose sessions open above what was sent before for their uid, no number of a
      track ever stands for two emitted points. */
  lemma NoNumberTwiceOnTrack(flat: Flat, cap: nat, backoff: BackoffState, es: seq<Event>)
    requires Inv(Initial(cap, backoff)) && RunAllowed(flat, Initial(cap, backoff), es) && OpensBeyond(flat, Initial(cap, backoff), es)
    ensures TrackAgrees(Run(flat, Initial(cap, backoff), es).log)
  {
    var st := Initial(cap, backoff);
    assert TrackSafe(st) && OnceNamed(st);
    TracksStaySafe(flat, st, es);
    var r := Run(flat, st, es);
    hide Run, RunAllowed, OpensBeyond, Initial, OneCounter, TrackAgrees;
    InvParts(r);
    DeliveryAgrees(r);
    OneCounterAgrees(r.log);
  }

  /** On the wire: two frames of one track that carry the same number carry the same point there,
      but for a stripped time. */
  lemma SamePointOnTrack(log: Log, a: Built, b: Built, num: nat)
    requires AllAgree(log.names, log.built) && TrackAgrees(log) && a in log.built && b in log.built && Share(a, b, num)
    ensures Agrees(log.names, a) && Agrees(log.names, b)
    ensures Payload(log.names, a)[num + a.count - a.last - 1].(time := None)
            == Payload(log.names, b)[num + b.count - b.last - 1].(time := None)
  {
    InBuilt(log, a);
    InBuilt(log, b);
    assert Said(log.names, a, num) == Said(log.names, b, num);
    hide TrackAgrees, AllAgree, Agrees, Covered, FixOf;
    CarriedPoint(log.names, a, num);
    CarriedPoint(log.names, b, num);
    StripOnlyTime(Said(log.names, a, num).point);
  }

  lemma CarriedPoint(names: map<Name, Sample>, b: Built, num: nat)
    requires Covered(names, b) && Carries(b, num)
    ensures Payload(names, b)[num + b.count - b.last - 1] == FixOf(Said(names, b, num).point, b.live)
  {
    hide FixOf;
    var x := num + b.count - b.last - 1;
    assert b.last - b.count + 1 + x == num;
  }

  // ---- The condition is exact ----

  /** No event opens a session or moves the counter. */
  predicate Steady(es: seq<Event>) {
    forall e :: e in es ==> !Opens(e)
  }

  /** `r` is a later state of the same open session, and its frames carry `num` under its counter. */
  ghost predicate CarriedBy(st: State, r: State, num: nat) {
    exists b :: b in r.log.built && b.track == st.s.trackUid && b.epoch == st.log.epoch && Carries(b, num)
  }

  /** May send, and the wire's numbers last. */
  ghost predicate CanGoOn(st: State) {
    Inv(st) && CanSend(st.s) && Room(st.s)
  }

  lemma {:induction false} FramesCover(bs: seq<Built>, epoch: nat, a: int, c: int, num: nat)
    requires Consecutive(bs, epoch, a, c) && a <= num < c
    ensures exists b :: b in bs && Carries(b, num)
    decreases bs
  {
    if num <= bs[0].last {
      assert bs[0] in bs && Carries(bs[0], num);
    } else {
      TailConsecutive(bs, epoch, a, c);
      FramesCover(bs[1..], epoch, bs[0].last + 1, c, num);
    }
  }

  lemma TailConsecutive(bs: seq<Built>, epoch: nat, a: int, c: int)
    requires bs != [] && Consecutive(bs, epoch, a, c)
    ensures Consecutive(bs[1..], epoch, bs[0].last + 1, c)
  {
    var rest := bs[1..];
    forall i | 0 <= i < |rest| - 1 ensures Handlers.Follows(rest, i) {
      assert Handlers.Follows(bs, i + 1);
    }
    if rest != [] {
      assert Handlers.Follows(bs, 0);
    }
  }

  /** With a full window: an ack of everything sent frees it and changes nothing else. */
  lemma AckFrees(st: State)
    requires CanGoOn(st) && WindowFull(st.s.queue)
    ensures var num := High(st.s.queue.frames);
            && num < TWO32
            && var r := Ack(st, num);
               && CanGoOn(r) && !WindowFull(r.s.queue) && NextToSend(r.s) == NextToSend(st.s)
               && r.s.trackUid == st.s.trackUid && r.log.epoch == st.log.epoch
  {
    InvParts(st);
    InvShape(st);
    var q, last := st.s.queue, st.s.lastAssigned;
    assert last < TWO32;
    HighBelow(q, last);
    hide Inv, Delivery, Shape, Held, KeepAbove, FramesAbove, High;
    SentBelowNext(st.s);
    AckKeepsNext(st, High(q.frames));
    AckedWindow(q, last);
    AckInv(st, High(q.frames));
    hide Unsent, NextToSend;
  }

  lemma SentBelowNext(s: Session)
    requires Shape(s.queue, s.lastAssigned)
    ensures High(s.queue.frames) < NextToSend(s)
  {
    UnsentCount(s.queue, s.lastAssigned);
    hide Shape, Unsent;
  }

  lemma AckInv(st: State, num: U32)
    requires Inv(st)
    ensures Inv(Ack(st, num))
  {
    var flat: Flat := (a, b, c) => false;
    assert num < TWO32;
    hide *;
    InvShape(st);
    StepIsAck(flat, st, num);
    InvStep(flat, st, EAck(num));
  }

  lemma AckedWindow(q: Buffer, last: nat)
    requires Shape(q, last)
    ensures FramesAbove(q.frames, High(q.frames)) == []
  {
    FramesAboveSuffix(q.frames, High(q.frames));
    hide FramesAbove;
  }

  /** With something to flush: one pass sends consecutive numbers from the next one due. */
  lemma FlushGoesOn(flat: Flat, st: State)
    requires CanGoOn(st) && !WindowFull(st.s.queue) && (Unsent(st.s.queue.inflight) != [] || st.s.queue.staging != [])
    ensures PickedOk(st.s)
    ensures var r := FlushPass(st);
            && CanGoOn(r) && NextToSend(st.s) < NextToSend(r.s)
            && r.s.trackUid == st.s.trackUid && r.log.epoch == st.log.epoch
            && forall num: nat :: NextToSend(st.s) <= num < NextToSend(r.s) ==> CarriedBy(st, r, num)
  {
    InvParts(st);
    InvShape(st);
    SomethingToFlush(st.s);
    PassWorks(st);
    FlushSends(st);
    PassInv(flat, st);
    PassAgrees(st);
    hide Inv, Delivery, Shape, Picked, FlushIdle, FlushPass, Unsent, PickedOk;
    PassQuiet(st);
    PassCarries(st, FlushPass(st));
  }

  lemma SomethingToFlush(s: Session)
    requires CanSend(s) && !WindowFull(s.queue) && (Unsent(s.queue.inflight) != [] || s.queue.staging != [])
    ensures !FlushIdle(s)
  {
    hide Unsent;
  }

  lemma PassInv(flat: Flat, st: State)
    requires Inv(st) && Room(st.s)
    ensures PickedOk(st.s) && Inv(FlushPass(st))
  {
    InvShape(st);
    hide Inv, Shape, Room;
    PickedHasRoom(st.s);
    InvStep(flat, st, EFlush);
    hide FlushPass;
    assert Step(flat, st, EFlush) == FlushPass(st);
  }

  lemma PassCarries(st: State, r: State)
    requires PassEffect(st, r) && st.s.ready && r.s.trackUid == st.s.trackUid && AllAgree(r.log.names, r.log.built)
    requires NewFrames(st, r.log.built[|st.log.built|..], NextToSend(r.s)) && CanSend(st.s) && Room(st.s)
    ensures NextToSend(st.s) < NextToSend(r.s) && CanSend(r.s) && Room(r.s)
    ensures forall num: nat :: NextToSend(st.s) <= num < NextToSend(r.s) ==> CarriedBy(st, r, num)
  {
    FlushRises(st, r);
    hide Delivery, NextToSend, Consecutive, AllAgree;
    var bs := r.log.built[|st.log.built|..];
    forall num: nat | NextToSend(st.s) <= num < NextToSend(r.s) ensures CarriedBy(st, r, num) {
      FramesCover(bs, st.log.epoch, NextToSend(st.s), NextToSend(r.s), num);
      var b :| b in bs && Carries(b, num);
      assert b in r.log.built;
    }
  }

  /** With nothing waiting: a live publish sends the next number. */
  lemma PublishGoesOn(flat: Flat, st: State, point: LatLng)
    requires CanGoOn(st) && !WindowFull(st.s.queue) && Unsent(st.s.queue.inflight) == [] && st.s.queue.staging == []
    ensures var r, num := Publish(st, flat, point), st.s.lastAssigned + 1;
            && NextToSend(st.s) == num && NextToSend(r.s) == num + 1
            && Inv(r) && CanSend(r.s) && (num + 1 < TWO32 ==> Room(r.s))
            && r.s.trackUid == st.s.trackUid && r.log.epoch == st.log.epoch && CarriedBy(st, r, num)
  {
    InvParts(st);
    InvShape(st);
    PublishCases(flat, st, point);
    LiveFrame(flat, st, point);
    PublishInv(flat, st, point);
    var r := PublishLive(st, flat, point);
    assert r.log.built[|st.log.built|] in r.log.built;
    hide Inv, Delivery, Shape, Unsent, PublishLive, Publish, SingleBytes, FixOf;
    assert NextToSend(st.s) == st.s.lastAssigned + 1;
  }

  lemma PublishInv(flat: Flat, st: State, point: LatLng)
    requires Inv(st) && Room(st.s)
    ensures Inv(Publish(st, flat, point))
  {
    hide *;
    InvShape(st);
    StepIsPublish(flat, st, point);
    InvStep(flat, st, EPublish(point));
  }

  /** One more event at the front of a run. */
  lemma RunFrom(flat: Flat, st: State, e: Event, es: seq<Event>)
    requires Inv(st) && Allowed(st, e) && Inv(Step(flat, st, e)) && RunAllowed(flat, Step(flat, st, e), es)
    ensures RunAllowed(flat, st, [e] + es) && Run(flat, st, [e] + es) == Run(flat, Step(flat, st, e), es)
  {
    assert ([e] + es)[1..] == es;
    hide Inv, Allowed, Step;
  }

  /** One event on the way to `num`: it is sent, or the session goes on, nearer to it. */
  ghost predicate Progress(flat: Flat, st: State, e: Event, r: State, num: nat) {
    && Shape(st.s.queue, st.s.lastAssigned) && Allowed(st, e) && !Opens(e) && Step(flat, st, e) == r && Inv(r)
    && r.s.trackUid == st.s.trackUid && r.log.epoch == st.log.epoch && NextToSend(st.s) <= NextToSend(r.s)
    && (num < NextToSend(r.s) ==> CarriedBy(st, r, num))
    && (NextToSend(r.s) <= num ==>
          CanGoOn(r) && (NextToSend(st.s) < NextToSend(r.s) || (WindowFull(st.s.queue) && !WindowFull(r.s.queue))))
  }

  lemma GoOnSteps(flat: Flat, st: State, num: nat, point: LatLng)
    requires CanGoOn(st)
    ensures Shape(st.s.queue, st.s.lastAssigned) && Inv(st) && Room(st.s)
    ensures num < TWO32 ==> Allowed(st, EAck(num)) && Step(flat, st, EAck(num)) == Ack(st, num)
    ensures PickedOk(st.s) && Allowed(st, EFlush) && Step(flat, st, EFlush) == FlushPass(st)
    ensures Allowed(st, EPublish(point)) && Step(flat, st, EPublish(point)) == Publish(st, flat, point)
  {
    InvShape(st);
    hide Inv, Shape, CanSend;
    StepIsAck(flat, st, num);
    StepIsFlush(flat, st);
    StepIsPublish(flat, st, point);
    hide *;
  }

  lemma StepIsAck(flat: Flat, st: State, num: nat)
    requires Shape(st.s.queue, st.s.lastAssigned)
    ensures num < TWO32 ==> Allowed(st, EAck(num)) && Step(flat, st, EAck(num)) == Ack(st, num)
  {
    hide Shape, Ack;
  }

  lemma StepIsFlush(flat: Flat, st: State)
    requires Shape(st.s.queue, st.s.lastAssigned)
    ensures PickedOk(st.s) && (Allowed(st, EFlush) <==> Room(st.s)) && Step(flat, st, EFlush) == FlushPass(st)
  {
    PickedHasRoom(st.s);
    hide Shape, FlushPass, Room;
  }

  lemma StepIsPublish(flat: Flat, st: State, point: LatLng)
    requires Shape(st.s.queue, st.s.lastAssigned)
    ensures (Allowed(st, EPublish(point)) <==> Room(st.s)) && Step(flat, st, EPublish(point)) == Publish(st, flat, point)
  {
    hide Shape, Publish, Room;
  }

  lemma AckProgress(flat: Flat, st: State, num: nat)
    requires CanGoOn(st) && NextToSend(st.s) <= num < TWO32 && WindowFull(st.s.queue)
    ensures High(st.s.queue.frames) < TWO32
    ensures Progress(flat, st, EAck(High(st.s.queue.frames)), Ack(st, High(st.s.queue.frames)), num)
  {
    hide Inv, Shape, CanSend, Room, Ack, High, NextToSend, CarriedBy, Allowed, Step, WindowFull;
    AckFrees(st);
    var ack := High(st.s.queue.frames);
    GoOnSteps(flat, st, ack, LatLng(0.0, 0.0, None, None, None, None, None));
    hide CanGoOn;
    assert CanGoOn(Ack(st, ack)) && Inv(Ack(st, ack)) by {
      GoesOnInv(Ack(st, ack));
    }
  }

  lemma GoesOnInv(st: State)
    requires CanGoOn(st)
    ensures Inv(st)
  {
    hide Inv, CanSend, Room;
  }

  lemma FlushProgress(flat: Flat, st: State, num: nat)
    requires CanGoOn(st) && NextToSend(st.s) <= num < TWO32
    requires !WindowFull(st.s.queue) && (Unsent(st.s.queue.inflight) != [] || st.s.queue.staging != [])
    ensures PickedOk(st.s) && Progress(flat, st, EFlush, FlushPass(st), num)
  {
    hide Inv, Shape, CanSend, Room, FlushPass, NextToSend, CarriedBy, Unsent, Allowed, Step, WindowFull, CanGoOn, HasRoom, Picked;
    GoOnSteps(flat, st, 0, LatLng(0.0, 0.0, None, None, None, None, None));
    FlushGoesOn(flat, st);
    GoesOnInv(FlushPass(st));
  }

  lemma PublishProgress(flat: Flat, st: State, num: nat, point: LatLng)
    requires CanGoOn(st) && NextToSend(st.s) <= num < TWO32
    requires !WindowFull(st.s.queue) && Unsent(st.s.queue.inflight) == [] && st.s.queue.staging == []
    ensures Progress(flat, st, EPublish(point), Publish(st, flat, point), num)
  {
    hide Inv, Shape, CanSend, Room, Publish, NextToSend, CarriedBy, Unsent, PickedOk, Allowed, Step, WindowFull;
    GoOnSteps(flat, st, 0, point);
    PublishGoesOn(flat, st, point);
  }

  lemma NextEvent(flat: Flat, st: State, num: nat, point: LatLng) returns (e: Event, r: State)
    requires CanGoOn(st) && NextToSend(st.s) <= num < TWO32
    ensures Progress(flat, st, e, r, num)
  {
    hide CanGoOn, Progress, NextToSend, WindowFull, Unsent, Ack, FlushPass, Publish, High;
    if WindowFull(st.s.queue) {
      AckProgress(flat, st, num);
      e, r := EAck(High(st.s.queue.frames)), Ack(st, High(st.s.queue.frames));
    } else if Unsent(st.s.queue.inflight) != [] || st.s.queue.staging != [] {
      FlushProgress(flat, st, num);
      e, r := EFlush, FlushPass(st);
    } else {
      PublishProgress(flat, st, num, point);
      e, r := EPublish(point), Publish(st, flat, point);
    }
  }

  /** An open session can always be driven up to any number at or above its next one. */
  lemma {:induction false} ReachNumber(flat: Flat, st: State, num: nat, point: LatLng) returns (es: seq<Event>)
    requires CanGoOn(st) && NextToSend(st.s) <= num < TWO32
    ensures RunAllowed(flat, st, es) && Steady(es) && CarriedBy(st, Run(flat, st, es), num)
    decreases num + 1 - NextToSend(st.s), if WindowFull(st.s.queue) then 1 else 0
  {
    hide Inv, Shape, CanSend, Room, Allowed, Step, NextToSend, WindowFull, Opens, Steady, CarriedBy;
    var e, r := NextEvent(flat, st, num, point);
    if num < NextToSend(r.s) {
      es := [e];
      RunFrom(flat, st, e, []);
      assert [e] + [] == [e];
      SteadyOne(e);
    } else {
      var rest := ReachNumber(flat, r, num, point);
      es := [e] + rest;
      RunFrom(flat, st, e, rest);
      SteadyCons(e, rest);
      CarriedOn(st, r, Run(flat, r, rest), num);
    }
  }

  lemma SteadyOne(e: Event)
    requires !Opens(e)
    ensures Steady([e])
  {
    hide Opens;
  }

  lemma SteadyCons(e: Event, es: seq<Event>)
    requires !Opens(e) && Steady(es)
    ensures Steady([e] + es)
  {
    hide Opens;
  }

  lemma CarriedOn(st: State, v: State, r: State, num: nat)
    requires CarriedBy(v, r, num) && v.s.trackUid == st.s.trackUid && v.log.epoch == st.log.epoch
    ensures CarriedBy(st, r, num)
  {
  }

  lemma {:induction false} OnceNamedRun(flat: Flat, st: State, es: seq<Event>)
    requires Inv(st) && RunAllowed(flat, st, es) && OnceNamed(st)
    ensures OnceNamed(Run(flat, st, es))
    decreases es
  {
    if es != [] {
      InvParts(st);
      InvShape(st);
      InvStep(flat, st, es[0]);
      OnceNamedStep(flat, st, es[0]);
      hide Step, Inv, Allowed, Shape, OnceNamed;
      OnceNamedRun(flat, Step(flat, st, es[0]), es[1..]);
    }
  }

  /** Two frames of one track that share a number across counter runs carry two emitted points. */
  lemma AcrossRunsDiffers(r: State, a: Built, b: Built, num: nat)
    requires Delivery(r) && OnceNamed(r) && a in r.log.built && b in r.log.built && Share(a, b, num) && a.epoch != b.epoch
    ensures AllAgree(r.log.names, r.log.built) && !TrackAgrees(r.log)
  {
    InBuilt(r.log, a);
    InBuilt(r.log, b);
    hide Shape, Labelled, Linked, LocBytes, Payload;
    assert Name(a.epoch, num) in r.log.names && Name(b.epoch, num) in r.log.names;
    assert Said(r.log.names, a, num) != Said(r.log.names, b, num);
  }

  /** When an earlier counter run has sent up to or past the next number, some way of going on gives
      a number of the track to a second point. */
  lemma CrossesOver(flat: Flat, st: State, b: Built, point: LatLng) returns (es: seq<Event>)
    requires CanGoOn(st) && OnceNamed(st)
    requires b in st.log.built && b.track == st.s.trackUid && b.epoch != st.log.epoch && NextToSend(st.s) <= b.last
    ensures RunAllowed(flat, st, es) && Steady(es)
    ensures AllAgree(Run(flat, st, es).log.names, Run(flat, st, es).log.built) && !TrackAgrees(Run(flat, st, es).log)
  {
    InvParts(st);
    DeliveryAgrees(st);
    InBuilt(st.log, b);
    es := ReachNumber(flat, st, b.last, point);
    OnceNamedRun(flat, st, es);
    NamesAreForever(flat, st, es);
    var r := Run(flat, st, es);
    hide Run, RunAllowed, CanGoOn, OnceNamed, TrackAgrees, NextToSend;
    InvParts(r);
    DeliveryAgrees(r);
    var a :| a in r.log.built && a.track == st.s.trackUid && a.epoch == st.log.epoch && Carries(a, b.last);
    InPrefix(st.log.built, r.log.built, b);
    AcrossRunsDiffers(r, a, b, b.last);
  }

  lemma InPrefix(x: seq<Built>, y: seq<Built>, b: Built)
    requires x <= y && b in x
    ensures b in y
  {
  }

  /** For every state with an open session: each number of the track goes on to stand for one point,
      however the session continues, if and only if its next number lies above everything earlier
      counter runs sent for that uid. */
  lemma TrackStaysClear(flat: Flat, st: State, point: LatLng)
    requires CanGoOn(st) && OnceNamed(st) && OneCounter(st.log.built)
    ensures Beyond(st) <==> forall es {:trigger RunAllowed(flat, st, es)} :: RunAllowed(flat, st, es) && Steady(es) ==>
              var log := Run(flat, st, es).log; AllAgree(log.names, log.built) && TrackAgrees(log)
  {
    if Beyond(st) {
      forall es {:trigger RunAllowed(flat, st, es)} | RunAllowed(flat, st, es) && Steady(es)
        ensures var log := Run(flat, st, es).log; AllAgree(log.names, log.built) && TrackAgrees(log)
      {
        SteadyRunAgrees(flat, st, es);
      }
    } else {
      hide Inv, CanSend, Room, OnceNamed, OneCounter, NextToSend, TrackAgrees, Steady;
      var b :| b in st.log.built && b.track == st.s.trackUid && b.epoch != st.log.epoch && NextToSend(st.s) <= b.last;
      var es := CrossesOver(flat, st, b, point);
    }
  }

  lemma SteadyRunAgrees(flat: Flat, st: State, es: seq<Event>)
    requires Inv(st) && RunAllowed(flat, st, es) && Steady(es) && OnceNamed(st) && TrackSafe(st)
    ensures var log := Run(flat, st, es).log; AllAgree(log.names, log.built) && TrackAgrees(log)
  {
    SteadyOpensNothing(flat, st, es);
    TracksStaySafe(flat, st, es);
    var r := Run(flat, st, es);
    hide Run, RunAllowed, OpensBeyond, OneCounter, TrackAgrees, Steady;
    InvParts(r);
    DeliveryAgrees(r);
    OneCounterAgrees(r.log);
  }

  lemma {:induction false} SteadyOpensNothing(flat: Flat, st: State, es: seq<Event>)
    requires Inv(st) && RunAllowed(flat, st, es) && Steady(es)
    ensures OpensBeyond(flat, st, es)
    decreases es
  {
    if es != [] {
      InvStep(flat, st, es[0]);
      assert !Opens(es[0]) && Steady(es[1..]);
      hide Step, Inv, Allowed, Opens, Steady, Beyond;
      SteadyOpensNothing(flat, Step(flat, st, es[0]), es[1..]);
    }
  }
}
