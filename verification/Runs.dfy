/** Whole runs of the engine at the granularity of lock sections: any event may follow any other,
    so every interleaving of publishers, dispatchers, dials and closers is a run. */
module Runs {
  import opened Wrappers
  import opened Bytes
  import opened Points
  import opened Reading
  import opened Loc
  import opened Queue
  import opened Backoff
  import opened Engine
  import T = Types

  datatype Event =
    | EDialBegin
    | EDialInstall(gen: nat)
    | EDialAbandon(gen: nat)
    | EResumeOk(uid: Uid, ack: U32)
    | ETrackStarted(uid: Uid)
    | ETrackStopped(uid: Uid)
    | EAck(num: U32)
    | EError(code: T.ErrorCode)
    | ESocketClosed(gen: nat, canReconnect: bool)
    | EAuthDenied
    | EAuthRefreshed
    | EAuthRefreshFailed
    | EClose
    | EStartBegin
    | EStartFailed
    | EAutoStart
    | EAutoStartFailed
    | EManualResume(uid: Uid, last: nat)
    | EResumePrepare
    | EResumeFailed
    | EStopWait(waiting: bool)
    | EPublish(point: LatLng)
    | EFlush
    | EHandOver(bytes: seq<Byte>, alive: bool)

  // ---- Agreement between numbers, points and frames ----

  ghost predicate Covered(names: map<Name, Sample>, b: Built) {
    && 1 <= b.count <= MAX_LOC_POINTS && b.count <= b.last < TWO32
    && forall n :: b.last - b.count < n <= b.last ==> Name(b.epoch, n) in names
  }

  /** The points named last-count+1 .. last, as they go on the wire. */
  ghost function Payload(names: map<Name, Sample>, b: Built): (fs: seq<Fix>)
    requires Covered(names, b)
    ensures |fs| == b.count
  {
    seq(b.count, j requires 0 <= j < b.count => FixOf(names[Name(b.epoch, b.last - b.count + 1 + j)].point, b.live))
  }

  /** The frame says exactly what its numbers name. */
  ghost predicate Agrees(names: map<Name, Sample>, b: Built) {
    Covered(names, b) && Linked(Payload(names, b), None) && b.bytes == LocBytes(b.last, Payload(names, b))
  }

  ghost predicate AllAgree(names: map<Name, Sample>, built: seq<Built>) {
    forall i :: 0 <= i < |built| ==> Agrees(names, built[i])
  }

  /** No name is ever bound again. */
  ghost predicate Extends(names: map<Name, Sample>, names': map<Name, Sample>) {
    forall n :: n in names ==> n in names' && names'[n] == names[n]
  }

  lemma AgreesExtends(names: map<Name, Sample>, names': map<Name, Sample>, b: Built)
    requires Agrees(names, b) && Extends(names, names')
    ensures Agrees(names', b)
  {
    assert Payload(names, b) == Payload(names', b);
  }

  lemma AllAgreeExtends(names: map<Name, Sample>, names': map<Name, Sample>, built: seq<Built>)
    requires AllAgree(names, built) && Extends(names, names')
    ensures AllAgree(names', built)
  {
    forall i | 0 <= i < |built| ensures Agrees(names', built[i]) {
      AgreesExtends(names, names', built[i]);
    }
  }

  // ---- The invariant ----

  /** InFlight entries are what the log says their numbers name. */
  ghost predicate Labelled(qs: seq<Queued>, epoch: nat, names: map<Name, Sample>) {
    forall k :: 0 <= k < |qs| ==> Name(epoch, qs[k].num) in names && names[Name(epoch, qs[k].num)] == qs[k].sample
  }

  ghost predicate NamesBelow(names: map<Name, Sample>, epoch: nat, last: nat) {
    forall n :: n in names ==> n.epoch <= epoch && (n.epoch == epoch ==> 1 <= n.num <= last)
  }

  ghost predicate Delivery(st: State) {
    && Shape(st.s.queue, st.s.lastAssigned) && st.s.lastAssigned < TWO32
    && Labelled(st.s.queue.inflight, st.log.epoch, st.log.names)
    && NamesBelow(st.log.names, st.log.epoch, st.s.lastAssigned)
    && AllAgree(st.log.names, st.log.built)
    && st.log.sessionStart <= |st.log.built|
  }

  function Emitted(n: nat): multiset<nat> {
    if n == 0 then multiset{} else Emitted(n - 1) + multiset{n - 1}
  }

  /** Every emitted point is in one place: in the queue, acked, evicted, or gone with its track. */
  ghost predicate Conserved(st: State) {
    Held(st.s.queue) + st.log.acked + st.log.evicted + st.log.discarded == Emitted(st.log.emitted)
  }

  ghost predicate Generations(st: State) {
    && Increasing(st.log.installed)
    && (forall g :: g in st.log.installed ==> g <= st.s.dialGen && g !in st.log.dials)
    && (forall g :: g in st.log.dials ==> g <= st.s.dialGen)
  }

  ghost predicate Inv(st: State) {
    Delivery(st) && Conserved(st) && Generations(st)
  }

  lemma DeliveryShape(st: State)
    requires Delivery(st)
    ensures Shape(st.s.queue, st.s.lastAssigned) && st.s.lastAssigned < TWO32
  {
    hide Shape, Labelled, NamesBelow, AllAgree;
  }

  lemma InvShape(st: State)
    requires Inv(st)
    ensures Delivery(st) && Shape(st.s.queue, st.s.lastAssigned)
  {
    hide Shape, Conserved, Generations, AllAgree, Labelled, NamesBelow;
  }

  // ---- What the environment owes ----

  /** `TrackStarted` answers while nothing is in flight. */
  ghost predicate StartedCleanly(s: Session) {
    s.queue.inflight == []
  }

  /** A manual resume does not move the counter under points that are still in flight. */
  ghost predicate ResumesCleanly(s: Session, last: nat) {
    last < TWO32 && (s.queue.inflight == [] || last == s.lastAssigned)
  }

  /** Numbers fit the wire's u32. */
  ghost predicate Room(s: Session) {
    s.lastAssigned + |s.queue.staging| + 1 < TWO32
  }

  ghost predicate Allowed(st: State, e: Event) {
    match e
    case ETrackStarted(_) => StartedCleanly(st.s)
    case EManualResume(uid, last) => ResumesCleanly(st.s, last)
    case EPublish(_) => Room(st.s)
    case EFlush => Room(st.s)
    case _ => true
  }

  /** A pass numbers its points in one block that ends at the counter. */
  ghost predicate PickedOk(s: Session) {
    && HasRoom(Picked(s))
    && (Picked(s) != [] ==>
          && Block(Picked(s), FirstNum(Picked(s)))
          && FirstNum(Picked(s)) >= 1
          && FirstNum(Picked(s)) + |Picked(s)| == Claimed(s).lastAssigned + 1)
  }

  lemma PickedHasRoom(s: Session)
    requires Shape(s.queue, s.lastAssigned)
    ensures PickedOk(s)
  {
    hide PickedOk;
    if Unsent(s.queue.inflight) != [] {
      UnsentHasRoom(s);
    } else {
      StagedHasRoom(s);
    }
  }

  lemma UnsentHasRoom(s: Session)
    requires Shape(s.queue, s.lastAssigned) && Unsent(s.queue.inflight) != []
    ensures PickedOk(s)
  {
    UnsentIsSuffix(s.queue, s.lastAssigned);
    hide Unsent, Shape;
    LastBlock(Picked(s), Claimed(s).lastAssigned);
  }

  lemma StagedHasRoom(s: Session)
    requires Unsent(s.queue.inflight) == []
    ensures PickedOk(s)
  {
    hide Unsent;
    if Picked(s) != [] {
      LastBlock(Picked(s), Claimed(s).lastAssigned);
    }
  }

  lemma LastBlock(qs: seq<Queued>, last: nat)
    requires qs != [] && |qs| <= last
    requires forall i :: 0 <= i < |qs| ==> qs[i].num == last + 1 - |qs| + i
    ensures HasRoom(qs) && FirstNum(qs) == last + 1 - |qs| >= 1 && Block(qs, FirstNum(qs))
  {
    assert qs[|qs| - 1].num == last;
  }

  /** The unsent points are the last numbers assigned. */
  lemma UnsentIsSuffix(q: Buffer, last: nat)
    requires Shape(q, last)
    ensures var u := Unsent(q.inflight);
            && |u| <= |q.inflight| <= last && u == q.inflight[|q.inflight| - |u|..]
            && |u| == (if High(q.frames) <= last - |q.inflight| then |q.inflight| else last - High(q.frames))
            && (forall i :: 0 <= i < |u| ==> u[i].num == last + 1 - |u| + i && !u[i].sent)
  {
    UnsentSuffix(q.inflight, last, High(q.frames));
    HighBelow(q, last);
    hide Unsent;
  }

  lemma HighBelow(q: Buffer, last: nat)
    requires Shape(q, last)
    ensures High(q.frames) <= last
  {
  }

  function Step(flat: Flat, st: State, e: Event): State
    requires Shape(st.s.queue, st.s.lastAssigned)
  {
    match e
    case EDialBegin => DialBegin(st)
    case EDialInstall(gen) => DialInstall(st, gen)
    case EDialAbandon(gen) => DialAbandon(st, gen)
    case EResumeOk(uid, ack) => ResumeOk(st, uid, ack)
    case ETrackStarted(uid) => TrackStarted(st, uid)
    case ETrackStopped(uid) => TrackStopped(st, uid)
    case EAck(num) => Ack(st, num)
    case EError(code) => ErrorEvent(st, code)
    case ESocketClosed(gen, canReconnect) => SocketClosed(st, gen, canReconnect)
    case EAuthDenied => AuthDenied(st)
    case EAuthRefreshed => AuthRefreshed(st)
    case EAuthRefreshFailed => AuthRefreshFailed(st)
    case EClose => CloseLocked(st)
    case EStartBegin => StartBegin(st)
    case EStartFailed => StartFailed(st)
    case EAutoStart => AutoStart(st)
    case EAutoStartFailed => AutoStartFailed(st)
    case EManualResume(uid, last) => ManualResume(st, uid, last)
    case EResumePrepare => ResumePrepare(st)
    case EResumeFailed => ResumeFailed(st)
    case EStopWait(waiting) => StopWait(st, waiting)
    case EPublish(point) => Publish(st, flat, point)
    case EFlush => PickedHasRoom(st.s); FlushPass(st)
    case EHandOver(bytes, alive) => HandOver(st, bytes, alive)
  }

  // ---- Delivery, event by event ----

  /** Shrinking InFlight, or moving to a new epoch with nothing in flight, loses no agreement. */
  lemma DeliveryShrinks(st: State, st': State)
    requires Delivery(st)
    requires Shape(st'.s.queue, st'.s.lastAssigned) && st'.s.lastAssigned < TWO32
    requires st'.log.names == st.log.names && st'.log.built == st.log.built && st'.log.sessionStart <= |st.log.built|
    requires st'.log.epoch >= st.log.epoch
    requires if st'.log.epoch == st.log.epoch
             then st'.s.lastAssigned >= st.s.lastAssigned
                  && |st'.s.queue.inflight| <= |st.s.queue.inflight|
                  && forall k :: 0 <= k < |st'.s.queue.inflight| ==>
                       var o := st.s.queue.inflight[|st.s.queue.inflight| - |st'.s.queue.inflight| + k];
                       st'.s.queue.inflight[k].num == o.num && st'.s.queue.inflight[k].sample == o.sample
             else st'.s.queue.inflight == []
    ensures Delivery(st')
  {
    hide Shape, Agrees;
  }

  lemma EmptyShape(q: Buffer, last: nat, last': nat)
    requires Shape(q, last) && q.inflight == []
    ensures Shape(q, last') && Shape(Cleared(q), last')
  {
  }

  lemma ClearedShape(q: Buffer, last: nat, last': nat)
    requires Shape(q, last)
    ensures Shape(Cleared(q), last')
  {
  }

  lemma DropTrackDelivery(st: State)
    requires Delivery(st)
    ensures Delivery(DropTrack(st))
  {
    ClearedShape(st.s.queue, st.s.lastAssigned, st.s.lastAssigned);
    DeliveryShrinks(st, DropTrack(st));
  }

  lemma FreshTrackDelivery(st: State)
    requires Delivery(st)
    ensures Delivery(FreshTrack(st))
  {
    ClearedShape(st.s.queue, st.s.lastAssigned, 0);
    DeliveryShrinks(st, FreshTrack(st));
  }

  lemma ErrorDelivery(st: State, code: T.ErrorCode)
    requires Delivery(st)
    ensures Delivery(ErrorEvent(st, code))
  {
    hide Shape, Labelled, NamesBelow, AllAgree;
    var a := if st.s.resumeWait && T.FatalResumeError(code) then DropTrack(st) else st;
    DropTrackDelivery(st);
    var b := a.(s := a.s.(resumeWait := false));
    var c := if b.s.startWait then b.(s := b.s.(starting := false, startWait := false)) else b;
    var d := c.(s := c.s.(stopWait := false));
    assert Delivery(d);
    DropTrackDelivery(d);
  }

  lemma AckDelivery(st: State, ack: nat)
    requires Delivery(st) && ack < TWO32
    ensures Delivery(Ack(st, ack))
  {
    AckKeepsShape(st.s.queue, st.s.lastAssigned, ack);
    hide AckThrough, Shape, Held, Labelled, NamesBelow, AllAgree;
    DeliveryShrinks(st, Ack(st, ack));
  }

  lemma ResumeOkDelivery(st: State, uid: Uid, ack: nat)
    requires Delivery(st) && ack < TWO32
    ensures Delivery(ResumeOk(st, uid, ack))
  {
    AckKeepsShape(st.s.queue, st.s.lastAssigned, ack);
    hide AckThrough, Shape, Held, Labelled, NamesBelow, AllAgree;
    DeliveryShrinks(st, ResumeOk(st, uid, ack));
  }

  lemma SocketClosedDelivery(st: State, gen: nat, canReconnect: bool)
    requires Delivery(st)
    ensures Delivery(SocketClosed(st, gen, canReconnect))
  {
    MarkUnsentKeepsShape(st.s.queue, st.s.lastAssigned);
    hide Shape, Labelled, NamesBelow, AllAgree, Exhausted;
    DeliveryShrinks(st, SocketClosed(st, gen, canReconnect));
  }

  lemma ManualResumeDelivery(st: State, uid: Uid, last: nat)
    requires Delivery(st) && ResumesCleanly(st.s, last)
    ensures Delivery(ManualResume(st, uid, last))
  {
    if st.s.queue.inflight == [] {
      EmptyShape(st.s.queue, st.s.lastAssigned, last);
    }
    hide Shape;
    DeliveryShrinks(st, ManualResume(st, uid, last));
  }

  lemma PublishDelivery(flat: Flat, st: State, point: LatLng)
    requires Delivery(st) && Room(st.s)
    ensures Delivery(Publish(st, flat, point))
    ensures Extends(st.log.names, Publish(st, flat, point).log.names)
  {
    hide Delivery, PublishLive, PublishStaged;
    if Live(st.s) {
      LiveDelivery(flat, st, point);
    } else {
      StagedDelivery(flat, st, point);
    }
  }

  lemma StagedDelivery(flat: Flat, st: State, point: LatLng)
    requires Delivery(st)
    ensures Delivery(PublishStaged(st, flat, point))
    ensures PublishStaged(st, flat, point).log.names == st.log.names
  {
    PushStagingKeepsShape(flat, st.s.queue, st.s.lastAssigned, Sample(st.log.emitted, point));
    hide Shape, PushStaging, Held, Labelled, NamesBelow, AllAgree;
    DeliveryShrinks(st, PublishStaged(st, flat, point));
  }

  lemma LiveDelivery(flat: Flat, st: State, point: LatLng)
    requires Delivery(st) && Room(st.s) && !WindowFull(st.s.queue)
    ensures Delivery(PublishLive(st, flat, point))
    ensures Extends(st.log.names, PublishLive(st, flat, point).log.names)
  {
    hide Enqueue, Shape, Agrees, Held, SingleBytes, Labelled, RecordFrame, AllAgree, FixOf, WindowFull;
    var s, log, st' := st.s, st.log, PublishLive(st, flat, point);
    var sample, num := Sample(log.emitted, point), s.lastAssigned + 1;
    var names' := log.names[Name(log.epoch, num) := sample];
    LiveKeepsShape(flat, s.queue, s.lastAssigned, sample);
    LiveLabelled(flat, st, num, sample);
    SingleAgrees(names', log.epoch, s.trackUid, num, point);
    assert NamesBelow(names', log.epoch, num);
    AllAgreeExtends(log.names, st'.log.names, log.built);
    AllAgreeNext(st'.log.names, log.built, st'.log.built[|log.built|]);
  }

  lemma LiveLabelled(flat: Flat, st: State, num: nat, sample: Sample)
    requires Delivery(st) && num == st.s.lastAssigned + 1
    ensures var names' := st.log.names[Name(st.log.epoch, num) := sample];
            && Extends(st.log.names, names')
            && Labelled(RecordFrame(Enqueue(flat, st.s.queue, num, sample), num).inflight, st.log.epoch, names')
  {
    var names' := st.log.names[Name(st.log.epoch, num) := sample];
    var p := st.s.queue.(inflight := st.s.queue.inflight + [Queued(num, sample, true)]);
    var q := Enqueue(flat, st.s.queue, num, sample);
    CapKeepsNewest(flat, p);
    LabelledNext(st.s.queue.inflight, Queued(num, sample, true), st.log.epoch, st.log.names);
    hide EnforceCap, Shape, Subsequence, AllAgree, Labelled, RecordFrame;
    SuffixLabelled(p.inflight, |p.inflight| - |q.inflight|, st.log.epoch, names');
    RecordLabelled(q, num, st.log.epoch, names');
  }

  lemma AllAgreeNext(names: map<Name, Sample>, built: seq<Built>, b: Built)
    requires AllAgree(names, built) && Agrees(names, b)
    ensures AllAgree(names, built + [b])
  {
    hide Agrees;
  }

  lemma SuffixLabelled(qs: seq<Queued>, d: nat, epoch: nat, names: map<Name, Sample>)
    requires d <= |qs| && Labelled(qs, epoch, names)
    ensures Labelled(qs[d..], epoch, names)
  {
  }

  lemma RecordLabelled(q: Buffer, num: nat, epoch: nat, names: map<Name, Sample>)
    requires Labelled(q.inflight, epoch, names)
    ensures Labelled(RecordFrame(q, num).inflight, epoch, names)
  {
  }

  lemma LabelledNext(qs: seq<Queued>, q: Queued, epoch: nat, names: map<Name, Sample>)
    requires Labelled(qs, epoch, names) && Name(epoch, q.num) !in names
    ensures Labelled(qs + [q], epoch, names[Name(epoch, q.num) := q.sample])
    ensures Extends(names, names[Name(epoch, q.num) := q.sample])
  {
  }

  lemma SingleAgrees(names: map<Name, Sample>, epoch: nat, track: Uid, num: nat, point: LatLng)
    requires 1 <= num < TWO32 && Name(epoch, num) in names && names[Name(epoch, num)].point == point
    ensures Agrees(names, Built(epoch, track, num, 1, true, SingleBytes(num, FixOf(point, true))))
  {
    var b := Built(epoch, track, num, 1, true, SingleBytes(num, FixOf(point, true)));
    hide LocBytes, FixOf;
    assert num % TWO32 == num;
    assert Covered(names, b) by {
      forall n | b.last - b.count < n <= b.last ensures Name(epoch, n) in names {
        assert n == num;
      }
    }
    var f := FixOf(point, true);
    assert Linked([f], None);
    hide Linked;
    assert Payload(names, b) == [f];
  }

  // ---- The flush pass ----

  lemma {:induction false} NewNamesAre(epoch: nat, qs: seq<Queued>, first: nat)
    requires Block(qs, first)
    ensures Labelled(qs, epoch, NewNames(epoch, qs))
    ensures forall n :: n in NewNames(epoch, qs) ==> n.epoch == epoch && first <= n.num < first + |qs|
    decreases qs
  {
    if qs != [] {
      var init, q := qs[..|qs| - 1], qs[|qs| - 1];
      NewNamesAre(epoch, init, first);
      assert q.num == first + |init|;
      LabelledNext(init, q, epoch, NewNames(epoch, init));
      assert qs == init + [q];
    }
  }

  /** After the names of the pass are in place, everything in flight is labelled. */
  ghost predicate ClaimLabelled(st: State, names': map<Name, Sample>) {
    && Extends(st.log.names, names')
    && Labelled(Picked(st.s), st.log.epoch, names')
    && Labelled(Claimed(st.s).queue.inflight, st.log.epoch, names')
    && NamesBelow(names', st.log.epoch, Claimed(st.s).lastAssigned)
  }

  lemma ClaimedLabelled(st: State)
    requires Delivery(st) && Picked(st.s) != []
    ensures ClaimLabelled(st, st.log.names + NewNames(st.log.epoch, Picked(st.s)))
  {
    hide ClaimLabelled;
    if Unsent(st.s.queue.inflight) != [] {
      UnsentLabelled(st);
    } else {
      StagedLabelled(st);
    }
  }

  lemma UnsentLabelled(st: State)
    requires Delivery(st) && Unsent(st.s.queue.inflight) != []
    ensures ClaimLabelled(st, st.log.names + NewNames(st.log.epoch, Picked(st.s)))
  {
    assert Shape(st.s.queue, st.s.lastAssigned);
    hide NewNames, Unsent, Shape, AllAgree, Picked, Claimed, FirstNum, NamesBelow, Labelled, Block, HasRoom;
    var inflight, u := st.s.queue.inflight, Unsent(st.s.queue.inflight);
    UnsentIsSuffix(st.s.queue, st.s.lastAssigned);
    PickedCases(st.s);
    LastBlock(u, st.s.lastAssigned);
    SuffixNamesKnown(st.log.epoch, inflight, |inflight| - |u|, FirstNum(u), st.log.names);
    SuffixLabelled(inflight, |inflight| - |u|, st.log.epoch, st.log.names);
  }

  lemma PickedCases(s: Session)
    ensures Unsent(s.queue.inflight) != [] ==> Picked(s) == Unsent(s.queue.inflight) && Claimed(s) == s
    ensures Unsent(s.queue.inflight) == [] ==>
              && Picked(s) == Number(s.queue.staging[..Take(s)], s.lastAssigned)
              && Claimed(s).lastAssigned == s.lastAssigned + Take(s)
              && Claimed(s).queue.inflight == s.queue.inflight + Picked(s)
              && Claimed(s).queue == Assign(s.queue, Take(s), s.lastAssigned)
  {
    hide Unsent, Take;
  }

  lemma StagedLabelled(st: State)
    requires Delivery(st) && Unsent(st.s.queue.inflight) == [] && Picked(st.s) != []
    ensures ClaimLabelled(st, st.log.names + NewNames(st.log.epoch, Picked(st.s)))
  {
    var s, names, epoch := st.s, st.log.names, st.log.epoch;
    PickedCases(s);
    NumberBlock(s.queue.staging[..Take(s)], s.lastAssigned);
    hide Picked, Claimed, Number, Unsent, Take, Shape, AllAgree, NewNames;
    NewNamesBeyond(epoch, Picked(s), s.lastAssigned, names);
    LabelledConcat(s.queue.inflight, Picked(s), epoch, names + NewNames(epoch, Picked(s)));
  }

  lemma NumberBlock(ss: seq<Sample>, last: nat)
    ensures Block(Number(ss, last), last + 1)
  {
  }

  lemma LabelledConcat(x: seq<Queued>, y: seq<Queued>, epoch: nat, names: map<Name, Sample>)
    requires Labelled(x, epoch, names) && Labelled(y, epoch, names)
    ensures Labelled(x + y, epoch, names)
  {
  }

  /** Names past the counter are fresh. */
  lemma NewNamesBeyond(epoch: nat, qs: seq<Queued>, last: nat, names: map<Name, Sample>)
    requires Block(qs, last + 1) && NamesBelow(names, epoch, last)
    ensures var names' := names + NewNames(epoch, qs);
            && Extends(names, names') && Labelled(qs, epoch, names') && NamesBelow(names', epoch, last + |qs|)
            && (forall held :: Labelled(held, epoch, names) ==> Labelled(held, epoch, names'))
  {
    NewNamesAre(epoch, qs, last + 1);
    NewNamesLabel(epoch, qs, last + 1, names);
    hide NewNames;
    var names' := names + NewNames(epoch, qs);
    forall held | Labelled(held, epoch, names) ensures Labelled(held, epoch, names') {
    }
  }

  lemma NewNamesLabel(epoch: nat, qs: seq<Queued>, first: nat, names: map<Name, Sample>)
    requires Block(qs, first)
    ensures Labelled(qs, epoch, names + NewNames(epoch, qs))
  {
    NewNamesAre(epoch, qs, first);
    hide NewNames;
  }

  /** Naming what is already named changes nothing. */
  lemma SuffixNamesKnown(epoch: nat, inflight: seq<Queued>, d: nat, first: nat, names: map<Name, Sample>)
    requires d <= |inflight| && Labelled(inflight, epoch, names) && Block(inflight[d..], first)
    ensures names + NewNames(epoch, inflight[d..]) == names
  {
    var add := NewNames(epoch, inflight[d..]);
    NewNamesAre(epoch, inflight[d..], first);
    hide NewNames;
    forall n | n in add ensures n in names && names[n] == add[n] {
      var k := n.num - first;
      assert inflight[d..][k] == inflight[d + k];
      assert n == Name(epoch, inflight[d + k].num);
    }
  }

  /** Every piece of a picked block says what its numbers name. */
  lemma {:induction false} PiecesAgree(names: map<Name, Sample>, epoch: nat, track: Uid, pieces: seq<Piece>, next: nat, src: seq<Queued>)
    requires Chained(pieces, next) && next >= 1 && next + |src| <= TWO32
    requires Block(src, next) && Labelled(src, epoch, names)
    requires |Joined(pieces)| <= |src| && Joined(pieces) == Fixes(src)[..|Joined(pieces)|]
    ensures AllAgree(names, BuiltFrom(epoch, track, pieces, next))
    decreases pieces
  {
    if pieces != [] {
      var p, rest := pieces[0], pieces[1..];
      var n := |p.fixes|;
      var tail := src[n..];
      FixesSplit(pieces, src);
      BlockTail(src, next, n, epoch, names);
      hide PieceOk, PieceBytes, Agrees, Labelled, Block, Fixes;
      PiecesAgree(names, epoch, track, rest, p.num + 1, tail);
      HeadAgrees(names, epoch, track, p, next, src);
      AllAgreeCons(names, Built(epoch, track, p.num, n, false, PieceBytes(p)), BuiltFrom(epoch, track, rest, p.num + 1));
    }
  }

  lemma FixesSplit(pieces: seq<Piece>, src: seq<Queued>)
    requires pieces != [] && |Joined(pieces)| <= |src| && Joined(pieces) == Fixes(src)[..|Joined(pieces)|]
    ensures var p, rest := pieces[0].fixes, Joined(pieces[1..]);
            && |p| <= |src| && p == Fixes(src)[..|p|]
            && |rest| <= |src[|p|..]| && rest == Fixes(src[|p|..])[..|rest|]
  {
    var p, rest := pieces[0].fixes, Joined(pieces[1..]);
    assert Joined(pieces) == p + rest;
    hide Joined;
    assert p == Joined(pieces)[..|p|] && rest == Joined(pieces)[|p|..];
    assert Fixes(src[|p|..]) == Fixes(src)[|p|..];
  }

  lemma BlockTail(src: seq<Queued>, next: nat, n: nat, epoch: nat, names: map<Name, Sample>)
    requires n <= |src| && Block(src, next) && Labelled(src, epoch, names)
    ensures Block(src[n..], next + n) && Labelled(src[n..], epoch, names)
  {
  }

  lemma AllAgreeCons(names: map<Name, Sample>, b: Built, bs: seq<Built>)
    requires Agrees(names, b) && AllAgree(names, bs)
    ensures AllAgree(names, [b] + bs)
  {
    hide Agrees;
  }

  lemma HeadAgrees(names: map<Name, Sample>, epoch: nat, track: Uid, p: Piece, next: nat, src: seq<Queued>)
    requires PieceOk(p) && p.num + 1 == next + |p.fixes| && next >= 1 && next + |src| <= TWO32
    requires Block(src, next) && Labelled(src, epoch, names)
    requires |p.fixes| <= |src| && p.fixes == Fixes(src)[..|p.fixes|]
    ensures Agrees(names, Built(epoch, track, p.num, |p.fixes|, false, PieceBytes(p)))
  {
    hide Linked, LocBytes, Block, Labelled, Fixes, FixOf;
    var b := Built(epoch, track, p.num, |p.fixes|, false, PieceBytes(p));
    assert p.num % TWO32 == p.num;
    BlockNamed(names, epoch, next, src, b);
    SameFixes(Payload(names, b), Fixes(src), p.fixes);
  }

  lemma SameFixes(x: seq<Fix>, all: seq<Fix>, y: seq<Fix>)
    requires |x| == |y| <= |all| && y == all[..|y|] && forall j :: 0 <= j < |x| ==> x[j] == all[j]
    ensures x == y
  {
  }

  /** Numbers of a labelled block name the points of the block. */
  lemma BlockNamed(names: map<Name, Sample>, epoch: nat, next: nat, src: seq<Queued>, b: Built)
    requires Block(src, next) && Labelled(src, epoch, names)
    requires b.epoch == epoch && 1 <= b.count <= |src| && b.last + 1 == next + b.count
    ensures forall n :: b.last - b.count < n <= b.last ==> Name(epoch, n) in names
    ensures forall j :: 0 <= j < b.count ==> FixOf(names[Name(epoch, b.last - b.count + 1 + j)].point, false) == Fixes(src)[j]
  {
    forall n | b.last - b.count < n <= b.last ensures Name(epoch, n) in names {
      assert src[n - next].num == n;
    }
    forall j | 0 <= j < b.count ensures FixOf(names[Name(epoch, b.last - b.count + 1 + j)].point, false) == Fixes(src)[j] {
      assert src[j].num == b.last - b.count + 1 + j;
    }
  }

  /** Recording chained pieces of the unsent block keeps the shape and fills the window one by one. */
  lemma {:induction false} RecordAllKeepsShape(q: Buffer, last: nat, pieces: seq<Piece>, next: nat)
    requires Shape(q, last) && last < TWO32 && Chained(pieces, next)
    requires |pieces| <= WindowRemaining(q) && High(q.frames) < next && next + |Joined(pieces)| <= last + 1
    requires pieces != [] ==> q.inflight != []
    ensures var r := RecordAll(q, pieces);
            && Shape(r, last)
            && r.staging == q.staging && |r.inflight| == |q.inflight|
            && (forall k :: 0 <= k < |q.inflight| ==> r.inflight[k].num == q.inflight[k].num && r.inflight[k].sample == q.inflight[k].sample)
            && |r.frames| == |q.frames| + |pieces|
            && High(r.frames) == if pieces == [] then High(q.frames) else next + |Joined(pieces)| - 1
    decreases pieces
  {
    if pieces != [] {
      var p := pieces[0];
      assert p.num % TWO32 == p.num;
      RecordKeepsShape(q, last, p.num);
      var r := RecordFrame(q, p.num);
      hide Shape;
      assert |Joined(pieces)| == |p.fixes| + |Joined(pieces[1..])|;
      RecordAllKeepsShape(r, last, pieces[1..], p.num + 1);
      if |pieces| > 1 {
        assert pieces[1..] != [];
      } else {
        assert pieces[1..] == [] && Joined(pieces[1..]) == [];
      }
    }
  }

  /** A pass that does something sends consecutive pieces of its block, past every earlier frame. */
  ghost predicate PassOk(s: Session)
    requires HasRoom(Picked(s)) && Picked(s) != []
  {
    var first, pieces, c := FirstNum(Picked(s)), Sending(s), Claimed(s);
    && Chained(pieces, first) && pieces != []
    && |Joined(pieces)| <= |Picked(s)| && Joined(pieces) == Fixes(Picked(s))[..|Joined(pieces)|]
    && |pieces| <= WindowRemaining(s.queue)
  }

  lemma PassSends(s: Session)
    requires Picked(s) != [] && HasRoom(Picked(s)) && WindowRemaining(s.queue) > 0
    ensures PassOk(s)
  {
    SendingChained(s);
    hide Pieces, Chained, Joined, Picked, Fixes;
  }

  ghost predicate ClaimOk(s: Session)
    requires HasRoom(Picked(s)) && Picked(s) != []
  {
    var c := Claimed(s);
    && Shape(c.queue, c.lastAssigned)
    && c.queue.frames == s.queue.frames && c.queue.inflight != []
    && High(c.queue.frames) < FirstNum(Picked(s))
  }

  lemma PassClaims(s: Session)
    requires Shape(s.queue, s.lastAssigned) && Picked(s) != []
    ensures PickedOk(s) && ClaimOk(s)
  {
    PickedHasRoom(s);
    PickedCases(s);
    UnsentIsSuffix(s.queue, s.lastAssigned);
    HighBelow(s.queue, s.lastAssigned);
    AssignKeepsShape(s.queue, Take(s), s.lastAssigned);
    hide Unsent, Shape, Picked, Claimed, Take, Number, Block;
    if Unsent(s.queue.inflight) == [] {
      assert FirstNum(Picked(s)) == s.lastAssigned + 1;
    }
  }

  lemma FlushDelivery(st: State)
    requires Delivery(st) && Room(st.s)
    ensures HasRoom(Picked(st.s)) && Delivery(FlushPass(st))
    ensures Extends(st.log.names, FlushPass(st).log.names)
  {
    PickedHasRoom(st.s);
    if !FlushIdle(st.s) {
      var s, log, st' := st.s, st.log, FlushPass(st);
      var first, pieces, c := FirstNum(Picked(s)), Sending(s), Claimed(s);
      PassSends(s);
      PassClaims(s);
      ClaimedLabelled(st);
      RoomClaimed(s);
      RecordAllKeepsShape(c.queue, c.lastAssigned, pieces, first);
      PiecesAgree(st'.log.names, log.epoch, s.trackUid, pieces, first, Picked(s));
      hide Sending, Picked, Claimed, Shape, RecordAll, NewNames, Agrees, BuiltFrom, AllAgree, Labelled, NamesBelow, CanSend, FirstNum;
      AllAgreeExtends(log.names, st'.log.names, log.built);
      AllAgreeConcat(st'.log.names, log.built, BuiltFrom(log.epoch, s.trackUid, pieces, first));
      RecordAllLabelled(c.queue, st'.s.queue, log.epoch, st'.log.names);
    }
  }

  lemma AllAgreeConcat(names: map<Name, Sample>, x: seq<Built>, y: seq<Built>)
    requires AllAgree(names, x) && AllAgree(names, y)
    ensures AllAgree(names, x + y)
  {
    hide Agrees;
  }

  lemma RecordAllLabelled(q: Buffer, r: Buffer, epoch: nat, names: map<Name, Sample>)
    requires Labelled(q.inflight, epoch, names) && |r.inflight| == |q.inflight|
    requires forall k :: 0 <= k < |q.inflight| ==> r.inflight[k].num == q.inflight[k].num && r.inflight[k].sample == q.inflight[k].sample
    ensures Labelled(r.inflight, epoch, names)
  {
  }

  lemma RoomClaimed(s: Session)
    requires Room(s)
    ensures Claimed(s).lastAssigned < TWO32
  {
    hide Unsent;
  }

  // ---- Conservation ----

  lemma IdsConcat(x: seq<Queued>, y: seq<Queued>)
    ensures QueuedIds(x + y) == QueuedIds(x) + QueuedIds(y)
  {
  }

  lemma SampleIdsConcat(x: seq<Sample>, y: seq<Sample>)
    ensures SampleIds(x + y) == SampleIds(x) + SampleIds(y)
  {
  }

  lemma HeldSuffix(q: Buffer, r: Buffer)
    requires r.staging == q.staging && |r.inflight| <= |q.inflight|
    requires r.inflight == q.inflight[|q.inflight| - |r.inflight|..]
    ensures Held(r) <= Held(q)
  {
    var d := |q.inflight| - |r.inflight|;
    assert q.inflight == q.inflight[..d] + r.inflight;
    IdsConcat(q.inflight[..d], r.inflight);
  }

  lemma HeldDropOne(flat: Flat, q: Buffer)
    requires Size(q) > 0
    ensures Held(DropOne(flat, q)) <= Held(q)
  {
    var r := DropOne(flat, q);
    var k := FirstFlat(flat, q.staging, 1);
    if q.staging == [] {
      HeldSuffix(q, r);
    } else {
      var i := if k < |q.staging| then k else 0;
      var a, x, b := q.staging[..i], [q.staging[i]], q.staging[i + 1..];
      assert r.staging == a + b;
      assert q.staging == a + (x + b);
      SampleIdsConcat(a, b);
      SampleIdsConcat(a, x + b);
      SampleIdsConcat(x, b);
    }
  }

  lemma {:induction false} HeldCap(flat: Flat, q: Buffer)
    ensures Held(EnforceCap(flat, q)) <= Held(q)
    decreases Size(q)
  {
    if Size(q) > q.cap {
      HeldDropOne(flat, q);
      HeldCap(flat, DropOne(flat, q));
      hide DropOne, Held;
    }
  }

  lemma HeldRecord(q: Buffer, num: nat)
    ensures Held(RecordFrame(q, num)) == Held(q)
  {
    assert QueuedIds(RecordFrame(q, num).inflight) == QueuedIds(q.inflight);
  }

  lemma {:induction false} HeldRecordAll(q: Buffer, pieces: seq<Piece>)
    ensures Held(RecordAll(q, pieces)) == Held(q)
    decreases pieces
  {
    if pieces != [] {
      HeldRecord(q, pieces[0].num % TWO32);
      HeldRecordAll(RecordFrame(q, pieces[0].num % TWO32), pieces[1..]);
      hide Held, RecordFrame;
    }
  }

  lemma HeldAssign(q: Buffer, n: nat, last: nat)
    requires n <= |q.staging|
    ensures Held(Assign(q, n, last)) == Held(q)
  {
    var add := Number(q.staging[..n], last);
    IdsConcat(q.inflight, add);
    assert q.staging == q.staging[..n] + q.staging[n..];
    SampleIdsConcat(q.staging[..n], q.staging[n..]);
    assert QueuedIds(add) == SampleIds(q.staging[..n]);
  }

  lemma HeldMarkUnsent(q: Buffer)
    ensures Held(MarkUnsent(q)) == Held(q)
  {
    assert QueuedIds(MarkUnsent(q).inflight) == QueuedIds(q.inflight);
  }

  lemma HeldCleared(q: Buffer)
    ensures Held(Cleared(q)) == multiset{}
  {
  }

  lemma HeldFlush(st: State)
    requires HasRoom(Picked(st.s))
    ensures Held(FlushPass(st).s.queue) == Held(st.s.queue)
  {
    if !FlushIdle(st.s) {
      PickedCases(st.s);
      HeldAssign(st.s.queue, Take(st.s), st.s.lastAssigned);
      HeldRecordAll(Claimed(st.s).queue, Sending(st.s));
      hide Held, Picked, Assign, RecordAll, Sending, NewNames, BuiltFrom;
    }
  }

  lemma HeldEnqueue(flat: Flat, q: Buffer, num: nat, s: Sample)
    ensures Held(Enqueue(flat, q, num, s)) <= Held(q) + multiset{s.id}
  {
    var p := q.(inflight := q.inflight + [Queued(num, s, true)]);
    IdsConcat(q.inflight, [Queued(num, s, true)]);
    assert QueuedIds([Queued(num, s, true)]) == [s.id];
    HeldCap(flat, p);
  }

  lemma HeldPush(flat: Flat, q: Buffer, s: Sample)
    ensures Held(PushStaging(flat, q, s)) <= Held(q) + multiset{s.id}
  {
    var p := q.(staging := q.staging + [s]);
    SampleIdsConcat(q.staging, [s]);
    assert SampleIds([s]) == [s.id];
    HeldCap(flat, p);
  }

  lemma Move(h: multiset<nat>, h': multiset<nat>, a: multiset<nat>, e: multiset<nat>, d: multiset<nat>, m: multiset<nat>, x: multiset<nat>)
    requires h + a + e + d == m && h' <= h + x
    ensures h' + a + (e + (h + x - h')) + d == m + x
  {
  }

  lemma ConservedAfter(st: State, st': State, h: multiset<nat>)
    requires Conserved(st) && h <= Held(st.s.queue) + multiset{st.log.emitted}
    requires Held(st'.s.queue) == h && st'.log.emitted == st.log.emitted + 1
    requires st'.log.acked == st.log.acked && st'.log.discarded == st.log.discarded
    requires st'.log.evicted == st.log.evicted + (Held(st.s.queue) + multiset{st.log.emitted} - h)
    ensures Conserved(st')
  {
    Move(Held(st.s.queue), h, st.log.acked, st.log.evicted, st.log.discarded, Emitted(st.log.emitted), multiset{st.log.emitted});
  }

  lemma ConservedPublish(flat: Flat, st: State, point: LatLng)
    requires Conserved(st)
    ensures Conserved(Publish(st, flat, point))
  {
    var sample, num := Sample(st.log.emitted, point), st.s.lastAssigned + 1;
    hide Conserved, Held, PushStaging, Enqueue, RecordFrame, SingleBytes, FixOf, Live;
    if Live(st.s) {
      var q := Enqueue(flat, st.s.queue, num, sample);
      HeldEnqueue(flat, st.s.queue, num, sample);
      HeldRecord(q, num);
      ConservedAfter(st, PublishLive(st, flat, point), Held(q));
    } else {
      var q := PushStaging(flat, st.s.queue, sample);
      HeldPush(flat, st.s.queue, sample);
      ConservedAfter(st, PublishStaged(st, flat, point), Held(q));
    }
  }

  lemma ConservedDrop(st: State)
    requires Conserved(st)
    ensures Conserved(DropTrack(st)) && Conserved(FreshTrack(st))
  {
    HeldCleared(st.s.queue);
    hide Held, Cleared;
  }

  lemma ConservedError(st: State, code: T.ErrorCode)
    requires Conserved(st)
    ensures Conserved(ErrorEvent(st, code))
  {
    hide Held, Cleared, Emitted;
    ConservedDrop(st);
    var a := if st.s.resumeWait && T.FatalResumeError(code) then DropTrack(st) else st;
    var b := a.(s := a.s.(resumeWait := false));
    var c := if b.s.startWait then b.(s := b.s.(starting := false, startWait := false)) else b;
    ConservedDrop(c.(s := c.s.(stopWait := false)));
  }

  lemma ConservedAck(st: State, ack: nat)
    requires Conserved(st) && Delivery(st) && ack < TWO32
    ensures Conserved(Ack(st, ack)) && forall uid :: Conserved(ResumeOk(st, uid, ack))
  {
    AckKeepsShape(st.s.queue, st.s.lastAssigned, ack);
    HeldSuffix(st.s.queue, AckThrough(st.s.queue, ack));
    hide Held, AckThrough, Shape;
  }

  lemma ConservedStep(flat: Flat, st: State, e: Event)
    requires Delivery(st) && Conserved(st)
    ensures Conserved(Step(flat, st, e))
  {
    assert Shape(st.s.queue, st.s.lastAssigned);
    if Quiet(e) {
      ConservedQuiet(flat, st, e);
    } else if e.EAck? || e.EResumeOk? || e.EPublish? || e.EFlush? {
      ConservedPoints(flat, st, e);
    } else {
      hide Delivery, Step;
      ConservedTrack(flat, st, e);
    }
  }

  lemma ConservedPoints(flat: Flat, st: State, e: Event)
    requires Delivery(st) && Shape(st.s.queue, st.s.lastAssigned) && Conserved(st) && (e.EAck? || e.EResumeOk? || e.EPublish? || e.EFlush?)
    ensures Conserved(Step(flat, st, e))
  {
    hide Conserved, Held, Delivery, FlushPass, Publish, Shape, Ack, ResumeOk;
    if e.EAck? {
      ConservedAck(st, e.num);
    } else if e.EResumeOk? {
      ConservedAck(st, e.ack);
    } else if e.EPublish? {
      ConservedPublish(flat, st, e.point);
    } else {
      ConservedFlush(st);
    }
  }

  /** Events that start, end or move a track, or lose the socket. */
  lemma ConservedTrack(flat: Flat, st: State, e: Event)
    requires Shape(st.s.queue, st.s.lastAssigned) && Conserved(st)
    requires !Quiet(e) && !e.EAck? && !e.EResumeOk? && !e.EPublish? && !e.EFlush?
    ensures Conserved(Step(flat, st, e))
  {
    hide Conserved, Held, FlushPass, Publish, ErrorEvent, SocketClosed, Shape, DropTrack, FreshTrack, TrackStopped, Ack, ResumeOk;
    if e.EError? {
      ConservedError(st, e.code);
    } else if e.ESocketClosed? {
      ConservedClosed(st, e.gen, e.canReconnect);
    } else if e.ETrackStopped? {
      ConservedStopped(st, e.uid);
    } else if e.EStartBegin? || e.EAutoStart? {
      ConservedDrop(st);
      ConservedSame(FreshTrack(st), StartBegin(st));
    } else {
      ConservedSame(st, Step(flat, st, e));
    }
  }

  lemma ConservedStopped(st: State, uid: Uid)
    requires Conserved(st)
    ensures Conserved(TrackStopped(st, uid))
  {
    ConservedDrop(st);
    hide Conserved, DropTrack;
    ConservedSame(if st.s.trackUid == uid then DropTrack(st) else st, TrackStopped(st, uid));
  }

  /** The other events leave the queue alone. */
  lemma ConservedQuiet(flat: Flat, st: State, e: Event)
    requires Shape(st.s.queue, st.s.lastAssigned) && Conserved(st) && Quiet(e)
    ensures Conserved(Step(flat, st, e))
  {
    hide Shape, Conserved, Step, Quiet;
    QuietLeaves(flat, st, e);
    ConservedSame(st, Step(flat, st, e));
  }

  lemma ConservedSame(st: State, st': State)
    requires Conserved(st) && st'.s.queue == st.s.queue && st'.log.emitted == st.log.emitted
    requires st'.log.acked == st.log.acked && st'.log.evicted == st.log.evicted && st'.log.discarded == st.log.discarded
    ensures Conserved(st')
  {
  }

  lemma ConservedClosed(st: State, gen: nat, canReconnect: bool)
    requires Conserved(st)
    ensures Conserved(SocketClosed(st, gen, canReconnect))
  {
    HeldMarkUnsent(st.s.queue);
    hide Held, MarkUnsent, Emitted;
  }

  lemma ConservedFlush(st: State)
    requires Shape(st.s.queue, st.s.lastAssigned) && Conserved(st)
    ensures PickedOk(st.s) && Conserved(FlushPass(st))
  {
    PickedHasRoom(st.s);
    HeldFlush(st);
    hide Held, Picked, RecordAll, Sending, NewNames, BuiltFrom, Claimed, Emitted, Shape;
  }

  lemma {:induction false} EmittedOnce(n: nat, id: nat)
    ensures Emitted(n)[id] == if id < n then 1 else 0
  {
    if n > 0 {
      EmittedOnce(n - 1, id);
    }
  }

  /** Conservation, said per point: each emitted point is in exactly one place, exactly once. */
  lemma ExactlyOnePlace(st: State, id: nat)
    requires Conserved(st)
    ensures Held(st.s.queue)[id] + st.log.acked[id] + st.log.evicted[id] + st.log.discarded[id]
            == if id < st.log.emitted then 1 else 0
  {
    EmittedOnce(st.log.emitted, id);
    var all := Held(st.s.queue) + st.log.acked + st.log.evicted + st.log.discarded;
    assert all[id] == Emitted(st.log.emitted)[id];
  }

  // ---- Generations ----

  lemma GenerationsStep(flat: Flat, st: State, e: Event)
    requires Shape(st.s.queue, st.s.lastAssigned) && Generations(st)
    ensures Generations(Step(flat, st, e))
    ensures Step(flat, st, e).s.dialGen >= st.s.dialGen
  {
    if e.EDialBegin? || e.EDialInstall? || e.EDialAbandon? {
      hide Shape, Increasing, DialInstall;
      if e.EDialInstall? {
        InstallIncreasing(st, e.gen);
      }
    } else {
      hide Shape, Generations, Step;
      NoDial(flat, st, e);
      GenerationsSame(st, Step(flat, st, e));
    }
  }

  ghost predicate LeavesDials(st: State, r: State) {
    r.s.dialGen >= st.s.dialGen && r.log.dials == st.log.dials && r.log.installed == st.log.installed
  }

  lemma NoDial(flat: Flat, st: State, e: Event)
    requires Shape(st.s.queue, st.s.lastAssigned) && !e.EDialBegin? && !e.EDialInstall? && !e.EDialAbandon?
    ensures LeavesDials(st, Step(flat, st, e))
  {
    hide Shape, Step, Quiet;
    if e.EFlush? || e.EPublish? || e.EError? {
      NoDialPoints(flat, st, e);
    } else if Quiet(e) {
      NoDialFlags(flat, st, e);
    } else {
      NoDialTrack(flat, st, e);
    }
  }

  lemma NoDialPoints(flat: Flat, st: State, e: Event)
    requires Shape(st.s.queue, st.s.lastAssigned) && (e.EFlush? || e.EPublish? || e.EError?)
    ensures LeavesDials(st, Step(flat, st, e))
  {
    hide Shape, FlushPass, Publish, ErrorEvent, PickedOk;
    if e.EFlush? {
      FlushQuiet(st);
    } else if e.EPublish? {
      PublishQuiet(flat, st, e.point);
    } else {
      ErrorQuiet(st, e.code);
    }
  }

  lemma NoDialFlags(flat: Flat, st: State, e: Event)
    requires Shape(st.s.queue, st.s.lastAssigned) && Quiet(e) && !e.EDialBegin? && !e.EDialInstall? && !e.EDialAbandon?
    ensures LeavesDials(st, Step(flat, st, e))
  {
    hide Shape, LeavesDials, FlushPass, Publish, ErrorEvent, SocketClosed, TrackStopped, TrackStarted, StartBegin, AutoStart, Ack,
      ResumeOk, ManualResume, PickedOk, DialBegin, DialInstall, DialAbandon;
    DialsSame(st, Step(flat, st, e));
  }

  lemma DialsSame(st: State, r: State)
    requires r.s.dialGen == st.s.dialGen || r.s.dialGen == st.s.dialGen + 1
    requires r.log.dials == st.log.dials && r.log.installed == st.log.installed
    ensures LeavesDials(st, r)
  {
  }

  lemma NoDialTrack(flat: Flat, st: State, e: Event)
    requires Shape(st.s.queue, st.s.lastAssigned) && !Quiet(e) && !e.EFlush? && !e.EPublish? && !e.EError?
    ensures LeavesDials(st, Step(flat, st, e))
  {
    if e.ESocketClosed? {
      hide Shape, MarkUnsent, Exhausted;
    } else if e.EAck? || e.EResumeOk? {
      hide Shape, AckThrough, Held;
    } else {
      NoDialStarts(flat, st, e);
      hide Shape, Step;
    }
  }

  lemma NoDialStarts(flat: Flat, st: State, e: Event)
    requires Shape(st.s.queue, st.s.lastAssigned)
    requires e.ETrackStarted? || e.ETrackStopped? || e.EStartBegin? || e.EAutoStart? || e.EManualResume?
    ensures LeavesDials(st, Step(flat, st, e))
  {
    hide Shape, FlushPass, Publish, ErrorEvent, PickedOk, SocketClosed, Ack, ResumeOk, Held, Cleared;
  }

  lemma GenerationsSame(st: State, st': State)
    requires Generations(st) && st'.s.dialGen >= st.s.dialGen
    requires st'.log.dials == st.log.dials && st'.log.installed == st.log.installed
    ensures Generations(st')
  {
  }

  lemma FlushQuiet(st: State)
    requires Shape(st.s.queue, st.s.lastAssigned)
    ensures PickedOk(st.s)
    ensures var r := FlushPass(st);
            r.s.dialGen == st.s.dialGen && r.log.dials == st.log.dials && r.log.installed == st.log.installed
  {
    PickedHasRoom(st.s);
    hide Shape, RecordAll, Sending, NewNames, BuiltFrom, Picked;
  }

  lemma PublishQuiet(flat: Flat, st: State, point: LatLng)
    ensures var r := Publish(st, flat, point);
            && r.s.dialGen == st.s.dialGen && r.log.dials == st.log.dials && r.log.installed == st.log.installed
            && r.log.wire == st.log.wire && r.log.starts == st.log.starts && st.log.built <= r.log.built
            && r.s.intentional == st.s.intentional && r.s.socket == st.s.socket && r.s.lastAssigned >= st.s.lastAssigned
            && r.s.trackUid == st.s.trackUid
  {
    hide PublishLive, PublishStaged, Live;
    if Live(st.s) {
      LiveLeaves(flat, st, point);
    } else {
      StagedLeaves(flat, st, point);
    }
  }

  lemma LiveLeaves(flat: Flat, st: State, point: LatLng)
    ensures var r := PublishLive(st, flat, point);
            && r.s.dialGen == st.s.dialGen && r.log.dials == st.log.dials && r.log.installed == st.log.installed
            && r.log.wire == st.log.wire && r.log.starts == st.log.starts && st.log.built <= r.log.built
            && r.s.intentional == st.s.intentional && r.s.socket == st.s.socket && r.s.lastAssigned >= st.s.lastAssigned
            && r.s.trackUid == st.s.trackUid
  {
    hide Held, Enqueue, RecordFrame, SingleBytes, FixOf;
  }

  lemma StagedLeaves(flat: Flat, st: State, point: LatLng)
    ensures var r := PublishStaged(st, flat, point);
            && r.s == st.s.(queue := r.s.queue)
            && r.log == st.log.(emitted := st.log.emitted + 1, evicted := r.log.evicted)
  {
    hide Held, PushStaging;
  }

  lemma ErrorQuiet(st: State, code: T.ErrorCode)
    ensures var r := ErrorEvent(st, code);
            && r.s.dialGen == st.s.dialGen && r.log.dials == st.log.dials && r.log.installed == st.log.installed
            && r.log.names == st.log.names && r.log.built == st.log.built && r.log.wire == st.log.wire && r.log.starts == st.log.starts
            && r.s.intentional == st.s.intentional && r.s.socket == st.s.socket && r.s.lastAssigned == st.s.lastAssigned
            && (!code.TrackNotFound? && !(st.s.resumeWait && T.FatalResumeError(code)) ==> r.s.trackUid == st.s.trackUid)
  {
  }

  lemma InstallIncreasing(st: State, gen: nat)
    requires Generations(st)
    ensures Generations(DialInstall(st, gen)) && DialInstall(st, gen).s.dialGen == st.s.dialGen
  {
    var installed := st.log.installed;
    if gen in st.log.dials && gen == st.s.dialGen {
      forall i | 0 <= i < |installed| ensures installed[i] < gen {
        assert installed[i] in installed;
      }
    }
  }

  // ---- Runs ----

  lemma DeliveryStep(flat: Flat, st: State, e: Event)
    requires Delivery(st) && Allowed(st, e)
    ensures Delivery(Step(flat, st, e))
  {
    assert Shape(st.s.queue, st.s.lastAssigned);
    hide Shape, Delivery, FlushPass, Publish, ErrorEvent, SocketClosed, TrackStopped, TrackStarted, StartBegin, AutoStart, Ack, ResumeOk,
      ManualResume, ResumesCleanly, StartedCleanly, Room;
    if Quiet(e) {
      DeliveryQuiet(flat, st, e);
    } else if e.EAck? {
      AckDelivery(st, e.num);
    } else if e.EResumeOk? {
      ResumeOkDelivery(st, e.uid, e.ack);
    } else if e.EError? {
      ErrorDelivery(st, e.code);
    } else if e.EPublish? {
      PublishDelivery(flat, st, e.point);
    } else if e.EFlush? {
      FlushDelivery(st);
    } else if e.ESocketClosed? {
      SocketClosedDelivery(st, e.gen, e.canReconnect);
    } else if e.EManualResume? {
      ManualResumeDelivery(st, e.uid, e.last);
    } else if e.ETrackStarted? {
      StartedDelivery(st, e.uid);
    } else if e.ETrackStopped? {
      StoppedDelivery(st, e.uid);
    } else {
      FreshDelivery(st);
    }
  }

  lemma StoppedDelivery(st: State, uid: Uid)
    requires Delivery(st)
    ensures Delivery(TrackStopped(st, uid))
  {
    DropTrackDelivery(st);
    hide Delivery, DropTrack;
    DeliverySame(if st.s.trackUid == uid then DropTrack(st) else st, TrackStopped(st, uid));
  }

  lemma FreshDelivery(st: State)
    requires Delivery(st)
    ensures Delivery(StartBegin(st)) && Delivery(AutoStart(st))
  {
    FreshTrackDelivery(st);
    hide Delivery, FreshTrack;
    DeliverySame(FreshTrack(st), StartBegin(st));
  }

  predicate Quiet(e: Event) {
    e.EDialBegin? || e.EDialInstall? || e.EDialAbandon? || e.EAuthDenied? || e.EAuthRefreshed? || e.EAuthRefreshFailed?
    || e.EClose? || e.EStartFailed? || e.EAutoStartFailed? || e.EResumePrepare? || e.EResumeFailed? || e.EStopWait?
    || e.EHandOver?
  }

  /** No point and no number moves, and no session opens. */
  ghost predicate LeavesPoints(st: State, r: State) {
    && r.s.queue == st.s.queue && r.s.lastAssigned == st.s.lastAssigned && r.s.trackUid == st.s.trackUid && (r.s.ready ==> st.s.ready)
    && r.log.names == st.log.names && r.log.built == st.log.built && r.log.epoch == st.log.epoch
    && r.log.sessionStart == st.log.sessionStart && r.log.emitted == st.log.emitted
    && r.log.acked == st.log.acked && r.log.evicted == st.log.evicted && r.log.discarded == st.log.discarded
  }

  lemma QuietLeaves(flat: Flat, st: State, e: Event)
    requires Shape(st.s.queue, st.s.lastAssigned) && Quiet(e)
    ensures LeavesPoints(st, Step(flat, st, e))
  {
    hide Shape, Step, LeavesPoints;
    if e.EDialBegin? || e.EDialInstall? || e.EDialAbandon? || e.EHandOver? {
      DialLeaves(flat, st, e);
    } else {
      FlagsLeave(flat, st, e);
    }
  }

  lemma DialLeaves(flat: Flat, st: State, e: Event)
    requires Shape(st.s.queue, st.s.lastAssigned) && (e.EDialBegin? || e.EDialInstall? || e.EDialAbandon? || e.EHandOver?)
    ensures LeavesPoints(st, Step(flat, st, e))
  {
    hide Shape, FlushPass, Publish, ErrorEvent, SocketClosed, TrackStopped, TrackStarted, StartBegin, AutoStart, Ack, ResumeOk,
      ManualResume, PickedOk, ResumePrepare, CloseLocked, Reset;
  }

  lemma FlagsLeave(flat: Flat, st: State, e: Event)
    requires Shape(st.s.queue, st.s.lastAssigned) && Quiet(e) && !e.EDialBegin? && !e.EDialInstall? && !e.EDialAbandon? && !e.EHandOver?
    ensures LeavesPoints(st, Step(flat, st, e))
  {
    hide Shape, FlushPass, Publish, ErrorEvent, SocketClosed, TrackStopped, TrackStarted, StartBegin, AutoStart, Ack, ResumeOk,
      ManualResume, PickedOk, DialBegin, DialInstall, DialAbandon, HandOver;
  }

  lemma DeliveryQuiet(flat: Flat, st: State, e: Event)
    requires Delivery(st) && Quiet(e)
    ensures Delivery(Step(flat, st, e))
  {
    assert Shape(st.s.queue, st.s.lastAssigned);
    hide Shape, Delivery, Step, Quiet;
    QuietLeaves(flat, st, e);
    DeliverySame(st, Step(flat, st, e));
  }

  /** Events other than a pass, a publish and a track's end leave the names alone. */
  lemma NamesStep(flat: Flat, st: State, e: Event)
    requires Delivery(st) && Allowed(st, e)
    ensures Extends(st.log.names, Step(flat, st, e).log.names)
  {
    DeliveryShape(st);
    if e.EFlush? {
      hide Shape, FlushPass, Delivery;
      FlushDelivery(st);
    } else if e.EPublish? {
      hide Shape, Publish, Delivery;
      PublishDelivery(flat, st, e.point);
    } else {
      hide Shape, Delivery, Step;
      NamesKept(flat, st, e);
    }
  }

  lemma NamesKept(flat: Flat, st: State, e: Event)
    requires Shape(st.s.queue, st.s.lastAssigned) && !e.EFlush? && !e.EPublish?
    ensures Step(flat, st, e).log.names == st.log.names
  {
    if Quiet(e) {
      hide Shape, Step;
      QuietLeaves(flat, st, e);
    } else if e.EError? {
      hide Shape, ErrorEvent;
      ErrorQuiet(st, e.code);
    } else {
      hide Shape, FlushPass, Publish, ErrorEvent, PickedOk, AckThrough, MarkUnsent, Held, Cleared, Exhausted;
    }
  }

  lemma DeliverySame(st: State, st': State)
    requires Delivery(st) && st'.s.queue == st.s.queue && st'.s.lastAssigned == st.s.lastAssigned
    requires st'.log.names == st.log.names && st'.log.built == st.log.built && st'.log.epoch == st.log.epoch
    requires st'.log.sessionStart == st.log.sessionStart
    ensures Delivery(st')
  {
    hide Shape, Labelled, NamesBelow, AllAgree;
  }

  lemma StartedDelivery(st: State, uid: Uid)
    requires Delivery(st) && StartedCleanly(st.s)
    ensures Delivery(TrackStarted(st, uid))
  {
    EmptyShape(st.s.queue, st.s.lastAssigned, 0);
    hide Shape;
    DeliveryShrinks(st, TrackStarted(st, uid));
  }

  lemma InvStep(flat: Flat, st: State, e: Event)
    requires Inv(st) && Allowed(st, e)
    ensures Inv(Step(flat, st, e))
  {
    DeliveryStep(flat, st, e);
    ConservedStep(flat, st, e);
    assert Shape(st.s.queue, st.s.lastAssigned);
    GenerationsStep(flat, st, e);
    hide Delivery, Conserved, Generations, Step, Allowed;
  }

  /** The events of `es` may happen one after the other from `st`. */
  ghost predicate RunAllowed(flat: Flat, st: State, es: seq<Event>)
    requires Inv(st)
    decreases es
  {
    es == [] ||
    (Allowed(st, es[0]) && (InvStep(flat, st, es[0]); RunAllowed(flat, Step(flat, st, es[0]), es[1..])))
  }

  ghost function Run(flat: Flat, st: State, es: seq<Event>): (r: State)
    requires Inv(st) && RunAllowed(flat, st, es)
    ensures Inv(r)
    decreases es
  {
    if es == [] then st else
      InvStep(flat, st, es[0]);
      Run(flat, Step(flat, st, es[0]), es[1..])
  }
}
