/** The engine with handlers as steps: a dispatch runs to the end of its `flush_queue`, a publish to
    the end of its send, before anything else takes the lock. The source drops the lock in between
    (see `Races.PublishOvertakes`), so what follows is what the code keeps when handlers do not
    interleave: order, a drained queue, back-to-back frames, and coverage after a resume. */
module Handlers {
  import opened Wrappers
  import opened Bytes
  import opened Points
  import opened Reading
  import opened Loc
  import opened Queue
  import opened Backoff
  import opened Engine
  import opened Runs
  import opened Safety
  import M = Messages
  import T = Types

  /** The frames built since `from` go to the writer, in order. */
  function Transmit(st: State, from: nat): State
    requires from <= |st.log.built|
  {
    if st.s.socket.None? then st
    else st.(log := st.log.(wire := st.log.wire + Outgoing(st.s.socket.value, st.log.built[from..])))
  }

  function Outgoing(gen: nat, bs: seq<Built>): (r: seq<Sent>)
    ensures |r| == |bs|
  {
    seq(|bs|, i requires 0 <= i < |bs| => Sent(gen, bs[i].bytes))
  }

  // ---- One pass, and all of flush_queue ----

  /** The number that goes out next. */
  function NextToSend(s: Session): int {
    s.lastAssigned + 1 - |Unsent(s.queue.inflight)|
  }

  /** Frame `i+1` starts where frame `i` ends. */
  predicate Follows(bs: seq<Built>, i: nat)
    requires i + 1 < |bs|
  {
    bs[i].epoch == bs[i + 1].epoch && bs[i + 1].last - bs[i + 1].count == bs[i].last
  }

  /** `bs` cover consecutive numbers of `epoch` from `next` up to but not including `end`. */
  ghost predicate Consecutive(bs: seq<Built>, epoch: nat, next: int, end: int) {
    && (forall i :: 0 <= i < |bs| - 1 ==> Follows(bs, i))
    && (if bs == [] then next == end
        else bs[0].epoch == epoch && bs[0].last - bs[0].count + 1 == next && bs[|bs| - 1].epoch == epoch && bs[|bs| - 1].last + 1 == end)
  }

  lemma ConsecutiveConcat(x: seq<Built>, y: seq<Built>, epoch: nat, a: int, b: int, c: int)
    requires Consecutive(x, epoch, a, b) && Consecutive(y, epoch, b, c)
    ensures Consecutive(x + y, epoch, a, c)
  {
    if x == [] {
      assert x + y == y;
    } else if y == [] {
      assert x + y == x;
    } else {
      forall i | 0 <= i < |x + y| - 1 ensures Follows(x + y, i) {
        if i < |x| - 1 {
          assert Follows(x, i);
        } else if i >= |x| {
          assert Follows(y, i - |x|);
        }
      }
    }
  }

  lemma {:induction false} PiecesConsecutive(epoch: nat, track: Uid, pieces: seq<Piece>, next: nat)
    requires Chained(pieces, next)
    ensures Consecutive(BuiltFrom(epoch, track, pieces, next), epoch, next, next + |Joined(pieces)|)
    decreases pieces
  {
    hide PieceOk, PieceBytes, Follows, Consecutive;
    if pieces == [] {
      NoneConsecutive(epoch, next);
    } else {
      var p, rest := pieces[0], pieces[1..];
      PiecesConsecutive(epoch, track, rest, p.num + 1);
      var b := Built(epoch, track, p.num, |p.fixes|, false, PieceBytes(p));
      SingleConsecutive(b, next);
      ConsecutiveConcat([b], BuiltFrom(epoch, track, rest, p.num + 1), epoch, next, p.num + 1, p.num + 1 + |Joined(rest)|);
    }
  }

  lemma NoneConsecutive(epoch: nat, next: int)
    ensures Consecutive([], epoch, next, next)
  {
  }

  lemma SingleConsecutive(b: Built, next: int)
    requires b.last + 1 == next + b.count
    ensures Consecutive([b], b.epoch, next, b.last + 1)
  {
  }

  /** What one working pass does. */
  ghost predicate PassEffect(st: State, r: State) {
    && Delivery(r)
    && r.s.ready == st.s.ready && r.s.conn == st.s.conn && r.s.socket == st.s.socket
    && r.log.epoch == st.log.epoch && r.log.sessionStart == st.log.sessionStart && r.log.wire == st.log.wire
    && r.log.emitted == st.log.emitted
    && r.s.lastAssigned + |r.s.queue.staging| == st.s.lastAssigned + |st.s.queue.staging|
    && |r.s.queue.frames| > |st.s.queue.frames|
    && st.log.built < r.log.built
    && Consecutive(r.log.built[|st.log.built|..], st.log.epoch, NextToSend(st.s), NextToSend(r.s))
  }

  lemma PassWorks(st: State)
    requires Delivery(st) && Room(st.s) && !FlushIdle(st.s)
    ensures PickedOk(st.s) && PassEffect(st, FlushPass(st))
  {
    FlushDelivery(st);
    PassMoves(st);
    PassContinues(st);
    hide Delivery, FlushPass, FlushIdle, Consecutive, NextToSend, Room;
  }

  lemma PassMoves(st: State)
    requires Delivery(st) && Room(st.s) && !FlushIdle(st.s)
    ensures PickedOk(st.s)
    ensures var r := FlushPass(st);
            && r.s.ready == st.s.ready && r.s.conn == st.s.conn && r.s.socket == st.s.socket
            && r.log.epoch == st.log.epoch && r.log.sessionStart == st.log.sessionStart && r.log.wire == st.log.wire
            && r.log.emitted == st.log.emitted
            && r.s.lastAssigned + |r.s.queue.staging| == st.s.lastAssigned + |st.s.queue.staging|
            && |r.s.queue.frames| > |st.s.queue.frames|
  {
    var s := st.s;
    PickedHasRoom(s);
    PassSends(s);
    PassClaims(s);
    RoomClaimed(s);
    PickedCases(s);
    var pieces, c, first := Sending(s), Claimed(s), FirstNum(Picked(s));
    RecordAllKeepsShape(c.queue, c.lastAssigned, pieces, first);
    hide Delivery, Shape, Sending, Picked, RecordAll, NewNames, BuiltFrom, Chained, Joined, Unsent, High, CanSend, FlushIdle, Fixes, Number;
  }

  lemma PassContinues(st: State)
    requires Delivery(st) && Room(st.s) && !FlushIdle(st.s)
    ensures PickedOk(st.s)
    ensures var r := FlushPass(st);
            && st.log.built < r.log.built
            && Consecutive(r.log.built[|st.log.built|..], st.log.epoch, NextToSend(st.s), NextToSend(r.s))
  {
    assert Shape(st.s.queue, st.s.lastAssigned) && Picked(st.s) != [];
    hide *;
    PassReaches(st);
    PassBuilds(st);
    PickedStartsNext(st.s);
    PickedHasRoom(st.s);
    NextAfter(FlushPass(st).s, FirstNum(Picked(st.s)), |Joined(Sending(st.s))|);
    ContinuesFrom(st, FlushPass(st), Sending(st.s), FirstNum(Picked(st.s)));
  }

  lemma ContinuesFrom(st: State, r: State, pieces: seq<Piece>, first: nat)
    requires Chained(pieces, first) && pieces != []
    requires r.log.built == st.log.built + BuiltFrom(st.log.epoch, st.s.trackUid, pieces, first)
    requires NextToSend(st.s) == first && NextToSend(r.s) == first + |Joined(pieces)|
    ensures st.log.built < r.log.built
    ensures Consecutive(r.log.built[|st.log.built|..], st.log.epoch, NextToSend(st.s), NextToSend(r.s))
  {
    hide NextToSend, Consecutive, Chained, Joined;
    PiecesConsecutive(st.log.epoch, st.s.trackUid, pieces, first);
    assert r.log.built[|st.log.built|..] == BuiltFrom(st.log.epoch, st.s.trackUid, pieces, first);
  }

  /** After a pass the window reaches through everything the pass sent. */
  lemma PassReaches(st: State)
    requires Delivery(st) && Room(st.s) && !FlushIdle(st.s)
    ensures PickedOk(st.s)
    ensures var r, n, first := FlushPass(st).s, |Joined(Sending(st.s))|, FirstNum(Picked(st.s));
            && Sending(st.s) != [] && n > 0
            && Shape(r.queue, r.lastAssigned)
            && High(r.queue.frames) == first + n - 1
            && r.lastAssigned == Claimed(st.s).lastAssigned
            && |r.queue.inflight| == |Claimed(st.s).queue.inflight|
  {
    var s := st.s;
    PickedHasRoom(s);
    PassSends(s);
    PassClaims(s);
    RoomClaimed(s);
    PassBuilds(st);
    hide Delivery, Shape, Sending, Picked, Claimed, RecordAll, NewNames, BuiltFrom, Chained, Joined, Unsent, High, CanSend, FlushPass, Room, Fixes, PickedOk;
    RecordAllKeepsShape(Claimed(s).queue, Claimed(s).lastAssigned, Sending(s), FirstNum(Picked(s)));
    JoinedNonempty(Sending(s), FirstNum(Picked(s)));
  }

  lemma {:induction false} RecordAllCounts(q: Buffer, pieces: seq<Piece>)
    ensures |RecordAll(q, pieces).frames| == |q.frames| + |pieces|
    decreases pieces
  {
    hide MarkThrough;
    if pieces != [] {
      RecordAllCounts(RecordFrame(q, pieces[0].num % TWO32), pieces[1..]);
    }
  }

  lemma PassBuilds(st: State)
    requires HasRoom(Picked(st.s)) && !FlushIdle(st.s)
    ensures var pieces, first := Sending(st.s), FirstNum(Picked(st.s));
            && Chained(pieces, first)
            && (pieces != [] ==> st.log.built < FlushPass(st).log.built)
            && FlushPass(st).log.built == st.log.built + BuiltFrom(st.log.epoch, st.s.trackUid, pieces, first)
            && FlushPass(st).log.built[|st.log.built|..] == BuiltFrom(st.log.epoch, st.s.trackUid, pieces, first)
            && FlushPass(st).s == Claimed(st.s).(queue := RecordAll(Claimed(st.s).queue, pieces))
  {
    SendingChained(st.s);
    hide Sending, Picked, Claimed, RecordAll, NewNames, BuiltFrom, Chained;
  }

  lemma PickedStartsNext(s: Session)
    requires Shape(s.queue, s.lastAssigned) && Picked(s) != []
    ensures PickedOk(s) && FirstNum(Picked(s)) == NextToSend(s)
    ensures FirstNum(Picked(s)) > Claimed(s).lastAssigned - |Claimed(s).queue.inflight|
  {
    PickedHasRoom(s);
    PickedCases(s);
    UnsentIsSuffix(s.queue, s.lastAssigned);
    hide Shape, Unsent, Picked, Claimed, Number, Block;
  }

  lemma JoinedNonempty(pieces: seq<Piece>, next: nat)
    requires Chained(pieces, next) && pieces != []
    ensures |Joined(pieces)| > 0
  {
  }

  /** Once frames reach through number first+n-1 of the block, the next number is first+n. */
  lemma NextAfter(s: Session, first: nat, n: nat)
    requires Shape(s.queue, s.lastAssigned) && n > 0 && High(s.queue.frames) == first + n - 1
    requires first > s.lastAssigned - |s.queue.inflight|
    ensures NextToSend(s) == first + n
  {
    UnsentIsSuffix(s.queue, s.lastAssigned);
    hide Unsent, Shape;
  }

  /** flush_queue to its end, every frame handed to the writer. It ends because each pass takes at
      least one place in the window. */
  ghost function FlushAll(st: State): State
    requires Delivery(st) && Room(st.s)
    decreases WindowRemaining(st.s.queue)
  {
    if FlushIdle(st.s) then st else
      PassWorks(st);
      Sent1(st);
      FlushAll(Transmit(FlushPass(st), |st.log.built|))
  }

  /** A pass and its sends leave a state from which flushing may go on. */
  lemma Sent1(st: State)
    requires Delivery(st) && Room(st.s) && !FlushIdle(st.s)
    ensures PickedOk(st.s) && |st.log.built| <= |FlushPass(st).log.built|
    ensures var r := Transmit(FlushPass(st), |st.log.built|);
            Delivery(r) && Room(r.s) && WindowRemaining(r.s.queue) < WindowRemaining(st.s.queue)
  {
    PassWorks(st);
    hide FlushPass, Consecutive, NextToSend, Shape, Labelled, NamesBelow, AllAgree, PickedOk, FlushIdle;
  }

  // ---- What handlers keep ----

  /** Nothing waits that could go. */
  ghost predicate Drained(s: Session) {
    Live(s) ==> Unsent(s.queue.inflight) == [] && s.queue.staging == []
  }

  lemma IdleIsDrained(s: Session)
    requires FlushIdle(s)
    ensures Drained(s)
  {
    hide Unsent;
  }

  /** Staging is in emission order, numbers were given in emission order, and everything numbered
      was emitted before everything that waits. */
  ghost predicate Ordered(st: State) {
    var staging, names := st.s.queue.staging, st.log.names;
    && (forall i, j :: 0 <= i < j < |staging| ==> staging[i].id < staging[j].id)
    && (forall i :: 0 <= i < |staging| ==> staging[i].id < st.log.emitted)
    && (forall n, m :: n in names && m in names && n.epoch == m.epoch && n.num < m.num ==> names[n].id < names[m].id)
    && (forall n :: n in names ==> names[n].id < st.log.emitted)
    && (forall n, i :: n in names && n.epoch == st.log.epoch && 0 <= i < |staging| ==> names[n].id < staging[i].id)
  }

  ghost function SessionFrames(log: Log): seq<Built>
    requires log.sessionStart <= |log.built|
  {
    log.built[log.sessionStart..]
  }

  ghost function FirstOf(bs: seq<Built>, otherwise: int): int {
    if bs == [] then otherwise else bs[0].last - bs[0].count + 1
  }

  /** The frames of this session have back-to-back ranges, up to the next number to send. */
  ghost predicate BackToBack(st: State)
    requires st.log.sessionStart <= |st.log.built|
  {
    var bs := SessionFrames(st.log);
    && (forall i :: 0 <= i < |bs| - 1 ==> Follows(bs, i))
    && (st.s.ready ==> Consecutive(bs, st.log.epoch, FirstOf(bs, NextToSend(st.s)), NextToSend(st.s)))
  }

  predicate IsLoc(b: seq<Byte>) {
    b != [] && b[0] == C_LOC
  }

  function LocsOf(wire: seq<Sent>): seq<seq<Byte>> {
    if wire == [] then [] else
      LocsOf(wire[..|wire| - 1]) + (if IsLoc(wire[|wire| - 1].bytes) then [wire[|wire| - 1].bytes] else [])
  }

  function BytesOf(bs: seq<Built>): (r: seq<seq<Byte>>)
    ensures |r| == |bs|
  {
    seq(|bs|, i requires 0 <= i < |bs| => bs[i].bytes)
  }

  /** Every frame went to a writer when it was built. */
  ghost predicate InWireOrder(st: State) {
    LocsOf(st.log.wire) == BytesOf(st.log.built)
  }

  /** The invariant that holds also in the middle of a handler, before its flush. */
  ghost predicate Mid(st: State) {
    Inv(st) && Ordered(st) && BackToBack(st) && InWireOrder(st)
  }

  ghost predicate Settling(st: State) {
    Mid(st) && Drained(st.s)
  }

  // ---- Wire order ----

  lemma {:induction false} LocsOfOutgoing(wire: seq<Sent>, gen: nat, bs: seq<Built>)
    requires forall i :: 0 <= i < |bs| ==> IsLoc(bs[i].bytes)
    ensures LocsOf(wire + Outgoing(gen, bs)) == LocsOf(wire) + BytesOf(bs)
    decreases bs
  {
    if bs == [] {
      assert wire + Outgoing(gen, bs) == wire;
    } else {
      var init, b := bs[..|bs| - 1], bs[|bs| - 1];
      LocsOfOutgoing(wire, gen, init);
      assert (wire + Outgoing(gen, bs))[..|wire| + |init|] == wire + Outgoing(gen, init);
      assert BytesOf(bs) == BytesOf(init) + [b.bytes];
    }
  }

  lemma AgreesIsLoc(names: map<Name, Sample>, b: Built)
    requires Agrees(names, b)
    ensures IsLoc(b.bytes)
  {
  }

  lemma TransmitInOrder(st: State, r: State)
    requires InWireOrder(st) && r.log.wire == st.log.wire && st.log.built <= r.log.built
    requires AllAgree(r.log.names, r.log.built)
    requires r.s.socket.Some? || r.log.built == st.log.built
    ensures InWireOrder(Transmit(r, |st.log.built|))
  {
    var bs := r.log.built[|st.log.built|..];
    forall i | 0 <= i < |bs| ensures IsLoc(bs[i].bytes) {
      assert bs[i] == r.log.built[|st.log.built| + i];
      AgreesIsLoc(r.log.names, bs[i]);
    }
    hide Agrees, IsLoc, LocsOf;
    assert BytesOf(r.log.built) == BytesOf(st.log.built) + BytesOf(bs);
    if r.s.socket.Some? {
      LocsOfOutgoing(st.log.wire, r.s.socket.value, bs);
    }
  }

  // ---- Emission order ----

  /** The names a pass adds, and what it takes from Staging. */
  ghost predicate NamesTaken(st: State, r: State) {
    && r.log.epoch == st.log.epoch && r.log.emitted == st.log.emitted
    && if Unsent(st.s.queue.inflight) != []
       then r.log.names == st.log.names && r.s.queue.staging == st.s.queue.staging
       else r.log.names == st.log.names + NewNames(st.log.epoch, Number(st.s.queue.staging[..Take(st.s)], st.s.lastAssigned))
            && r.s.queue.staging == st.s.queue.staging[Take(st.s)..]
  }

  lemma PassNames(st: State)
    requires Delivery(st) && !FlushIdle(st.s)
    ensures PickedOk(st.s) && NamesTaken(st, FlushPass(st))
  {
    var s, u := st.s, Unsent(st.s.queue.inflight);
    PickedHasRoom(s);
    StagingKept(Claimed(s).queue, Sending(s));
    if u != [] {
      UnsentNamesKnown(st);
    }
    PickedCases(s);
    PassBuilds(st);
    hide Delivery, PickedOk, Unsent, Picked, Claimed, Sending, RecordAll, NewNames, Number, Take, BuiltFrom, Chained, FlushIdle;
  }

  lemma UnsentNamesKnown(st: State)
    requires Delivery(st) && Unsent(st.s.queue.inflight) != []
    ensures st.log.names + NewNames(st.log.epoch, Unsent(st.s.queue.inflight)) == st.log.names
  {
    var inflight, u := st.s.queue.inflight, Unsent(st.s.queue.inflight);
    assert Labelled(inflight, st.log.epoch, st.log.names) && Shape(st.s.queue, st.s.lastAssigned);
    UnsentIsSuffix(st.s.queue, st.s.lastAssigned);
    hide *;
    LastBlock(u, st.s.lastAssigned);
    SuffixNamesKnown(st.log.epoch, inflight, |inflight| - |u|, FirstNum(u), st.log.names);
  }

  lemma {:induction false} StagingKept(q: Buffer, pieces: seq<Piece>)
    ensures RecordAll(q, pieces).staging == q.staging
    decreases pieces
  {
    if pieces != [] {
      StagingKept(RecordFrame(q, pieces[0].num % TWO32), pieces[1..]);
    }
  }

  lemma PassOrdered(st: State)
    requires Delivery(st) && Ordered(st) && !FlushIdle(st.s)
    ensures PickedOk(st.s) && Ordered(FlushPass(st))
  {
    PassNames(st);
    if Unsent(st.s.queue.inflight) == [] {
      StagedOrdered(st, FlushPass(st));
    } else {
      hide FlushPass, Delivery, Unsent, FlushIdle;
    }
  }

  lemma StagedOrdered(st: State, r: State)
    requires Delivery(st) && Ordered(st) && NamesTaken(st, r) && Unsent(st.s.queue.inflight) == []
    ensures Ordered(r)
  {
    var s, n := st.s, Take(st.s);
    var numbered := Number(s.queue.staging[..n], s.lastAssigned);
    NumberBlock(s.queue.staging[..n], s.lastAssigned);
    NewNamesAre(st.log.epoch, numbered, s.lastAssigned + 1);
    hide NewNames, Unsent, Shape, Take, AllAgree, Labelled;
    NamedInOrder(st, n, NewNames(st.log.epoch, numbered));
  }

  /** Numbering the head of Staging keeps the order. */
  lemma NamedInOrder(st: State, n: nat, add: map<Name, Sample>)
    requires Ordered(st) && n <= |st.s.queue.staging| && NamesBelow(st.log.names, st.log.epoch, st.s.lastAssigned)
    requires Labelled(Number(st.s.queue.staging[..n], st.s.lastAssigned), st.log.epoch, add)
    requires forall m :: m in add ==> m.epoch == st.log.epoch && st.s.lastAssigned + 1 <= m.num < st.s.lastAssigned + 1 + n
    ensures var names, staging := st.log.names + add, st.s.queue.staging[n..];
            && (forall a, b :: a in names && b in names && a.epoch == b.epoch && a.num < b.num ==> names[a].id < names[b].id)
            && (forall a :: a in names ==> names[a].id < st.log.emitted)
            && (forall a, i :: a in names && a.epoch == st.log.epoch && 0 <= i < |staging| ==> names[a].id < staging[i].id)
  {
    var names, staging, last := st.log.names + add, st.s.queue.staging, st.s.lastAssigned;
    var numbered := Number(staging[..n], last);
    forall a | a in add ensures add[a] == staging[a.num - last - 1] {
      var k := a.num - last - 1;
      assert numbered[k] == Queued(a.num, staging[k], false);
      assert a == Name(st.log.epoch, numbered[k].num);
    }
    hide Number, Labelled;
    forall a, b | a in names && b in names && a.epoch == b.epoch && a.num < b.num ensures names[a].id < names[b].id {
      if a in add {
        assert b in add;
      }
    }
  }

  // ---- Flushing keeps everything and drains ----

  lemma BackToBackGrows(st: State, r: State)
    requires st.log.sessionStart <= |st.log.built| && BackToBack(st) && st.s.ready
    requires r.s.ready && r.log.epoch == st.log.epoch && r.log.sessionStart == st.log.sessionStart
    requires st.log.built <= r.log.built
    requires Consecutive(r.log.built[|st.log.built|..], st.log.epoch, NextToSend(st.s), NextToSend(r.s))
    ensures BackToBack(r)
  {
    var old_, new_ := SessionFrames(st.log), r.log.built[|st.log.built|..];
    hide NextToSend, Consecutive, Follows;
    assert SessionFrames(r.log) == old_ + new_;
    var first := FirstOf(old_, NextToSend(st.s));
    ConsecutiveConcat(old_, new_, st.log.epoch, first, NextToSend(st.s), NextToSend(r.s));
    ConsecutiveFirst(old_ + new_, st.log.epoch, first, NextToSend(r.s));
  }

  lemma ConsecutiveFirst(bs: seq<Built>, epoch: nat, first: int, end: int)
    requires Consecutive(bs, epoch, first, end)
    ensures Consecutive(bs, epoch, FirstOf(bs, end), end)
    ensures forall i :: 0 <= i < |bs| - 1 ==> Follows(bs, i)
  {
  }

  lemma PassMid(st: State)
    requires Mid(st) && Room(st.s) && !FlushIdle(st.s)
    ensures PickedOk(st.s) && |st.log.built| <= |FlushPass(st).log.built|
    ensures Mid(Transmit(FlushPass(st), |st.log.built|))
  {
    assert Delivery(st) && Conserved(st) && Generations(st) && Ordered(st) && BackToBack(st) && InWireOrder(st);
    assert st.s.ready && st.s.socket.Some? && Shape(st.s.queue, st.s.lastAssigned) && st.log.sessionStart <= |st.log.built|;
    PassWorks(st);
    PassOrdered(st);
    ConservedFlush(st);
    FlushQuiet(st);
    var p := FlushPass(st);
    GenerationsSame(st, p);
    hide Delivery, Conserved, Generations, Ordered, BackToBack, InWireOrder, Consecutive, NextToSend, FlushPass, FlushIdle, Shape, Inv, Mid, PickedOk;
    MidAfter(st, p);
  }

  lemma MidAfter(st: State, p: State)
    requires Delivery(p) && Conserved(p) && Ordered(p) && InWireOrder(st) && Generations(p)
    requires st.log.sessionStart <= |st.log.built| && BackToBack(st) && st.s.ready
    requires p.s.ready && p.s.socket.Some? && p.log.epoch == st.log.epoch && p.log.sessionStart == st.log.sessionStart
    requires p.log.wire == st.log.wire && st.log.built <= p.log.built
    requires Consecutive(p.log.built[|st.log.built|..], st.log.epoch, NextToSend(st.s), NextToSend(p.s))
    ensures Mid(Transmit(p, |st.log.built|))
  {
    BackToBackGrows(st, p);
    DeliveryAgrees(p);
    TransmitInOrder(st, p);
    hide Delivery, Conserved, Generations, Ordered, BackToBack, InWireOrder, Consecutive, NextToSend, AllAgree;
    OnlyWire(p, Transmit(p, |st.log.built|));
  }

  lemma DeliveryAgrees(st: State)
    requires Delivery(st)
    ensures AllAgree(st.log.names, st.log.built)
  {
  }

  /** The wire log is read by InWireOrder alone. */
  lemma OnlyWire(p: State, r: State)
    requires r == p.(log := p.log.(wire := r.log.wire))
    requires Delivery(p) && Conserved(p) && Generations(p) && Ordered(p) && BackToBack(p)
    ensures Delivery(r) && Conserved(r) && Generations(r) && Ordered(r) && BackToBack(r)
  {
    hide Shape, Labelled, NamesBelow, AllAgree, Held, Emitted, Follows, NextToSend, Consecutive, Increasing;
    assert r.s == p.s && SessionFrames(r.log) == SessionFrames(p.log);
  }

  ghost predicate FlushFacts(st: State, r: State) {
    && r.s.ready == st.s.ready && r.s.conn == st.s.conn && r.s.socket == st.s.socket
    && r.log.epoch == st.log.epoch && r.log.sessionStart == st.log.sessionStart
    && r.s.lastAssigned + |r.s.queue.staging| == st.s.lastAssigned + |st.s.queue.staging|
    && st.log.built <= r.log.built
    && Consecutive(r.log.built[|st.log.built|..], st.log.epoch, NextToSend(st.s), NextToSend(r.s))
  }

  lemma FlushFactsTrans(a: State, b: State, c: State)
    requires FlushFacts(a, b) && FlushFacts(b, c)
    ensures FlushFacts(a, c)
  {
    hide NextToSend, Consecutive;
    var x, y := b.log.built[|a.log.built|..], c.log.built[|b.log.built|..];
    assert c.log.built[|a.log.built|..] == x + y;
    ConsecutiveConcat(x, y, a.log.epoch, NextToSend(a.s), NextToSend(b.s), NextToSend(c.s));
  }

  /** flush_queue keeps every invariant, sends consecutive numbers from the next one due, and stops
      only when it may not send, the window is full, or nothing waits. */
  lemma {:induction false} FlushAllKeeps(st: State)
    requires Mid(st) && Room(st.s)
    ensures Settling(FlushAll(st)) && FlushIdle(FlushAll(st).s)
    ensures FlushFacts(st, FlushAll(st))
    decreases WindowRemaining(st.s.queue)
  {
    hide Ordered, BackToBack, InWireOrder, Conserved, Generations, Consecutive, NextToSend;
    if FlushIdle(st.s) {
      IdleIsDrained(st.s);
      assert st.log.built[|st.log.built|..] == [];
      NoneConsecutive(st.log.epoch, NextToSend(st.s));
    } else {
      PassWorks(st);
      Sent1(st);
      PassMid(st);
      var r := Transmit(FlushPass(st), |st.log.built|);
      hide FlushPass, FlushIdle, Delivery, Room;
      FlushAllKeeps(r);
      SameNext(FlushPass(st), r);
      FlushFactsTrans(st, r, FlushAll(r));
    }
  }

  lemma SameNext(p: State, r: State)
    requires r.s == p.s
    ensures NextToSend(r.s) == NextToSend(p.s)
  {
  }

  // ---- Handlers as steps ----

  /** Before its flush, what a dispatched event does under the lock. */
  predicate Flushes(e: Event) {
    e.EAck? || e.EResumeOk? || e.ETrackStarted?
  }

  /** Installing this dial leaves a drained session drained: it installs nothing, or no session is
      open, or nothing waits that could go. */
  ghost predicate InstallsQuietly(st: State, gen: nat) {
    || !(gen in st.log.dials && gen == st.s.dialGen && !st.s.intentional)
    || !st.s.ready || WindowFull(st.s.queue)
    || (Unsent(st.s.queue.inflight) == [] && st.s.queue.staging == [])
  }

  /** Exactly then. */
  lemma InstallKeepsDrained(st: State, gen: nat)
    requires Drained(st.s)
    ensures Drained(DialInstall(st, gen).s) <==> InstallsQuietly(st, gen)
  {
    hide Unsent, WindowFull;
  }

  /** This Ack leaves no hole between the frames of an open session: no session is open, or it has
      no frame yet, or nothing is unsent, or the Ack names nothing that this session has yet to send. */
  ghost predicate AcksQuietly(st: State, num: nat) {
    || !st.s.ready || st.log.sessionStart == |st.log.built|
    || Unsent(st.s.queue.inflight) == [] || num < NextToSend(st.s)
  }

  /** Exactly then. */
  lemma AckKeepsBackToBack(st: State, num: U32)
    requires Shape(st.s.queue, st.s.lastAssigned) && st.log.sessionStart <= |st.log.built| && BackToBack(st)
    ensures BackToBack(Ack(st, num)) <==> AcksQuietly(st, num)
  {
    AckKeepsNext(st, num);
    AckLeaves(st, num);
    hide Shape, NextToSend, Ack, Unsent, Follows;
    assert SessionFrames(st.log) == [] <==> st.log.sessionStart == |st.log.built|;
  }

  lemma AckLeaves(st: State, num: U32)
    ensures var r := Ack(st, num);
            && r.log.built == st.log.built && r.log.sessionStart == st.log.sessionStart && r.log.epoch == st.log.epoch
            && r.s.ready == st.s.ready
  {
    hide Held, AckThrough;
  }

  /** What whole handlers need on top of what lock sections do: an Ack leaves no hole between the
      frames of an open session, an install finds no points waiting behind one, flushes happen inside
      handlers, and Loc frames come from them. */
  ghost predicate HandlerAllowed(flat: Flat, st: State, e: Event)
    requires Inv(st)
  {
    && Allowed(st, e)
    && (e.EAck? ==> AcksQuietly(st, e.num))
    && (e.EDialInstall? ==> InstallsQuietly(st, e.gen))
    && !e.EFlush?
    && (e.EHandOver? ==> !IsLoc(e.bytes))
    && (Flushes(e) ==> (InvStep(flat, st, e); Room(Step(flat, st, e).s)))
  }

  ghost function Handle(flat: Flat, st: State, e: Event): State
    requires Inv(st) && HandlerAllowed(flat, st, e)
  {
    InvStep(flat, st, e);
    var r := Step(flat, st, e);
    if Flushes(e) then FlushAll(r)
    else if e.EPublish? then (BuiltGrows(flat, st, e); Transmit(r, |st.log.built|))
    else r
  }

  // ---- Each handler keeps the invariant ----

  /** An event that builds nothing and numbers nothing: it may clear the queue, end the session,
      open a new one, or leave the next number to send as it is. */
  ghost predicate Calm(st: State, r: State) {
    && r.log.names == st.log.names && r.log.emitted == st.log.emitted && r.log.built == st.log.built
    && (r.s.queue.staging == st.s.queue.staging || r.s.queue.staging == [])
    && (r.log.epoch == st.log.epoch || r.log.epoch == st.log.epoch + 1)
    && (r.log.sessionStart == |st.log.built| ||
        (r.log.sessionStart == st.log.sessionStart &&
         (!r.s.ready || (st.s.ready && r.log.epoch == st.log.epoch && NextToSend(r.s) == NextToSend(st.s)))))
    && (r.log.wire == st.log.wire ||
        exists gen: nat, b: seq<Byte> :: !IsLoc(b) && r.log.wire == st.log.wire + [Sent(gen, b)])
  }

  lemma CalmKeeps(st: State, r: State)
    requires Mid(st) && Inv(r) && Calm(st, r)
    ensures Mid(r)
  {
    hide NextToSend, Shape, Labelled, AllAgree, Conserved, Generations, Follows;
    CalmOrdered(st, r);
    CalmBackToBack(st, r);
    assert InWireOrder(r) by {
      if r.log.wire != st.log.wire {
        var gen: nat, b: seq<Byte> :| !IsLoc(b) && r.log.wire == st.log.wire + [Sent(gen, b)];
        assert r.log.wire[..|r.log.wire| - 1] == st.log.wire;
      }
    }
  }

  lemma CalmOrdered(st: State, r: State)
    requires Ordered(st) && Delivery(st) && Calm(st, r)
    ensures Ordered(r)
  {
    hide NextToSend, Shape, Labelled, AllAgree;
  }

  lemma CalmBackToBack(st: State, r: State)
    requires st.log.sessionStart <= |st.log.built| && BackToBack(st) && Calm(st, r)
    ensures BackToBack(r)
  {
    hide NextToSend, Follows;
    if r.log.sessionStart == |st.log.built| {
      assert SessionFrames(r.log) == [];
    } else {
      assert SessionFrames(r.log) == SessionFrames(st.log);
    }
  }

  /** An ack leaves the next number to send alone exactly when nothing is unsent or it lies below
      that number; else it moves the number up. */
  lemma AckKeepsNext(st: State, ack: nat)
    requires Shape(st.s.queue, st.s.lastAssigned) && ack < TWO32
    ensures NextToSend(Ack(st, ack).s) == NextToSend(st.s) <==> Unsent(st.s.queue.inflight) == [] || ack < NextToSend(st.s)
    ensures NextToSend(Ack(st, ack).s) >= NextToSend(st.s)
  {
    var q, last := st.s.queue, st.s.lastAssigned;
    var r := AckThrough(q, ack);
    AckTakes(st, ack);
    hide Unsent, Shape, AckThrough, High, NextToSend, Behind, Ack, Acked;
    AckKeepsShape(q, last, ack);
    NextIs(st.s);
    NextIs(Ack(st, ack).s);
    AckedHigh(q, last, ack);
    NextMoves(last, |q.inflight|, High(q.frames), Acked(q, last, ack), High(r.frames), ack);
  }

  lemma AckTakes(st: State, ack: nat)
    requires Shape(st.s.queue, st.s.lastAssigned) && ack < TWO32
    ensures var d, n := Acked(st.s.queue, st.s.lastAssigned, ack), |st.s.queue.inflight|;
            && Ack(st, ack).s.queue == AckThrough(st.s.queue, ack) && Ack(st, ack).s.lastAssigned == st.s.lastAssigned
            && d == (if ack <= st.s.lastAssigned - n then 0 else if ack >= st.s.lastAssigned then n else ack - (st.s.lastAssigned - n))
            && |AckThrough(st.s.queue, ack).inflight| == n - d
  {
    AckKeepsShape(st.s.queue, st.s.lastAssigned, ack);
    hide AckThrough, Held;
  }

  lemma NextIs(s: Session)
    requires Shape(s.queue, s.lastAssigned)
    ensures NextToSend(s) == s.lastAssigned + 1 - Behind(s.lastAssigned, |s.queue.inflight|, High(s.queue.frames))
    ensures High(s.queue.frames) <= s.lastAssigned
    ensures Unsent(s.queue.inflight) == [] <==> Behind(s.lastAssigned, |s.queue.inflight|, High(s.queue.frames)) == 0
  {
    UnsentCount(s.queue, s.lastAssigned);
    hide Shape, Unsent, High;
  }

  lemma AckedHigh(q: Buffer, last: nat, ack: nat)
    requires Shape(q, last)
    ensures |q.inflight| <= last && (q.inflight == [] ==> High(q.frames) == 0)
    ensures var r := AckThrough(q, ack);
            High(r.frames) == High(q.frames) || (High(r.frames) == 0 && High(q.frames) <= ack)
  {
    AckKeepsWindow(q, last, ack);
    hide FramesAbove, KeepAbove;
  }

  /** How many of the last `n` numbers frames up to `high` have not reached. */
  function Behind(last: nat, n: nat, high: nat): int {
    if high <= last - n then n else last - high
  }

  lemma NextMoves(last: nat, n: nat, high: nat, d: nat, high': nat, ack: nat)
    requires n <= last && high <= last && (n == 0 ==> high == 0)
    requires d == if ack <= last - n then 0 else if ack >= last then n else ack - (last - n)
    requires high' == high || (high' == 0 && high <= ack)
    ensures Behind(last, n - d, high') == Behind(last, n, high) <==> Behind(last, n, high) == 0 || ack < last + 1 - Behind(last, n, high)
    ensures Behind(last, n - d, high') <= Behind(last, n, high)
  {
  }

  lemma UnsentCount(q: Buffer, last: nat)
    requires Shape(q, last)
    ensures High(q.frames) <= last
    ensures |Unsent(q.inflight)| == if High(q.frames) <= last - |q.inflight| then |q.inflight| else last - High(q.frames)
  {
    UnsentIsSuffix(q, last);
    HighBelow(q, last);
    hide Unsent, Shape;
  }

  lemma CalmError(st: State, code: T.ErrorCode)
    ensures Calm(st, ErrorEvent(st, code))
  {
    ErrorKeepsLog(st, code);
    hide Calm, ErrorEvent;
    CalmEnd(st, ErrorEvent(st, code));
  }

  /** An error either drops the track or leaves queue and counter alone. */
  lemma ErrorKeepsLog(st: State, code: T.ErrorCode)
    ensures var r := ErrorEvent(st, code);
            && r.log == st.log.(discarded := r.log.discarded)
            && (r.s.queue.staging == st.s.queue.staging || r.s.queue.staging == [])
            && (r.s.ready ==> st.s.ready && r.s.queue == st.s.queue && r.s.lastAssigned == st.s.lastAssigned)
  {
    hide Held;
  }

  lemma NextOf(s: Session, t: Session)
    ensures t.queue == s.queue && t.lastAssigned == s.lastAssigned ==> NextToSend(t) == NextToSend(s)
  {
  }

  lemma CalmHandOver(st: State, bytes: seq<Byte>, alive: bool)
    requires !IsLoc(bytes)
    ensures Calm(st, HandOver(st, bytes, alive))
  {
    var r := HandOver(st, bytes, alive);
    hide NextToSend, IsLoc;
    NextOf(st.s, r.s);
    if r.log.wire != st.log.wire {
      assert !IsLoc(bytes) && r.log.wire == st.log.wire + [Sent(st.s.socket.value, bytes)];
    }
  }

  lemma CalmStep(flat: Flat, st: State, e: Event)
    requires Inv(st) && HandlerAllowed(flat, st, e) && !e.EPublish?
    ensures Calm(st, Step(flat, st, e))
  {
    assert Delivery(st) && Shape(st.s.queue, st.s.lastAssigned);
    hide Calm, Delivery, Inv, Shape, ErrorEvent, HandOver, Allowed, Ack, ResumeOk, TrackStarted, ManualResume, TrackStopped, StartBegin, AutoStart, SocketClosed;
    match e
    case EAck(num) => CalmAck(st, num);
    case EError(code) => CalmError(st, code);
    case EHandOver(bytes, alive) => CalmHandOver(st, bytes, alive);
    case EResumeOk(uid, ack) => CalmResets(st, uid, ack);
    case ETrackStarted(uid) => CalmResets(st, uid, 0);
    case EManualResume(uid, last) => CalmResets(st, uid, last);
    case ETrackStopped(uid) => CalmEnds(st, uid, 0, false);
    case EStartBegin => CalmEnds(st, NoUid, 0, false);
    case EAutoStart => CalmEnds(st, NoUid, 0, false);
    case ESocketClosed(gen, canReconnect) => CalmEnds(st, NoUid, gen, canReconnect);
    case _ => CalmQuiet(flat, st, e);
  }

  lemma CalmResets(st: State, uid: Uid, n: nat)
    ensures n < TWO32 ==> Calm(st, ResumeOk(st, uid, n))
    ensures Calm(st, TrackStarted(st, uid)) && Calm(st, ManualResume(st, uid, n))
  {
    hide Calm, KeepAbove, FramesAbove, Held;
    if n < TWO32 {
      CalmReset(st, ResumeOk(st, uid, n));
    }
    CalmReset(st, TrackStarted(st, uid));
    CalmReset(st, ManualResume(st, uid, n));
  }

  lemma CalmEnds(st: State, uid: Uid, gen: nat, canReconnect: bool)
    ensures Calm(st, TrackStopped(st, uid)) && Calm(st, StartBegin(st)) && Calm(st, AutoStart(st))
    ensures Calm(st, SocketClosed(st, gen, canReconnect))
  {
    hide Calm, Held, Exhausted, TrackStopped, StartBegin, AutoStart, SocketClosed;
    EndsQuietly(st, uid);
    ClosesQuietly(st, gen, canReconnect);
    CalmEnd(st, TrackStopped(st, uid));
    CalmEnd(st, StartBegin(st));
    CalmEnd(st, AutoStart(st));
    CalmEnd(st, SocketClosed(st, gen, canReconnect));
  }

  /** What an event leaves of history, Staging and counters when it may end the session. */
  ghost predicate EndsSession(st: State, r: State) {
    && r.log.names == st.log.names && r.log.emitted == st.log.emitted && r.log.built == st.log.built && r.log.wire == st.log.wire
    && (r.s.queue.staging == st.s.queue.staging || r.s.queue.staging == [])
    && (r.log.epoch == st.log.epoch || r.log.epoch == st.log.epoch + 1)
    && r.log.sessionStart == st.log.sessionStart
    && (r.s.ready ==> st.s.ready && r.log.epoch == st.log.epoch && r.s.queue == st.s.queue && r.s.lastAssigned == st.s.lastAssigned)
  }

  lemma EndsQuietly(st: State, uid: Uid)
    ensures EndsSession(st, TrackStopped(st, uid)) && EndsSession(st, StartBegin(st)) && EndsSession(st, AutoStart(st))
  {
    hide Held;
  }

  lemma ClosesQuietly(st: State, gen: nat, canReconnect: bool)
    ensures EndsSession(st, SocketClosed(st, gen, canReconnect))
  {
    hide Exhausted, MarkUnsent;
    assert MarkUnsent(st.s.queue).staging == st.s.queue.staging by {
      MarkKeepsStaging(st.s.queue);
    }
  }

  lemma MarkKeepsStaging(q: Buffer)
    ensures MarkUnsent(q).staging == q.staging
  {
  }

  lemma CalmQuiet(flat: Flat, st: State, e: Event)
    requires Shape(st.s.queue, st.s.lastAssigned) && Quiet(e) && !e.EHandOver?
    ensures Calm(st, Step(flat, st, e))
  {
    hide Calm, Shape, Step;
    QuietLeaves(flat, st, e);
    QuietWire(flat, st, e);
    CalmOther(st, Step(flat, st, e));
  }

  lemma QuietWire(flat: Flat, st: State, e: Event)
    requires Shape(st.s.queue, st.s.lastAssigned) && Quiet(e) && !e.EHandOver?
    ensures Step(flat, st, e).log.wire == st.log.wire
  {
    hide Shape, FlushPass, Publish, ErrorEvent, SocketClosed, TrackStopped, TrackStarted, StartBegin, AutoStart, Ack, ResumeOk,
      ManualResume, PickedOk, HandOver, Reset;
  }

  lemma CalmAck(st: State, num: U32)
    requires Shape(st.s.queue, st.s.lastAssigned)
    requires AcksQuietly(st, num)
    ensures Calm(st, Ack(st, num))
  {
    AckKeepsNext(st, num);
    hide NextToSend, Held, KeepAbove, FramesAbove, IsLoc;
  }

  /** A new session opens: nothing has been built in it. */
  lemma CalmReset(st: State, r: State)
    requires r.log.names == st.log.names && r.log.emitted == st.log.emitted && r.log.built == st.log.built && r.log.wire == st.log.wire
    requires r.s.queue.staging == st.s.queue.staging && r.log.sessionStart == |st.log.built|
    requires r.log.epoch == st.log.epoch || r.log.epoch == st.log.epoch + 1
    ensures Calm(st, r)
  {
  }

  /** The session ends, or nothing happened. */
  lemma CalmEnd(st: State, r: State)
    requires EndsSession(st, r)
    ensures Calm(st, r)
  {
    NextOf(st.s, r.s);
  }

  lemma CalmOther(st: State, r: State)
    requires r.log.names == st.log.names && r.log.emitted == st.log.emitted && r.log.built == st.log.built && r.log.wire == st.log.wire
    requires r.log.epoch == st.log.epoch && r.log.sessionStart == st.log.sessionStart
    requires r.s.queue == st.s.queue && r.s.lastAssigned == st.s.lastAssigned && (r.s.ready ==> st.s.ready)
    ensures Calm(st, r)
  {
    NextOf(st.s, r.s);
  }

  lemma DrainedStep(flat: Flat, st: State, e: Event)
    requires Inv(st) && HandlerAllowed(flat, st, e) && !e.EPublish? && !Flushes(e)
    requires Drained(st.s)
    ensures Drained(Step(flat, st, e).s)
  {
    assert Shape(st.s.queue, st.s.lastAssigned);
    hide Inv, Shape, Drained, ErrorEvent, TrackStopped, StartBegin, AutoStart, SocketClosed, Allowed, IsLoc;
    match e
    case EError(code) => DrainedError(st, code);
    case ETrackStopped(uid) => DrainedEnds(st, uid);
    case EStartBegin => DrainedEnds(st, NoUid);
    case EAutoStart => DrainedEnds(st, NoUid);
    case ESocketClosed(gen, canReconnect) => DrainedClosed(st, gen, canReconnect);
    case _ => DrainedQuiet(flat, st, e);
  }

  lemma DrainedEnds(st: State, uid: Uid)
    requires Drained(st.s)
    ensures Drained(TrackStopped(st, uid).s) && Drained(StartBegin(st).s) && Drained(AutoStart(st).s)
  {
    hide Unsent, Held, WindowFull;
  }

  lemma DrainedClosed(st: State, gen: nat, canReconnect: bool)
    requires Drained(st.s)
    ensures Drained(SocketClosed(st, gen, canReconnect).s)
  {
    hide Unsent, WindowFull, Exhausted, MarkUnsent;
  }

  lemma DrainedQuiet(flat: Flat, st: State, e: Event)
    requires Shape(st.s.queue, st.s.lastAssigned) && Drained(st.s)
    requires Quiet(e) || e.EManualResume?
    requires e.EDialInstall? ==> InstallsQuietly(st, e.gen)
    ensures Drained(Step(flat, st, e).s)
  {
    if e.EDialInstall? {
      hide Shape, Drained, InstallsQuietly;
      InstallKeepsDrained(st, e.gen);
    } else {
      hide Unsent, WindowFull, Shape, FlushPass, Publish, ErrorEvent, SocketClosed, TrackStopped, TrackStarted, StartBegin, AutoStart, Ack,
        ResumeOk, DialInstall, PickedOk;
    }
  }

  lemma DrainedError(st: State, code: T.ErrorCode)
    requires Drained(st.s)
    ensures Drained(ErrorEvent(st, code).s)
  {
    hide Unsent, Held;
  }

  // ---- Publishing ----

  lemma StagedKeeps(flat: Flat, st: State, point: LatLng)
    requires Settling(st) && Room(st.s) && !Live(st.s)
    ensures Settling(PublishStaged(st, flat, point))
  {
    var r := PublishStaged(st, flat, point);
    MidParts(st);
    PublishStep(flat, st, point);
    hide *;
    StagedQuiet(flat, st, point);
    StagedInOrder(flat, st, point);
    InvStep(flat, st, EPublish(point));
    MidSame(st, r);
  }

  lemma MidSame(st: State, r: State)
    requires Inv(r) && Ordered(r) && st.log.sessionStart <= |st.log.built| && BackToBack(st) && InWireOrder(st)
    requires r.s.queue.inflight == st.s.queue.inflight && r.s.queue.frames == st.s.queue.frames && r.s == st.s.(queue := r.s.queue)
    requires r.log.built == st.log.built && r.log.wire == st.log.wire && r.log.epoch == st.log.epoch
    requires r.log.sessionStart == st.log.sessionStart && !Live(st.s)
    ensures Settling(r)
  {
    hide Inv, Ordered, Unsent, Consecutive, Follows;
    assert NextToSend(r.s) == NextToSend(st.s);
    assert SessionFrames(r.log) == SessionFrames(st.log);
    assert BackToBack(r);
    assert InWireOrder(r);
    assert !Live(r.s);
  }

  lemma StagedQuiet(flat: Flat, st: State, point: LatLng)
    requires Shape(st.s.queue, st.s.lastAssigned)
    ensures var r := PublishStaged(st, flat, point);
            && r.s.queue.inflight == st.s.queue.inflight && r.s.queue.frames == st.s.queue.frames
            && r.s == st.s.(queue := r.s.queue)
            && r.log.built == st.log.built && r.log.wire == st.log.wire && r.log.epoch == st.log.epoch
            && r.log.sessionStart == st.log.sessionStart
  {
    var sample := Sample(st.log.emitted, point);
    PushStagingKeepsShape(flat, st.s.queue, st.s.lastAssigned, sample);
    PushKeepsFrames(flat, st.s.queue, sample);
    hide PushStaging, Held, Shape;
  }

  lemma PushKeepsFrames(flat: Flat, q: Buffer, s: Sample)
    ensures PushStaging(flat, q, s).frames == q.frames
  {
    CapKeepsNewest(flat, q.(staging := q.staging + [s]));
    hide EnforceCap, Subsequence;
  }

  /** A new point goes behind what waits, and thinning keeps the order. */
  lemma StagedInOrder(flat: Flat, st: State, point: LatLng)
    requires Ordered(st) && Delivery(st)
    ensures Ordered(PublishStaged(st, flat, point))
  {
    var sample := Sample(st.log.emitted, point);
    var p := st.s.queue.(staging := st.s.queue.staging + [sample]);
    assert Size(st.s.queue) <= st.s.queue.cap;
    DropOneWithout(flat, p);
    CapSingle(flat, p);
    var r := PublishStaged(st, flat, point);
    assert r.s.queue == EnforceCap(flat, p);
    hide Delivery, Held, DropOne, EnforceCap, PushStaging, Ordered;
    if Size(p) > p.cap {
      var k :| 0 <= k < |p.staging| && r.s.queue.staging == Without(p.staging, k);
      ThinnedInOrder(st, r, point, p.staging, k);
    } else {
      AppendedInOrder(st, r, point);
    }
  }

  lemma AppendedInOrder(st: State, r: State, point: LatLng)
    requires Ordered(st) && r.s.queue.staging == st.s.queue.staging + [Sample(st.log.emitted, point)]
    requires r.log.names == st.log.names && r.log.epoch == st.log.epoch && r.log.emitted == st.log.emitted + 1
    ensures Ordered(r)
  {
  }

  lemma ThinnedInOrder(st: State, r: State, point: LatLng, waiting: seq<Sample>, k: nat)
    requires Ordered(st) && waiting == st.s.queue.staging + [Sample(st.log.emitted, point)] && k < |waiting|
    requires r.s.queue.staging == Without(waiting, k)
    requires r.log.names == st.log.names && r.log.epoch == st.log.epoch && r.log.emitted == st.log.emitted + 1
    ensures Ordered(r)
  {
    var w := Without(waiting, k);
    assert forall i :: 0 <= i < |w| ==> w[i] == waiting[if i < k then i else i + 1];
    assert forall i, j :: 0 <= i < j < |waiting| ==> waiting[i].id < waiting[j].id;
    hide Without;
  }

  lemma DropOneWithout(flat: Flat, q: Buffer)
    requires q.staging != []
    ensures exists k :: 0 <= k < |q.staging| && DropOne(flat, q).staging == Without(q.staging, k)
  {
    var k := FirstFlat(flat, q.staging, 1);
    if k == |q.staging| {
      assert Without(q.staging, 0) == q.staging[1..];
    }
  }

  lemma LiveKeeps(flat: Flat, st: State, point: LatLng)
    requires Settling(st) && Room(st.s) && Live(st.s)
    ensures Settling(Transmit(PublishLive(st, flat, point), |st.log.built|))
  {
    var r := PublishLive(st, flat, point);
    MidParts(st);
    PublishStep(flat, st, point);
    hide *;
    LiveEmpties(flat, st, point);
    LiveInOrder(flat, st, point);
    LiveConsecutive(flat, st, point);
    LiveQuiet(flat, st, point);
    InvStep(flat, st, EPublish(point));
    InvParts(r);
    MidAfter(st, r);
    DrainedEmpty(Transmit(r, |st.log.built|), r);
  }

  lemma PublishStep(flat: Flat, st: State, point: LatLng)
    requires Shape(st.s.queue, st.s.lastAssigned) && Room(st.s)
    ensures Allowed(st, EPublish(point))
    ensures Step(flat, st, EPublish(point)) == if Live(st.s) then PublishLive(st, flat, point) else PublishStaged(st, flat, point)
  {
    hide Shape, Live, PublishLive, PublishStaged, Room;
  }

  lemma MidParts(st: State)
    requires Settling(st)
    ensures Inv(st) && Delivery(st) && Ordered(st) && BackToBack(st) && InWireOrder(st) && st.log.sessionStart <= |st.log.built| && Drained(st.s)
    ensures NamesBelow(st.log.names, st.log.epoch, st.s.lastAssigned) && Shape(st.s.queue, st.s.lastAssigned)
  {
    hide Conserved, Generations, Ordered, BackToBack, InWireOrder, Drained, Shape, NamesBelow, AllAgree, Labelled;
  }

  lemma InvParts(st: State)
    requires Inv(st)
    ensures Delivery(st) && Conserved(st) && Generations(st)
  {
  }

  lemma DrainedEmpty(t: State, r: State)
    requires Mid(t) && t.s == r.s && r.s.queue.staging == [] && Unsent(r.s.queue.inflight) == []
    ensures Settling(t)
  {
    hide Mid, Unsent;
  }

  lemma LiveQuiet(flat: Flat, st: State, point: LatLng)
    requires Live(st.s)
    ensures var r := PublishLive(st, flat, point);
            && st.s.ready && r.s.ready && r.s.socket.Some? && r.log.epoch == st.log.epoch
            && r.log.sessionStart == st.log.sessionStart && r.log.wire == st.log.wire
            && |st.log.built| <= |r.log.built| && Transmit(r, |st.log.built|).s == r.s
  {
    hide Enqueue, RecordFrame, Held, SingleBytes, FixOf, WindowFull;
  }

  /** A live publish happens with nothing waiting and leaves nothing waiting. */
  lemma LiveEmpties(flat: Flat, st: State, point: LatLng)
    requires Delivery(st) && Drained(st.s) && Room(st.s) && Live(st.s)
    ensures var r := PublishLive(st, flat, point);
            r.s.queue.staging == [] && Unsent(r.s.queue.inflight) == [] && st.s.queue.staging == [] && Unsent(st.s.queue.inflight) == []
  {
    hide *;
    DeliveryShape(st);
    LiveDrained(st.s);
    LiveEmptiesQueue(flat, st.s.queue, st.s.lastAssigned, Sample(st.log.emitted, point));
    LiveQueue(flat, st, point);
  }

  lemma LiveDrained(s: Session)
    requires Drained(s) && Live(s)
    ensures !WindowFull(s.queue) && s.queue.staging == [] && Unsent(s.queue.inflight) == []
  {
    hide Unsent;
  }

  lemma LiveQueue(flat: Flat, st: State, point: LatLng)
    ensures PublishLive(st, flat, point).s.queue
            == RecordFrame(Enqueue(flat, st.s.queue, st.s.lastAssigned + 1, Sample(st.log.emitted, point)), st.s.lastAssigned + 1)
  {
    hide Enqueue, RecordFrame, Held, SingleBytes, FixOf;
  }

  lemma LiveEmptiesQueue(flat: Flat, q: Buffer, last: nat, sample: Sample)
    requires Shape(q, last) && !WindowFull(q)
    ensures q.staging == [] ==> RecordFrame(Enqueue(flat, q, last + 1, sample), last + 1).staging == []
    ensures Unsent(RecordFrame(Enqueue(flat, q, last + 1, sample), last + 1).inflight) == []
  {
    LiveKeepsShape(flat, q, last, sample);
    if q.staging == [] {
      EnqueueLeavesStagingEmpty(flat, q, last + 1, sample);
    }
    NoneUnsentAtTop(RecordFrame(Enqueue(flat, q, last + 1, sample), last + 1), last + 1);
    hide Enqueue, Unsent, Shape, MarkThrough;
  }

  lemma EnqueueLeavesStagingEmpty(flat: Flat, q: Buffer, num: nat, sample: Sample)
    requires q.staging == []
    ensures Enqueue(flat, q, num, sample).staging == []
  {
    CapKeepsNewest(flat, q.(inflight := q.inflight + [Queued(num, sample, true)]));
    hide EnforceCap, Subsequence;
  }

  lemma NoneUnsentAtTop(q: Buffer, last: nat)
    requires Shape(q, last)
    ensures q.frames != [] && q.frames[|q.frames| - 1] == last ==> Unsent(q.inflight) == []
  {
    UnsentIsSuffix(q, last);
    hide Unsent, Shape;
  }

  lemma LiveInOrder(flat: Flat, st: State, point: LatLng)
    requires Ordered(st) && NamesBelow(st.log.names, st.log.epoch, st.s.lastAssigned)
    requires PublishLive(st, flat, point).s.queue.staging == []
    ensures Ordered(PublishLive(st, flat, point))
  {
    hide Enqueue, RecordFrame, Held, SingleBytes, FixOf;
  }

  lemma LiveConsecutive(flat: Flat, st: State, point: LatLng)
    requires var r := PublishLive(st, flat, point); Unsent(r.s.queue.inflight) == [] && Unsent(st.s.queue.inflight) == []
    ensures var r := PublishLive(st, flat, point);
            && st.log.built <= r.log.built
            && Consecutive(r.log.built[|st.log.built|..], st.log.epoch, NextToSend(st.s), NextToSend(r.s))
  {
    hide Enqueue, RecordFrame, Held, SingleBytes, FixOf, Unsent;
    var r := PublishLive(st, flat, point);
    assert r.log.built[|st.log.built|..] == [r.log.built[|st.log.built|]];
  }

  // ---- The invariant of handlers ----

  /** Every handler leaves the queue drained, points and numbers in emission order, the session's
      frames back to back, and the wire in the order of building. */
  lemma HandleKeeps(flat: Flat, st: State, e: Event)
    requires Settling(st) && HandlerAllowed(flat, st, e)
    ensures Settling(Handle(flat, st, e))
  {
    assert Inv(st) && Shape(st.s.queue, st.s.lastAssigned);
    InvStep(flat, st, e);
    BuiltGrows(flat, st, e);
    var r := Step(flat, st, e);
    hide Mid, Drained, Inv, Live, PublishLive, PublishStaged;
    if e.EPublish? {
      if Live(st.s) {
        LiveKeeps(flat, st, e.point);
      } else {
        StagedKeeps(flat, st, e.point);
        NothingNew(r, st);
      }
    } else {
      CalmStep(flat, st, e);
      CalmKeeps(st, r);
      if Flushes(e) {
        FlushAllKeeps(r);
      } else {
        DrainedStep(flat, st, e);
      }
    }
  }

  lemma NothingNew(r: State, st: State)
    requires r.log.built == st.log.built
    ensures Transmit(r, |st.log.built|) == r
  {
    if r.s.socket.Some? {
      assert r.log.wire + Outgoing(r.s.socket.value, r.log.built[|st.log.built|..]) == r.log.wire;
    }
  }

  // ---- Runs of handlers ----

  ghost predicate HandlersAllowed(flat: Flat, st: State, es: seq<Event>)
    requires Settling(st)
    decreases es
  {
    es == [] ||
    (HandlerAllowed(flat, st, es[0]) && (HandleKeeps(flat, st, es[0]); HandlersAllowed(flat, Handle(flat, st, es[0]), es[1..])))
  }

  ghost function HandleAll(flat: Flat, st: State, es: seq<Event>): (r: State)
    requires Settling(st) && HandlersAllowed(flat, st, es)
    ensures Settling(r)
    decreases es
  {
    if es == [] then st else
      HandleKeeps(flat, st, es[0]);
      HandleAll(flat, Handle(flat, st, es[0]), es[1..])
  }

  lemma InitialSettling(cap: nat, backoff: BackoffState)
    ensures Settling(Initial(cap, backoff))
  {
    InitialInv(cap, backoff);
    hide Inv;
  }

  /** In every state that handlers reach: InFlight followed by Staging is in emission order. */
  lemma QueueInEmissionOrder(st: State)
    requires Settling(st)
    ensures var ids := QueuedIds(st.s.queue.inflight) + SampleIds(st.s.queue.staging); Increasing(ids)
  {
    var inflight, staging, epoch := st.s.queue.inflight, st.s.queue.staging, st.log.epoch;
    var ids := QueuedIds(inflight) + SampleIds(staging);
    assert Labelled(inflight, epoch, st.log.names) && Contiguous(inflight, st.s.lastAssigned);
    hide Shape, Contiguous, NamesBelow, AllAgree, Conserved, Generations, BackToBack, InWireOrder;
    forall i, j | 0 <= i < j < |ids| ensures ids[i] < ids[j] {
      if j < |inflight| {
        NumbersRise(inflight, st.s.lastAssigned, i, j);
        assert Name(epoch, inflight[i].num) in st.log.names && Name(epoch, inflight[j].num) in st.log.names;
      } else if i < |inflight| {
        assert Name(epoch, inflight[i].num) in st.log.names;
      }
    }
  }

  lemma NumbersRise(inflight: seq<Queued>, last: nat, i: nat, j: nat)
    requires Contiguous(inflight, last) && i < j < |inflight|
    ensures inflight[i].num < inflight[j].num
  {
  }

  /** Numbers were handed out in emission order. */
  lemma NumbersInEmissionOrder(st: State, epoch: nat, a: nat, b: nat)
    requires Settling(st) && Name(epoch, a) in st.log.names && Name(epoch, b) in st.log.names
    ensures a < b <==> st.log.names[Name(epoch, a)].id < st.log.names[Name(epoch, b)].id
  {
    hide Inv, BackToBack, InWireOrder;
  }

  /** The Loc frames of a session have back-to-back ranges, and the writer got them in that order. */
  lemma SessionIsGapless(st: State, i: nat)
    requires Settling(st) && st.log.sessionStart <= i && i + 1 < |st.log.built|
    ensures st.log.built[i + 1].epoch == st.log.built[i].epoch
    ensures st.log.built[i + 1].last - st.log.built[i + 1].count == st.log.built[i].last
    ensures LocsOf(st.log.wire) == BytesOf(st.log.built)
  {
    hide Inv, Ordered;
    var bs := SessionFrames(st.log);
    assert Follows(bs, i - st.log.sessionStart);
  }

  /** A handler never evicts a point that was numbered but not sent. */
  lemma EvictedWasSent(flat: Flat, st: State, point: LatLng, k: nat)
    requires Settling(st) && Room(st.s)
    requires k < |st.s.queue.inflight|
    requires st.s.queue.inflight[k].sample.id !in Held(Publish(st, flat, point).s.queue)
    ensures st.s.queue.inflight[k].sent
  {
    assert Shape(st.s.queue, st.s.lastAssigned);
    if Live(st.s) {
      AllSent(st.s.queue, st.s.lastAssigned);
    } else {
      StagedHolds(flat, st, point, k);
      assert false;
    }
  }

  lemma StagedHolds(flat: Flat, st: State, point: LatLng, k: nat)
    requires Shape(st.s.queue, st.s.lastAssigned) && k < |st.s.queue.inflight|
    ensures st.s.queue.inflight[k].sample.id in Held(PublishStaged(st, flat, point).s.queue)
  {
    StagedQuiet(flat, st, point);
    var r := PublishStaged(st, flat, point);
    hide PublishStaged;
    assert QueuedIds(r.s.queue.inflight)[k] == st.s.queue.inflight[k].sample.id;
    assert st.s.queue.inflight[k].sample.id in multiset(QueuedIds(r.s.queue.inflight));
  }

  lemma AllSent(q: Buffer, last: nat)
    requires Shape(q, last) && Unsent(q.inflight) == []
    ensures forall k :: 0 <= k < |q.inflight| ==> q.inflight[k].sent
  {
    UnsentCount(q, last);
  }

  // ---- After a drop: coverage ----

  /** All that the socket's death leaves to do: nothing counts as sent. */
  lemma DropForgetsSends(st: State, canReconnect: bool)
    requires Delivery(st)
    ensures var r := SocketClosed(st, st.s.dialGen, canReconnect);
            && r.s.queue.frames == [] && Unsent(r.s.queue.inflight) == r.s.queue.inflight
            && Settled(r.s.queue, r.s.lastAssigned) == Settled(st.s.queue, st.s.lastAssigned)
            && QueuedIds(r.s.queue.inflight) == QueuedIds(st.s.queue.inflight)
            && r.s.trackUid == st.s.trackUid && !r.s.ready
  {
    MarkForgets(st.s.queue, st.s.lastAssigned);
    hide Unsent, Delivery, Exhausted, MarkUnsent, QueuedIds;
  }

  lemma MarkForgets(q: Buffer, last: nat)
    requires Shape(q, last)
    ensures var r := MarkUnsent(q);
            r.frames == [] && Unsent(r.inflight) == r.inflight && |r.inflight| == |q.inflight| && QueuedIds(r.inflight) == QueuedIds(q.inflight)
  {
    MarkUnsentKeepsShape(q, last);
    UnsentIsSuffix(MarkUnsent(q), last);
    hide Unsent, Shape;
  }

  /** With nothing counted as sent, a ResumeOk that covers at least what the client no longer holds
      is followed by frames that start right after it and run without a gap, until the window is
      full or nothing waits. */
  lemma ResumeCovers(flat: Flat, st: State, uid: Uid, ack: U32)
    requires Settling(st) && HandlerAllowed(flat, st, EResumeOk(uid, ack))
    requires st.s.queue.frames == []
    requires Settled(st.s.queue, st.s.lastAssigned) <= ack
    requires st.s.conn.Open? && st.s.socket.Some?
    ensures var r := Handle(flat, st, EResumeOk(uid, ack));
            && Settling(r) && r.log.sessionStart == |st.log.built|
            && Consecutive(SessionFrames(r.log), r.log.epoch, ack + 1, NextToSend(r.s))
            && (WindowFull(r.s.queue)
                || (NextToSend(r.s) == r.s.lastAssigned + 1 && r.s.queue.staging == [])
            )
  {
    var e := EResumeOk(uid, ack);
    var m := ResumeOk(st, uid, ack);
    ResumeOpens(flat, st, uid, ack);
    hide *;
    HandleKeeps(flat, st, e);
    FlushAllKeeps(m);
    CoversFromStart(m, FlushAll(m), ack + 1);
  }

  lemma ResumeOpens(flat: Flat, st: State, uid: Uid, ack: U32)
    requires Settling(st) && HandlerAllowed(flat, st, EResumeOk(uid, ack))
    requires st.s.queue.frames == [] && Settled(st.s.queue, st.s.lastAssigned) <= ack
    requires st.s.conn.Open? && st.s.socket.Some?
    ensures var m := ResumeOk(st, uid, ack);
            && Mid(m) && Room(m.s) && NextToSend(m.s) == ack + 1
            && m.s.ready && m.s.conn.Open? && m.s.socket.Some?
            && m.log.sessionStart == |st.log.built| == |m.log.built|
            && Handle(flat, st, EResumeOk(uid, ack)) == FlushAll(m)
  {
    var e := EResumeOk(uid, ack);
    assert Inv(st) && Shape(st.s.queue, st.s.lastAssigned);
    assert Step(flat, st, e) == ResumeOk(st, uid, ack);
    ResumeNext(st, uid, ack);
    InvStep(flat, st, e);
    CalmStep(flat, st, e);
    CalmKeeps(st, ResumeOk(st, uid, ack));
    hide Mid, Inv, Calm, Shape, Allowed, NextToSend, AckThrough, Held, Drained, Settled, FlushAll;
  }

  /** A flush at the start of a session covers what it sends from the number due. */
  lemma CoversFromStart(m: State, r: State, next: nat)
    requires FlushFacts(m, r) && FlushIdle(r.s) && NextToSend(m.s) == next
    requires m.s.ready && m.s.conn.Open? && m.s.socket.Some? && m.log.sessionStart == |m.log.built|
    ensures r.log.sessionStart == m.log.sessionStart <= |r.log.built|
    ensures Consecutive(SessionFrames(r.log), r.log.epoch, next, NextToSend(r.s))
    ensures WindowFull(r.s.queue) || (NextToSend(r.s) == r.s.lastAssigned + 1 && r.s.queue.staging == [])
  {
    hide Consecutive, Unsent;
  }

  lemma ResumeNext(st: State, uid: Uid, ack: U32)
    requires Shape(st.s.queue, st.s.lastAssigned) && st.s.queue.frames == []
    requires Settled(st.s.queue, st.s.lastAssigned) <= ack
    ensures NextToSend(ResumeOk(st, uid, ack).s) == ack + 1
  {
    var q, last := st.s.queue, st.s.lastAssigned;
    AckKeepsShape(q, last, ack);
    AckKeepsWindow(q, last, ack);
    var r := AckThrough(q, ack);
    UnsentCount(r, Max(last, ack));
    hide Unsent, Shape, KeepAbove, FramesAbove, Held, Increasing, Contiguous;
  }

  // ---- What the client no longer holds was acked or evicted ----

  /** The highest number an event acknowledges. */
  function AckOf(e: Event): nat {
    match e
    case EAck(num) => num
    case EResumeOk(_, ack) => ack
    case _ => 0
  }

  /** No numbered point fell to the cap in this step. */
  predicate SparesInflight(st: State, r: State) {
    r.s.lastAssigned - |r.s.queue.inflight| <= st.s.lastAssigned - |st.s.queue.inflight|
  }

  lemma SettledStep(flat: Flat, st: State, e: Event)
    requires Delivery(st) && Allowed(st, e) && KeepsTrack(st.s, e) && !st.s.trackUid.NoUid?
    requires e.EPublish? ==> SparesInflight(st, Step(flat, st, e))
    ensures var r := Step(flat, st, e);
            Settled(r.s.queue, r.s.lastAssigned) <= Max(Settled(st.s.queue, st.s.lastAssigned), AckOf(e))
  {
    assert Shape(st.s.queue, st.s.lastAssigned) && |st.s.queue.inflight| <= st.s.lastAssigned;
    hide Delivery, Shape, FlushPass, Publish, Allowed, Ack, ResumeOk, SocketClosed, Settled, Max;
    if e.EAck? {
      SettledAck(st, e.num, NoUid);
    } else if e.EResumeOk? {
      SettledAck(st, e.ack, e.uid);
    } else if e.EFlush? {
      SettledFlush(st);
      SettledWithin(st.s, FlushPass(st).s, 0);
    } else if e.EPublish? {
      SettledSpared(st, Publish(st, flat, e.point));
    } else if e.ESocketClosed? {
      SettledClosed(st, e.gen, e.canReconnect);
    } else {
      if Quiet(e) {
        SettledQuiet(flat, st, e);
      } else {
        SettledTrack(flat, st, e);
      }
      SettledWithin(st.s, Step(flat, st, e).s, 0);
    }
  }

  /** What a live track ignores: an answer for another track, an error that is not fatal to it, the
      automatic start. */
  lemma SettledTrack(flat: Flat, st: State, e: Event)
    requires Shape(st.s.queue, st.s.lastAssigned) && KeepsTrack(st.s, e) && !st.s.trackUid.NoUid?
    requires e.EError? || e.ETrackStopped? || e.EAutoStart?
    ensures Step(flat, st, e).s.lastAssigned == st.s.lastAssigned && Step(flat, st, e).s.queue == st.s.queue
  {
    hide Shape, FlushPass, Publish, SocketClosed, TrackStarted, StartBegin, Ack, ResumeOk, ManualResume, PickedOk, DropTrack, FreshTrack;
  }

  lemma SettledQuiet(flat: Flat, st: State, e: Event)
    requires Shape(st.s.queue, st.s.lastAssigned) && Quiet(e)
    ensures Step(flat, st, e).s.lastAssigned == st.s.lastAssigned && Step(flat, st, e).s.queue == st.s.queue
  {
    hide Shape, Step, Quiet;
    QuietLeaves(flat, st, e);
  }

  lemma SettledWithin(s: Session, t: Session, num: nat)
    requires Shape(s.queue, s.lastAssigned)
    ensures t.lastAssigned - |t.queue.inflight| == s.lastAssigned - |s.queue.inflight| ==>
              Settled(t.queue, t.lastAssigned) <= Max(Settled(s.queue, s.lastAssigned), num)
  {
    hide Shape;
  }

  lemma SettledSpared(st: State, r: State)
    requires Shape(st.s.queue, st.s.lastAssigned) && SparesInflight(st, r)
    ensures Settled(r.s.queue, r.s.lastAssigned) <= Max(Settled(st.s.queue, st.s.lastAssigned), 0)
  {
    hide Shape;
  }

  lemma SettledClosed(st: State, gen: nat, canReconnect: bool)
    requires Shape(st.s.queue, st.s.lastAssigned)
    ensures var r := SocketClosed(st, gen, canReconnect);
            Settled(r.s.queue, r.s.lastAssigned) <= Max(Settled(st.s.queue, st.s.lastAssigned), 0)
  {
    hide Shape, Exhausted;
  }

  lemma SettledAck(st: State, num: U32, uid: Uid)
    requires Shape(st.s.queue, st.s.lastAssigned)
    ensures forall r :: r == Ack(st, num) || r == ResumeOk(st, uid, num) ==>
              Settled(r.s.queue, r.s.lastAssigned) <= Max(Settled(st.s.queue, st.s.lastAssigned), num)
  {
    AckKeepsShape(st.s.queue, st.s.lastAssigned, num);
    assert |st.s.queue.inflight| <= st.s.lastAssigned;
    hide Shape, KeepAbove, FramesAbove, Held;
  }

  lemma SettledFlush(st: State)
    requires Delivery(st) && Room(st.s)
    ensures PickedOk(st.s)
    ensures Settled(FlushPass(st).s.queue, FlushPass(st).s.lastAssigned) == Settled(st.s.queue, st.s.lastAssigned)
  {
    PickedHasRoom(st.s);
    if !FlushIdle(st.s) {
      PickedCases(st.s);
      PassReaches(st);
      hide Delivery, FlushPass, Picked, Claimed, Sending, Unsent, Take, Shape, Joined, High, Number;
    }
  }

  // ---- A whole stretch of one track, with a drop in it ----

  lemma {:induction false} FlushAllSettled(st: State)
    requires Mid(st) && Room(st.s)
    ensures var r := FlushAll(st);
            && Settled(r.s.queue, r.s.lastAssigned) == Settled(st.s.queue, st.s.lastAssigned)
            && r.s.trackUid == st.s.trackUid && r.log.starts == st.log.starts
    decreases WindowRemaining(st.s.queue)
  {
    hide Settled, Ordered, BackToBack, InWireOrder, Conserved, Generations;
    if !FlushIdle(st.s) {
      PassWorks(st);
      Sent1(st);
      PassMid(st);
      SettledFlush(st);
      assert Shape(st.s.queue, st.s.lastAssigned);
      PassQuiet(st);
      hide FlushPass, FlushIdle, Delivery, Room, PassEffect, PickedOk, Shape;
      FlushAllSettled(Transmit(FlushPass(st), |st.log.built|));
    }
  }

  /** A handler on a live track: the same track afterwards, and what the client no longer holds was
      acked, unless the cap took it. */
  lemma HandlerSettles(flat: Flat, st: State, e: Event)
    requires Settling(st) && HandlerAllowed(flat, st, e) && KeepsTrack(st.s, e) && !st.s.trackUid.NoUid?
    requires e.EPublish? ==> SparesInflight(st, Handle(flat, st, e))
    ensures var r := Handle(flat, st, e);
            && Settled(r.s.queue, r.s.lastAssigned) <= Max(Settled(st.s.queue, st.s.lastAssigned), AckOf(e))
            && r.s.trackUid == st.s.trackUid && r.log.starts == st.log.starts
  {
    assert Inv(st) && Delivery(st) && Shape(st.s.queue, st.s.lastAssigned) && Allowed(st, e);
    InvStep(flat, st, e);
    BuiltGrows(flat, st, e);
    KeepsTrackStep(flat, st, e);
    var r := Step(flat, st, e);
    hide Settled, Max, Mid, Drained, Inv, Delivery, Shape, Step, KeepsTrack, Allowed, Calm, Room;
    SettledStep(flat, st, e);
    if Flushes(e) {
      CalmStep(flat, st, e);
      CalmKeeps(st, r);
      FlushAllSettled(r);
    }
  }

  /** `es` stays on one track; no numbered point falls to the cap; the server acknowledges nothing
      above `high`. */
  ghost predicate Stretch(flat: Flat, st: State, es: seq<Event>, high: nat)
    requires Settling(st) && HandlersAllowed(flat, st, es)
    decreases es
  {
    es == [] ||
    (&& KeepsTrack(st.s, es[0]) && AckOf(es[0]) <= high
     && (es[0].EPublish? ==> SparesInflight(st, Handle(flat, st, es[0])))
     && (HandleKeeps(flat, st, es[0]); Stretch(flat, Handle(flat, st, es[0]), es[1..], high)))
  }

  lemma {:induction false} StretchSettles(flat: Flat, st: State, es: seq<Event>, high: nat)
    requires Settling(st) && HandlersAllowed(flat, st, es) && Stretch(flat, st, es, high)
    requires !st.s.trackUid.NoUid? && Settled(st.s.queue, st.s.lastAssigned) <= high
    ensures var r := HandleAll(flat, st, es);
            && Settled(r.s.queue, r.s.lastAssigned) <= high
            && r.s.trackUid == st.s.trackUid && r.log.starts == st.log.starts
    decreases es
  {
    if es != [] {
      HandleKeeps(flat, st, es[0]);
      HandlerSettles(flat, st, es[0]);
      hide Settled, Settling, Handle, HandlerAllowed, KeepsTrack, AckOf, SparesInflight;
      StretchSettles(flat, Handle(flat, st, es[0]), es[1..], high);
    }
  }

  /** No session is open and no frame counts as sent. */
  predicate Down(s: Session) {
    !s.ready && s.queue.frames == []
  }

  lemma DownStep(flat: Flat, st: State, e: Event)
    requires Settling(st) && HandlerAllowed(flat, st, e) && KeepsTrack(st.s, e) && !st.s.trackUid.NoUid?
    requires Down(st.s) && !e.EResumeOk?
    ensures Down(Handle(flat, st, e).s)
  {
    assert Inv(st) && Delivery(st) && Shape(st.s.queue, st.s.lastAssigned);
    InvStep(flat, st, e);
    BuiltGrows(flat, st, e);
    DownLocked(flat, st, e);
    hide Mid, Drained, Shape, Allowed, Room, Step, Down, KeepsTrack, Transmit;
    var r := Step(flat, st, e);
    if e.EPublish? {
      TransmitKeeps(r, |st.log.built|);
    } else if Flushes(e) {
      assert Delivery(r) && e.EAck?;
      DownFlush(r);
    }
  }

  lemma TransmitKeeps(r: State, from: nat)
    requires from <= |r.log.built|
    ensures Transmit(r, from).s == r.s
  {
  }

  lemma DownLocked(flat: Flat, st: State, e: Event)
    requires Shape(st.s.queue, st.s.lastAssigned) && Allowed(st, e) && KeepsTrack(st.s, e) && !st.s.trackUid.NoUid?
    requires Down(st.s) && !e.EResumeOk? && !e.EFlush?
    ensures Down(Step(flat, st, e).s)
  {
    hide Shape, Allowed, Publish, PublishStaged, Ack, SocketClosed, ErrorEvent, TrackStopped, AutoStart;
    if Quiet(e) {
      SettledQuiet(flat, st, e);
      QuietNotReady(flat, st, e);
    } else if e.EPublish? {
      StagedQuiet(flat, st, e.point);
      StagedWhenDown(flat, st, e.point);
    } else if e.EAck? {
      DownAck(st, e.num);
    } else if e.ESocketClosed? {
      DownClosed(st, e.gen, e.canReconnect);
    } else {
      SettledTrack(flat, st, e);
      TrackNotReady(flat, st, e);
    }
  }

  lemma QuietNotReady(flat: Flat, st: State, e: Event)
    requires Shape(st.s.queue, st.s.lastAssigned) && Quiet(e)
    ensures Step(flat, st, e).s.ready ==> st.s.ready
  {
    hide Shape, Step, Quiet;
    QuietLeaves(flat, st, e);
  }

  lemma TrackNotReady(flat: Flat, st: State, e: Event)
    requires Shape(st.s.queue, st.s.lastAssigned) && (e.EError? || e.ETrackStopped? || e.EAutoStart?)
    ensures Step(flat, st, e).s.ready ==> st.s.ready
  {
    hide Shape, FlushPass, Publish, SocketClosed, TrackStarted, Ack, ResumeOk, ManualResume, PickedOk, Held;
  }

  lemma StagedWhenDown(flat: Flat, st: State, point: LatLng)
    requires !st.s.ready
    ensures Publish(st, flat, point) == PublishStaged(st, flat, point)
  {
    hide PublishStaged, PublishLive;
  }

  lemma DownAck(st: State, num: U32)
    requires Down(st.s)
    ensures Down(Ack(st, num).s)
  {
    hide Held, KeepAbove;
  }

  lemma DownFlush(st: State)
    requires Delivery(st) && Room(st.s) && Down(st.s)
    ensures FlushAll(st) == st
  {
    hide Delivery, Room, FlushPass;
  }

  lemma DownClosed(st: State, gen: nat, canReconnect: bool)
    requires Down(st.s)
    ensures Down(SocketClosed(st, gen, canReconnect).s)
  {
    hide Exhausted;
  }

  lemma {:induction false} StaysDown(flat: Flat, st: State, es: seq<Event>, high: nat)
    requires Settling(st) && HandlersAllowed(flat, st, es) && Stretch(flat, st, es, high)
    requires !st.s.trackUid.NoUid? && Settled(st.s.queue, st.s.lastAssigned) <= high
    requires Down(st.s) && forall e :: e in es ==> !e.EResumeOk?
    ensures Down(HandleAll(flat, st, es).s)
    decreases es
  {
    if es != [] {
      HandleKeeps(flat, st, es[0]);
      HandlerSettles(flat, st, es[0]);
      DownStep(flat, st, es[0]);
      hide Settled, Settling, Handle, HandlerAllowed, KeepsTrack, AckOf, SparesInflight, Down;
      StaysDown(flat, Handle(flat, st, es[0]), es[1..], high);
    }
  }

  // ---- The dial that asks to resume ----

  /** The dial under way gets through, and its task asks to resume the live track: the tail of
      dial_inner with one round of send_resume_and_wait (src/tracking/client.rs:381-387, 422-424, 740-751). */
  function Asks(st: State): State
    requires st.s.lastAssigned < TWO64
  {
    HandOver(ResumePrepare(DialInstall(st, st.s.dialGen)), M.EncodeClient(M.Resume(st.s.trackUid, st.s.lastAssigned)), true)
  }

  lemma ResumeIsNoLoc(uid: Uid, last: U64)
    ensures !IsLoc(M.EncodeClient(M.Resume(uid, last)))
  {
    hide UidBytes, PutU32;
  }

  /** A dial's install, the mark of the Resume it asks for, and a command on the wire are handlers. */
  lemma DialHandlers(flat: Flat, st: State, gen: nat, bytes: seq<Byte>)
    requires Settling(st)
    ensures InstallsQuietly(st, gen) ==> Settling(DialInstall(st, gen))
    ensures Settling(ResumePrepare(st))
    ensures !IsLoc(bytes) ==> Settling(HandOver(st, bytes, true))
  {
    MidParts(st);
    DialSteps(flat, st, gen, bytes);
    hide *;
    if InstallsQuietly(st, gen) {
      PlainHandler(flat, st, EDialInstall(gen), DialInstall(st, gen));
    }
    PlainHandler(flat, st, EResumePrepare, ResumePrepare(st));
    if !IsLoc(bytes) {
      PlainHandler(flat, st, EHandOver(bytes, true), HandOver(st, bytes, true));
    }
  }

  /** A handler that is one lock section. */
  lemma PlainHandler(flat: Flat, st: State, e: Event, r: State)
    requires Settling(st) && Shape(st.s.queue, st.s.lastAssigned) && Allowed(st, e) && Step(flat, st, e) == r
    requires e.EDialInstall? || e.EResumePrepare? || e.EHandOver?
    requires (e.EDialInstall? ==> InstallsQuietly(st, e.gen)) && (e.EHandOver? ==> !IsLoc(e.bytes))
    ensures Settling(r)
  {
    MidParts(st);
    hide Settling, Inv, Shape, Delivery, Step, Allowed, Room, IsLoc, InstallsQuietly;
    HandleKeeps(flat, st, e);
  }

  lemma DialSteps(flat: Flat, st: State, gen: nat, bytes: seq<Byte>)
    requires Shape(st.s.queue, st.s.lastAssigned)
    ensures Allowed(st, EDialInstall(gen)) && Step(flat, st, EDialInstall(gen)) == DialInstall(st, gen)
    ensures Allowed(st, EResumePrepare) && Step(flat, st, EResumePrepare) == ResumePrepare(st)
    ensures Allowed(st, EHandOver(bytes, true)) && Step(flat, st, EHandOver(bytes, true)) == HandOver(st, bytes, true)
  {
    hide Shape, DialInstall, ResumePrepare, HandOver;
  }

  /** While no session is open the dial's tail runs like any handlers. */
  lemma AsksSettles(flat: Flat, st: State)
    requires Settling(st) && !st.s.ready
    ensures st.s.lastAssigned < TWO32 && Settling(Asks(st))
  {
    NumbersLast(st);
    var gen, bytes := st.s.dialGen, M.EncodeClient(M.Resume(st.s.trackUid, st.s.lastAssigned));
    var a := DialInstall(st, gen);
    ResumeIsNoLoc(st.s.trackUid, st.s.lastAssigned);
    hide Settling, IsLoc, M.EncodeClient, DialInstall, ResumePrepare, HandOver;
    DialHandlers(flat, st, gen, bytes);
    DialHandlers(flat, a, gen, bytes);
    DialHandlers(flat, ResumePrepare(a), gen, bytes);
  }

  lemma NumbersLast(st: State)
    requires Settling(st)
    ensures st.s.lastAssigned < TWO32
  {
    MidParts(st);
    hide Settling, Inv, Shape, Labelled, NamesBelow, AllAgree;
  }

  /** What the ask does to a live track that is down: the new socket's wire gets the Resume of that
      track at the last number given out, and nothing else moves. */
  lemma AsksToResume(st: State)
    requires Down(st.s) && !st.s.trackUid.NoUid? && st.s.lastAssigned < TWO64
    requires st.s.dialGen in st.log.dials && !st.s.intentional
    ensures var r, gen := Asks(st), st.s.dialGen;
            && r.log.wire == st.log.wire + [Sent(gen, M.EncodeClient(M.Resume(st.s.trackUid, st.s.lastAssigned)))]
            && r.s.socket == Some(gen) && r.s.conn.Open? && r.s.resumeWait && Down(r.s)
            && r.s.queue == st.s.queue && r.s.lastAssigned == st.s.lastAssigned
            && r.s.trackUid == st.s.trackUid && r.log.starts == st.log.starts && r.log.built == st.log.built
  {
    hide M.EncodeClient, Reset;
  }

  /** A live track loses its socket. Whatever handlers ran before the drop and run after it, the
      track stays the same and no TrackStart is issued. The dial that gets through puts the Resume
      of that track on the new socket; and when the server answers it with an ack no lower than any
      it gave, and the cap took no numbered point, the frames that go out start right after that ack
      and run on without a gap until the window is full or nothing waits. */
  lemma DropResumeCovers(flat: Flat, st: State, before: seq<Event>, canReconnect: bool, waiting: seq<Event>, answering: seq<Event>,
                         uid: Uid, ack: U32, high: nat)
    requires Settling(st) && !st.s.trackUid.NoUid? && Settled(st.s.queue, st.s.lastAssigned) <= high <= ack
    requires HandlersAllowed(flat, st, before) && Stretch(flat, st, before, high)
    requires var d := Dropped(flat, st, before, canReconnect);
             && HandlersAllowed(flat, d, waiting) && Stretch(flat, d, waiting, high) && (forall e :: e in waiting ==> !e.EResumeOk?)
             && var w := HandleAll(flat, d, waiting);
                w.s.dialGen in w.log.dials && !w.s.intentional
    requires var w := HandleAll(flat, Dropped(flat, st, before, canReconnect), waiting);
             var n := Asking(flat, w);
             && HandlersAllowed(flat, n, answering) && Stretch(flat, n, answering, high) && (forall e :: e in answering ==> !e.EResumeOk?)
             && var u := HandleAll(flat, n, answering);
                && HandlerAllowed(flat, u, EResumeOk(uid, ack)) && KeepsTrack(u.s, EResumeOk(uid, ack))
                && u.s.conn.Open? && u.s.socket.Some?
    ensures var w := HandleAll(flat, Dropped(flat, st, before, canReconnect), waiting);
            var n := Asking(flat, w);
            var u := HandleAll(flat, n, answering);
            var r := Handle(flat, u, EResumeOk(uid, ack));
            && w.s.lastAssigned < TWO64
            && n.log.wire == w.log.wire + [Sent(w.s.dialGen, M.EncodeClient(M.Resume(st.s.trackUid, w.s.lastAssigned)))]
            && n.s.socket == Some(w.s.dialGen)
            && r.s.trackUid == st.s.trackUid && r.log.starts == st.log.starts
            && r.log.sessionStart == |u.log.built| <= |r.log.built|
            && Consecutive(SessionFrames(r.log), r.log.epoch, ack + 1, NextToSend(r.s))
            && (WindowFull(r.s.queue) || (NextToSend(r.s) == r.s.lastAssigned + 1 && r.s.queue.staging == []))
  {
    var d := Dropped(flat, st, before, canReconnect);
    var w := HandleAll(flat, d, waiting);
    var n := Asking(flat, w);
    hide *;
    DropSettles(flat, st, before, canReconnect, high);
    StretchSettles(flat, d, waiting, high);
    StaysDown(flat, d, waiting, high);
    NumbersLast(w);
    AskingDown(flat, w, high);
    AnsweredCovers(flat, n, answering, uid, ack, high);
  }

  /** The state after the dial's tail; see `Asks`. */
  ghost function Asking(flat: Flat, st: State): (r: State)
    requires Settling(st)
    ensures Settling(r)
  {
    if st.s.ready then st else
      AsksSettles(flat, st);
      Asks(st)
  }

  lemma AskingDown(flat: Flat, st: State, high: nat)
    requires Settling(st) && Down(st.s) && !st.s.trackUid.NoUid? && st.s.lastAssigned < TWO64
    requires st.s.dialGen in st.log.dials && !st.s.intentional && Settled(st.s.queue, st.s.lastAssigned) <= high
    ensures var r := Asking(flat, st);
            && r.log.wire == st.log.wire + [Sent(st.s.dialGen, M.EncodeClient(M.Resume(st.s.trackUid, st.s.lastAssigned)))]
            && r.s.socket == Some(st.s.dialGen) && Down(r.s)
            && Settled(r.s.queue, r.s.lastAssigned) <= high && r.s.trackUid == st.s.trackUid && r.log.starts == st.log.starts
  {
    AsksToResume(st);
    hide Settling, M.EncodeClient, Asks;
  }

  lemma DropSettles(flat: Flat, st: State, before: seq<Event>, canReconnect: bool, high: nat)
    requires Settling(st) && !st.s.trackUid.NoUid? && Settled(st.s.queue, st.s.lastAssigned) <= high
    requires HandlersAllowed(flat, st, before) && Stretch(flat, st, before, high)
    ensures var d := Dropped(flat, st, before, canReconnect);
            && Down(d.s) && Settled(d.s.queue, d.s.lastAssigned) <= high && d.s.trackUid == st.s.trackUid && d.log.starts == st.log.starts
  {
    var m := HandleAll(flat, st, before);
    StretchSettles(flat, st, before, high);
    DropStep(flat, m, canReconnect, high);
    hide Settled, Settling, Handle, HandleAll, HandlerAllowed, HandlersAllowed, Stretch, Down;
  }

  /** From a track that is down until its ResumeOk has been handled. */
  lemma AnsweredCovers(flat: Flat, n: State, answering: seq<Event>, uid: Uid, ack: U32, high: nat)
    requires Settling(n) && Down(n.s) && !n.s.trackUid.NoUid? && Settled(n.s.queue, n.s.lastAssigned) <= high <= ack
    requires HandlersAllowed(flat, n, answering) && Stretch(flat, n, answering, high) && (forall e :: e in answering ==> !e.EResumeOk?)
    requires var u := HandleAll(flat, n, answering);
             && HandlerAllowed(flat, u, EResumeOk(uid, ack)) && KeepsTrack(u.s, EResumeOk(uid, ack))
             && u.s.conn.Open? && u.s.socket.Some?
    ensures var u := HandleAll(flat, n, answering);
            var r := Handle(flat, u, EResumeOk(uid, ack));
            && r.s.trackUid == n.s.trackUid && r.log.starts == n.log.starts
            && r.log.sessionStart == |u.log.built| <= |r.log.built|
            && Consecutive(SessionFrames(r.log), r.log.epoch, ack + 1, NextToSend(r.s))
            && (WindowFull(r.s.queue) || (NextToSend(r.s) == r.s.lastAssigned + 1 && r.s.queue.staging == []))
  {
    var u := HandleAll(flat, n, answering);
    StretchSettles(flat, n, answering, high);
    StaysDown(flat, n, answering, high);
    HandlerSettles(flat, u, EResumeOk(uid, ack));
    ResumeCovers(flat, u, uid, ack);
    hide Settled, Settling, Handle, HandleAll, HandlerAllowed, HandlersAllowed, KeepsTrack, Stretch, Consecutive, WindowFull, NextToSend;
  }

  /** The state after `before` and the death of the socket then in use. */
  ghost function Dropped(flat: Flat, st: State, before: seq<Event>, canReconnect: bool): (r: State)
    requires Settling(st) && HandlersAllowed(flat, st, before)
    ensures Settling(r)
  {
    var m := HandleAll(flat, st, before);
    var e := ESocketClosed(m.s.dialGen, canReconnect);
    assert HandlerAllowed(flat, m, e);
    HandleKeeps(flat, m, e);
    Handle(flat, m, e)
  }

  lemma DropStep(flat: Flat, m: State, canReconnect: bool, high: nat)
    requires Settling(m) && Settled(m.s.queue, m.s.lastAssigned) <= high
    ensures var e := ESocketClosed(m.s.dialGen, canReconnect);
            && HandlerAllowed(flat, m, e)
            && (var d := Handle(flat, m, e);
                && Down(d.s) && Settled(d.s.queue, d.s.lastAssigned) <= high
                && d.s.trackUid == m.s.trackUid && d.log.starts == m.log.starts)
  {
    DropForgetsSends(m, canReconnect);
    hide Mid, Drained, Unsent, Exhausted, Settled, MarkUnsent;
    assert Shape(m.s.queue, m.s.lastAssigned);
  }

  // ---- A start is answered with nothing in flight ----

  /** No session is open and nothing is numbered. */
  predicate Unopened(s: Session) {
    !s.ready && s.queue.inflight == []
  }

  lemma UnopenedStep(flat: Flat, st: State, e: Event)
    requires Shape(st.s.queue, st.s.lastAssigned) && Unopened(st.s) && !e.EResumeOk? && !e.ETrackStarted?
    ensures Unopened(Step(flat, st, e).s)
  {
    hide Shape, Publish, PublishStaged, FlushPass, Ack, SocketClosed, ErrorEvent, TrackStopped, AutoStart, StartBegin, ManualResume;
    if Quiet(e) {
      SettledQuiet(flat, st, e);
      QuietNotReady(flat, st, e);
    } else if e.EPublish? {
      StagedQuiet(flat, st, e.point);
      StagedWhenDown(flat, st, e.point);
    } else if e.EFlush? {
      UnopenedFlush(st);
    } else if e.EAck? {
      UnopenedAck(st, e.num);
    } else if e.ESocketClosed? {
      UnopenedClosed(st, e.gen, e.canReconnect);
    } else {
      UnopenedTrack(flat, st, e);
    }
  }

  lemma UnopenedFlush(st: State)
    requires Shape(st.s.queue, st.s.lastAssigned) && Unopened(st.s)
    ensures PickedOk(st.s) && FlushPass(st) == st
  {
    PickedHasRoom(st.s);
    hide Shape, PickedOk, Picked;
  }

  lemma UnopenedAck(st: State, num: U32)
    requires Unopened(st.s)
    ensures Unopened(Ack(st, num).s)
  {
    hide Held, FramesAbove;
  }

  lemma UnopenedClosed(st: State, gen: nat, canReconnect: bool)
    requires Unopened(st.s)
    ensures Unopened(SocketClosed(st, gen, canReconnect).s)
  {
    hide Exhausted;
  }

  lemma UnopenedTrack(flat: Flat, st: State, e: Event)
    requires Shape(st.s.queue, st.s.lastAssigned) && Unopened(st.s)
    requires e.EError? || e.ETrackStopped? || e.EAutoStart? || e.EStartBegin? || e.EManualResume?
    ensures Unopened(Step(flat, st, e).s)
  {
    hide Shape, FlushPass, Publish, SocketClosed, TrackStarted, Ack, ResumeOk, PickedOk, Held;
  }

  /** From the moment a start is issued until the server answers, and as long as no ResumeOk comes in
      between, nothing is in flight: publishes only stage, flushes stay idle. So an answer to the one
      start that is outstanding then meets `StartedCleanly`. What a ResumeOk in between does, and
      when, is `Races.ResumeOpens`. */
  lemma {:induction false} NothingInFlightUntilAnswered(flat: Flat, st: State, es: seq<Event>)
    requires Inv(st) && RunAllowed(flat, st, es) && Unopened(st.s)
    requires forall e :: e in es ==> !e.EResumeOk? && !e.ETrackStarted?
    ensures Unopened(Run(flat, st, es).s) && StartedCleanly(Run(flat, st, es).s)
    decreases es
  {
    if es != [] {
      assert Shape(st.s.queue, st.s.lastAssigned);
      InvStep(flat, st, es[0]);
      UnopenedStep(flat, st, es[0]);
      hide Step, Inv, Allowed, Shape, Unopened, StartedCleanly;
      NothingInFlightUntilAnswered(flat, Step(flat, st, es[0]), es[1..]);
    }
  }

  lemma StartsUnopened(st: State)
    ensures Unopened(StartBegin(st).s) && (Idle(st.s) ==> Unopened(AutoStart(st).s))
  {
    hide Held;
  }
}
