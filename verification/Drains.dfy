/** How much one flush sends (src/tracking/client.rs:770-840), in terms of the points that wait and of
    ways to cut them into frames. */
module Drains {
  import opened Wrappers
  import opened Bytes
  import opened Points
  import opened Reading
  import opened Loc
  import opened Queue
  import opened Engine
  import opened Runs
  import opened Safety
  import opened Handlers

  // ---- Cutting points into frames ----

  /** The points can go in at most `n` frames: consecutive chunks of at most 100 points, neighbours
      within 16 bits of microdegrees. */
  ghost predicate FitsIn(fs: seq<Fix>, n: int) {
    exists ends :: IsSplit(fs, 0, ends) && |ends| <= n
  }

  lemma {:induction false} PiecesSplit(first: nat, fs: seq<Fix>, s: nat) returns (ends: seq<nat>)
    requires s <= |fs|
    ensures IsSplit(fs, s, ends) && |ends| == |Pieces(first, fs, s)|
    decreases |fs| - s
  {
    if s == |fs| {
      ends := [];
    } else {
      var e := ChunkEnd(fs, s, s + 1);
      var rest := PiecesSplit(first, fs, e);
      ends := [e] + rest;
      assert ends[1..] == rest;
    }
  }

  /** The splitter needs no more frames than fit, whatever the first number. */
  lemma FewestPieces(first: nat, fs: seq<Fix>, n: int)
    ensures FitsIn(fs, n) <==> |Pieces(first, fs, 0)| <= n
  {
    if FitsIn(fs, n) {
      var ends :| IsSplit(fs, 0, ends) && |ends| <= n;
      GreedyStaysAhead(first, fs, 0, 0, ends);
    } else {
      var ends := PiecesSplit(first, fs, 0);
    }
    hide Pieces;
  }

  lemma {:induction false} JoinedBounded(pieces: seq<Piece>, next: nat)
    requires Chained(pieces, next)
    ensures |Joined(pieces)| <= 100 * |pieces|
    decreases pieces
  {
    hide PieceBytes, Linked;
    if pieces != [] {
      JoinedBounded(pieces[1..], pieces[0].num + 1);
    }
  }

  /** Frames carry at most 100 points each, so `n` frames at most 100 * n. */
  lemma FitsBounded(fs: seq<Fix>, n: int)
    requires FitsIn(fs, n)
    ensures |fs| <= 100 * n
  {
    FewestPieces(0, fs, n);
    PiecesPartition(0, fs, 0);
    JoinedBounded(Pieces(0, fs, 0), 0);
    assert fs[0..] == fs;
    hide Pieces, FitsIn, Chained, Joined;
  }

  lemma {:induction false} JoinedConcat(x: seq<Piece>, y: seq<Piece>)
    ensures Joined(x + y) == Joined(x) + Joined(y)
    decreases x
  {
    if x == [] {
      assert x + y == y;
    } else {
      JoinedConcat(x[1..], y);
      assert (x + y)[1..] == x[1..] + y;
    }
  }

  lemma {:induction false} ChainedSuffix(pieces: seq<Piece>, next: nat, n: nat) returns (m: nat)
    requires Chained(pieces, next) && n <= |pieces|
    ensures Chained(pieces[n..], m)
    decreases n
  {
    hide PieceOk;
    if n == 0 {
      m := next;
      assert pieces[0..] == pieces;
    } else {
      m := ChainedSuffix(pieces[1..], pieces[0].num + 1, n - 1);
      assert pieces[1..][n - 1..] == pieces[n..];
    }
  }

  /** What a window of `n` frames takes of a chain: all of it exactly when it has at most `n` pieces. */
  lemma PrefixShort(pieces: seq<Piece>, next: nat, n: nat)
    requires Chained(pieces, next)
    ensures var sent := pieces[..Min(|pieces|, n)];
            && (|pieces| <= n ==> sent == pieces)
            && (|pieces| > n ==> |Joined(sent)| < |Joined(pieces)|)
  {
    if |pieces| > n {
      assert pieces == pieces[..n] + pieces[n..];
      JoinedConcat(pieces[..n], pieces[n..]);
      var m := ChainedSuffix(pieces, next, n);
      JoinedNonempty(pieces[n..], m);
      hide Chained, Joined;
    }
  }

  // ---- One pass ----

  function Places(ss: seq<Sample>): (fs: seq<Fix>)
    ensures |fs| == |ss|
  {
    seq(|ss|, i requires 0 <= i < |ss| => Quantise(ss[i].point))
  }

  /** The fixes of what is numbered and not sent, and of what is staged. */
  function UnsentFixes(s: Session): seq<Fix> {
    Fixes(Unsent(s.queue.inflight))
  }

  function StagedFixes(s: Session): seq<Fix> {
    Places(s.queue.staging)
  }

  /** Frames the pass would need. */
  function Needed(s: Session): nat
    requires HasRoom(Picked(s))
  {
    if Picked(s) == [] then 0 else |Pieces(FirstNum(Picked(s)), Fixes(Picked(s)), 0)|
  }

  ghost predicate PassDrains(s: Session, r: Session)
    requires HasRoom(Picked(s))
  {
    var rem := WindowRemaining(s.queue);
    && CanSend(r)
    && WindowRemaining(r.queue) == rem - Min(Needed(s), rem)
    && (Unsent(r.queue.inflight) == [] <==> Needed(s) <= rem)
    && r.queue.staging == if Unsent(s.queue.inflight) != [] then s.queue.staging else s.queue.staging[Take(s)..]
  }

  lemma PassUses(st: State)
    requires Delivery(st) && Room(st.s) && !FlushIdle(st.s)
    ensures PickedOk(st.s) && PassDrains(st.s, FlushPass(st).s)
  {
    PassWorks(st);
    PassNames(st);
    PassWindow(st);
    PassUnsent(st);
    hide Delivery, Room, FlushPass, Picked, Needed, Take, Unsent, PickedOk, Consecutive, NextToSend, Pieces;
  }

  lemma PassWindow(st: State)
    requires Delivery(st) && Room(st.s) && !FlushIdle(st.s)
    ensures PickedOk(st.s)
    ensures var rem := WindowRemaining(st.s.queue); WindowRemaining(FlushPass(st).s.queue) == rem - Min(Needed(st.s), rem)
  {
    DeliveryShape(st);
    PickedHasRoom(st.s);
    PassBuilds(st);
    ClaimedFrames(st.s);
    SendingIs(st.s);
    RecordAllCounts(Claimed(st.s).queue, Sending(st.s));
    hide Delivery, Room, Shape, FlushPass, Picked, Claimed, Sending, RecordAll, Unsent, Pieces, BuiltFrom, Chained, PickedOk;
  }

  lemma ClaimedFrames(s: Session)
    ensures Claimed(s).queue.frames == s.queue.frames
  {
    hide Unsent, Take, Number;
  }

  lemma SendingIs(s: Session)
    requires HasRoom(Picked(s)) && Picked(s) != []
    ensures Needed(s) == |Pieces(FirstNum(Picked(s)), Fixes(Picked(s)), 0)|
    ensures Sending(s) == Pieces(FirstNum(Picked(s)), Fixes(Picked(s)), 0)[..Min(Needed(s), WindowRemaining(s.queue))]
    ensures |Sending(s)| == Min(Needed(s), WindowRemaining(s.queue))
  {
    hide Picked, Pieces, Fixes;
  }

  lemma PassUnsent(st: State)
    requires Delivery(st) && Room(st.s) && !FlushIdle(st.s)
    ensures PickedOk(st.s)
    ensures Unsent(FlushPass(st).s.queue.inflight) == [] <==> Needed(st.s) <= WindowRemaining(st.s.queue)
  {
    DeliveryShape(st);
    PickedHasRoom(st.s);
    SendingIs(st.s);
    var picked, first := Picked(st.s), FirstNum(Picked(st.s));
    PiecesPartition(first, Fixes(picked), 0);
    assert Fixes(picked)[0..] == Fixes(picked);
    PrefixShort(Pieces(first, Fixes(picked), 0), first, WindowRemaining(st.s.queue));
    PassReaches(st);
    PickedStartsNext(st.s);
    hide Delivery, Room, Shape, FlushPass, Picked, Claimed, Sending, Unsent, Pieces, Fixes, Chained, Joined, High, Block, NextToSend;
    var r := FlushPass(st).s;
    NextAfter(r, first, |Joined(Sending(st.s))|);
    NextDueNow(r);
  }

  lemma NextDueNow(s: Session)
    ensures Unsent(s.queue.inflight) == [] <==> NextToSend(s) >= s.lastAssigned + 1
  {
    hide Unsent;
  }

  // ---- The whole flush ----

  ghost predicate Empty(s: Session) {
    s.queue.staging == [] && Unsent(s.queue.inflight) == []
  }

  /** Nothing waits, or the window is full: the flush stops here. */
  lemma StopsHere(st: State)
    requires Delivery(st) && Room(st.s) && (Empty(st.s) || WindowRemaining(st.s.queue) == 0)
    ensures FlushAll(st) == st
  {
    hide Delivery, Room, Unsent;
  }

  lemma NumberedFixes(s: Session)
    requires Unsent(s.queue.inflight) == []
    ensures Fixes(Picked(s)) == Places(s.queue.staging[..Take(s)])
  {
    hide Unsent, Take, Quantise;
  }

  /** Nothing numbered waits: one pass decides. */
  lemma StagedDrains(st: State)
    requires Delivery(st) && Room(st.s) && CanSend(st.s) && Unsent(st.s.queue.inflight) == []
    ensures Empty(FlushAll(st).s) <==> FitsIn(StagedFixes(st.s), WindowRemaining(st.s.queue))
  {
    var s, rem := st.s, WindowRemaining(st.s.queue);
    if rem == 0 {
      StopsHere(st);
      NothingFits(StagedFixes(s));
      hide Unsent, FlushAll, FitsIn;
    } else if s.queue.staging == [] {
      StopsHere(st);
      FitsNothing(rem);
      hide Unsent, FlushAll, FitsIn;
    } else {
      TakeSome(s);
      hide Unsent, FitsIn, FlushIdle, Picked, Needed, Pieces, Take, Delivery, Room, FlushAll;
      OnePassDecides(st);
    }
  }

  lemma TakeSome(s: Session)
    requires CanSend(s) && Unsent(s.queue.inflight) == [] && s.queue.staging != [] && WindowRemaining(s.queue) > 0
    ensures !FlushIdle(s) && Picked(s) != []
    ensures Take(s) == |s.queue.staging| || Take(s) == 100 * WindowRemaining(s.queue) < |s.queue.staging|
  {
    hide Unsent;
  }

  lemma NothingFits(fs: seq<Fix>)
    ensures FitsIn(fs, 0) <==> fs == []
  {
    FitsNothing(0);
    if FitsIn(fs, 0) {
      FitsBounded(fs, 0);
    }
    hide FitsIn;
  }

  lemma FitsNothing(n: nat)
    ensures FitsIn([], n)
  {
    assert IsSplit([], 0, []);
  }

  lemma OnePassDecides(st: State)
    requires Delivery(st) && Room(st.s) && CanSend(st.s) && Unsent(st.s.queue.inflight) == [] && !FlushIdle(st.s)
    requires Take(st.s) == |st.s.queue.staging| || Take(st.s) == 100 * WindowRemaining(st.s.queue) < |st.s.queue.staging|
    requires Picked(st.s) != []
    ensures Empty(FlushAll(st).s) <==> FitsIn(StagedFixes(st.s), WindowRemaining(st.s.queue))
  {
    hide *;
    FlushOnce(st);
    OnePassLeaves(st);
    if Take(st.s) == |st.s.queue.staging| {
      AllTaken(st);
    } else {
      SomeTaken(st);
    }
  }

  /** The pass, in terms of how many frames its points need. */
  lemma OnePassLeaves(st: State)
    requires Delivery(st) && Room(st.s) && Unsent(st.s.queue.inflight) == [] && !FlushIdle(st.s) && Picked(st.s) != []
    ensures PickedOk(st.s) && HasRoom(Picked(st.s))
    ensures var r, taken, rem := FlushPass(st).s, Places(st.s.queue.staging[..Take(st.s)]), WindowRemaining(st.s.queue);
            && (Unsent(r.queue.inflight) == [] <==> FitsIn(taken, rem))
            && (!FitsIn(taken, rem - 1) ==> WindowRemaining(r.queue) == 0)
            && r.queue.staging == st.s.queue.staging[Take(st.s)..]
  {
    PassUses(st);
    PickedHasRoom(st.s) by {
      DeliveryShape(st);
    }
    hide Delivery, Room, FlushPass, Picked, Unsent, Pieces, FitsIn, Take, FlushIdle, Fixes, Places, CanSend, Block, Claimed;
    SendingIs(st.s);
    NumberedFixes(st.s);
    FewestPieces(FirstNum(Picked(st.s)), Fixes(Picked(st.s)), WindowRemaining(st.s.queue));
    FewestPieces(FirstNum(Picked(st.s)), Fixes(Picked(st.s)), WindowRemaining(st.s.queue) - 1);
    hide Needed;
  }

  lemma AllTaken(st: State)
    requires HasRoom(Picked(st.s)) && Take(st.s) == |st.s.queue.staging|
    requires var r, taken, rem := FlushPass(st).s, Places(st.s.queue.staging[..Take(st.s)]), WindowRemaining(st.s.queue);
             && (Unsent(r.queue.inflight) == [] <==> FitsIn(taken, rem))
             && (!FitsIn(taken, rem - 1) ==> WindowRemaining(r.queue) == 0)
             && r.queue.staging == st.s.queue.staging[Take(st.s)..]
    requires |st.log.built| <= |FlushPass(st).log.built|
    ensures FitsIn(StagedFixes(st.s), WindowRemaining(st.s.queue)) <==> Empty(FlushPass(st).s)
    ensures Empty(FlushPass(st).s) || WindowRemaining(FlushPass(st).s.queue) == 0
  {
    assert st.s.queue.staging[..Take(st.s)] == st.s.queue.staging && st.s.queue.staging[Take(st.s)..] == [];
    hide FlushPass, FitsIn, Take, Unsent, Places, Picked, HasRoom, WindowRemaining;
    var taken := Places(st.s.queue.staging[..Take(st.s)]);
    var rem: int := WindowRemaining(st.s.queue);
    if FitsIn(taken, rem - 1) {
      FitsMore(taken, rem - 1);
    }
  }

  lemma FitsMore(fs: seq<Fix>, n: int)
    requires FitsIn(fs, n)
    ensures FitsIn(fs, n + 1)
  {
    var ends :| IsSplit(fs, 0, ends) && |ends| <= n;
    hide IsSplit;
  }

  lemma SomeTaken(st: State)
    requires HasRoom(Picked(st.s)) && Take(st.s) == 100 * WindowRemaining(st.s.queue) < |st.s.queue.staging|
    requires var r, taken, rem := FlushPass(st).s, Places(st.s.queue.staging[..Take(st.s)]), WindowRemaining(st.s.queue);
             && (!FitsIn(taken, rem - 1) ==> WindowRemaining(r.queue) == 0)
             && r.queue.staging == st.s.queue.staging[Take(st.s)..]
    requires !FlushIdle(st.s)
    ensures !FitsIn(StagedFixes(st.s), WindowRemaining(st.s.queue))
    ensures !Empty(FlushPass(st).s) && WindowRemaining(FlushPass(st).s.queue) == 0
  {
    assert WindowRemaining(st.s.queue) > 0;
    hide FlushPass, FitsIn, Take, Unsent, Picked, HasRoom, WindowRemaining, FlushIdle;
    TooMuch(StagedFixes(st.s), WindowRemaining(st.s.queue));
    TooMuchPart(Places(st.s.queue.staging[..Take(st.s)]), WindowRemaining(st.s.queue));
  }

  lemma TooMuch(fs: seq<Fix>, n: nat)
    requires |fs| > 100 * n
    ensures !FitsIn(fs, n)
  {
    if FitsIn(fs, n) {
      FitsBounded(fs, n);
    }
    hide FitsIn;
  }

  /** As many points as `n` full frames hold need at least `n` frames. */
  lemma TooMuchPart(fs: seq<Fix>, n: nat)
    requires |fs| == 100 * n && n > 0
    ensures !FitsIn(fs, n - 1)
  {
    TooMuch(fs, n - 1);
  }

  /** A pass that sends everything or fills the window is the whole flush, when nothing is left to number. */
  lemma FlushOnce(st: State)
    requires Delivery(st) && Room(st.s) && !FlushIdle(st.s)
    ensures PickedOk(st.s) && |st.log.built| <= |FlushPass(st).log.built|
    ensures var p := Transmit(FlushPass(st), |st.log.built|);
            && Delivery(p) && Room(p.s) && p.s == FlushPass(st).s && FlushAll(st) == FlushAll(p)
            && (Empty(p.s) || WindowRemaining(p.s.queue) == 0 ==> FlushAll(st) == p)
  {
    PassWorks(st);
    Sent1(st);
    var p := Transmit(FlushPass(st), |st.log.built|);
    TransmitKeeps(FlushPass(st), |st.log.built|);
    hide Delivery, Room, FlushPass, Consecutive, NextToSend, Unsent, Transmit, Picked, HasRoom, Block, Claimed, FlushIdle;
    if Empty(p.s) || WindowRemaining(p.s.queue) == 0 {
      StopsHere(p);
    }
  }

  /** For every state that may send: the flush leaves nothing staged and nothing unsent exactly when
      the points that wait, cut in any way into frames of at most 100 with fitting differences, need no
      more frames than the window has places: first those numbered and unsent, then those staged. */
  lemma FlushDrains(st: State)
    requires Delivery(st) && Room(st.s) && CanSend(st.s)
    ensures var r := FlushAll(st).s;
            r.queue.staging == [] && Unsent(r.queue.inflight) == []
            <==> exists e1, e2 :: IsSplit(UnsentFixes(st.s), 0, e1) && IsSplit(StagedFixes(st.s), 0, e2)
                                  && |e1| + |e2| <= WindowRemaining(st.s.queue)
  {
    FlushDrainsIn(st);
    hide FlushAll, Unsent, UnsentFixes, StagedFixes, WindowRemaining;
    BothFit(UnsentFixes(st.s), StagedFixes(st.s), WindowRemaining(st.s.queue));
  }

  ghost predicate BothFitIn(x: seq<Fix>, y: seq<Fix>, n: int) {
    exists k: nat :: FitsIn(x, k) && FitsIn(y, n - k)
  }

  lemma BothFit(x: seq<Fix>, y: seq<Fix>, n: int)
    ensures BothFitIn(x, y, n) <==> exists e1, e2 :: IsSplit(x, 0, e1) && IsSplit(y, 0, e2) && |e1| + |e2| <= n
  {
    if BothFitIn(x, y, n) {
      var k: nat :| FitsIn(x, k) && FitsIn(y, n - k);
      var e1 :| IsSplit(x, 0, e1) && |e1| <= k;
      var e2 :| IsSplit(y, 0, e2) && |e2| <= n - k;
    }
    if e1, e2 :| IsSplit(x, 0, e1) && IsSplit(y, 0, e2) && |e1| + |e2| <= n {
      assert FitsIn(x, |e1|) && FitsIn(y, n - |e1|);
    }
  }

  lemma FlushDrainsIn(st: State)
    requires Delivery(st) && Room(st.s) && CanSend(st.s)
    ensures Empty(FlushAll(st).s) <==> BothFitIn(UnsentFixes(st.s), StagedFixes(st.s), WindowRemaining(st.s.queue))
  {
    var s, rem := st.s, WindowRemaining(st.s.queue);
    hide Delivery, Room, CanSend, FitsIn, FlushAll, BothFitIn, WindowRemaining, Unsent;
    if Unsent(s.queue.inflight) == [] {
      StagedDrains(st);
      NoUnsentFixes(s);
      FirstFitsFree(StagedFixes(s), rem);
    } else if rem == 0 {
      StopsHere(st);
      NoRoomForBoth(s);
    } else {
      UnsentDrains(st);
    }
  }

  lemma NoUnsentFixes(s: Session)
    requires Unsent(s.queue.inflight) == []
    ensures UnsentFixes(s) == []
  {
    hide Unsent;
  }

  lemma FirstFitsFree(y: seq<Fix>, n: int)
    ensures BothFitIn([], y, n) <==> FitsIn(y, n)
  {
    FitsNothing(0);
    if BothFitIn([], y, n) {
      var k: nat :| FitsIn([], k) && FitsIn(y, n - k);
      FitsUpTo(y, n - k, n);
    }
    if FitsIn(y, n) {
      assert FitsIn([], 0) && FitsIn(y, n - 0);
    }
    hide FitsIn;
  }

  lemma FitsUpTo(fs: seq<Fix>, m: int, n: int)
    requires FitsIn(fs, m) && m <= n
    ensures FitsIn(fs, n)
  {
    var ends :| IsSplit(fs, 0, ends) && |ends| <= m;
    hide IsSplit;
  }

  lemma NoRoomForBoth(s: Session)
    requires Unsent(s.queue.inflight) != []
    ensures !BothFitIn(UnsentFixes(s), StagedFixes(s), 0)
  {
    hide Unsent;
    var x, y := UnsentFixes(s), StagedFixes(s);
    hide FitsIn;
    forall k: nat ensures !(FitsIn(x, k) && FitsIn(y, 0 - k)) {
      if FitsIn(x, k) && FitsIn(y, 0 - k) {
        FitsBounded(x, k);
        FitsBounded(y, 0 - k);
      }
    }
  }

  /** Numbered points wait: one pass for them, and what is left of the window for Staging. */
  lemma UnsentDrains(st: State)
    requires Delivery(st) && Room(st.s) && CanSend(st.s) && Unsent(st.s.queue.inflight) != [] && WindowRemaining(st.s.queue) != 0
    ensures Empty(FlushAll(st).s) <==> BothFitIn(UnsentFixes(st.s), StagedFixes(st.s), WindowRemaining(st.s.queue))
  {
    var s, rem := st.s, WindowRemaining(st.s.queue);
    UnsentPicked(s);
    PassUses(st);
    FlushOnce(st);
    FewestPicked(s);
    var p := Transmit(FlushPass(st), |st.log.built|);
    hide Delivery, Room, FlushPass, FlushAll, Picked, Unsent, FitsIn, Needed, FlushIdle, Take, Transmit, Fixes, CanSend, Block, Claimed,
      BothFitIn, WindowRemaining;
    SplitWindow(UnsentFixes(s), StagedFixes(s), Needed(s), rem);
    if Needed(s) <= rem {
      StagedDrains(p);
      assert StagedFixes(p.s) == StagedFixes(s);
    }
  }

  lemma UnsentPicked(s: Session)
    requires CanSend(s) && Unsent(s.queue.inflight) != [] && WindowRemaining(s.queue) != 0
    ensures Picked(s) == Unsent(s.queue.inflight) && !FlushIdle(s)
  {
    hide Unsent;
  }

  lemma FewestPicked(s: Session)
    requires HasRoom(Picked(s)) && Picked(s) == Unsent(s.queue.inflight) && Picked(s) != []
    ensures forall n :: FitsIn(UnsentFixes(s), n) <==> Needed(s) <= n
  {
    SendingIs(s);
    hide Picked, Unsent, FitsIn, Pieces, Fixes;
    forall n ensures FitsIn(UnsentFixes(s), n) <==> Needed(s) <= n {
      FewestPieces(FirstNum(Picked(s)), Fixes(Picked(s)), n);
    }
  }

  lemma SplitWindow(x: seq<Fix>, y: seq<Fix>, needed: nat, n: int)
    requires forall k :: FitsIn(x, k) <==> needed <= k
    ensures BothFitIn(x, y, n) <==> FitsIn(y, n - needed)
    ensures needed > n ==> !FitsIn(y, n - needed)
  {
    if BothFitIn(x, y, n) {
      var k: nat :| FitsIn(x, k) && FitsIn(y, n - k);
      FitsUpTo(y, n - k, n - needed);
    }
    if FitsIn(y, n - needed) {
      FitsBounded(y, n - needed);
      assert FitsIn(x, needed);
    }
    hide FitsIn;
  }

  /** What one flush numbers: at most 100 points for each free place of the window. */
  lemma {:induction false} FlushNumbersAtMost(st: State)
    requires Delivery(st) && Room(st.s)
    ensures FlushAll(st).s.lastAssigned <= st.s.lastAssigned + 100 * WindowRemaining(st.s.queue)
    decreases WindowRemaining(st.s.queue)
  {
    if !FlushIdle(st.s) {
      FlushOnce(st);
      PassUses(st);
      PassNumbers(st);
      var p := Transmit(FlushPass(st), |st.log.built|);
      Sent1(st);
      hide Delivery, Room, FlushPass, Transmit, Unsent, Picked, FlushIdle, Take, HasRoom, Block, Claimed;
      FlushNumbersAtMost(p);
      NumbersBound(st.s, p.s);
    }
  }

  lemma PassNumbers(st: State)
    requires Delivery(st) && Room(st.s) && !FlushIdle(st.s)
    ensures PickedOk(st.s)
    ensures FlushPass(st).s.lastAssigned == st.s.lastAssigned + (if Unsent(st.s.queue.inflight) != [] then 0 else Take(st.s))
    ensures Unsent(st.s.queue.inflight) == [] ==> Take(st.s) == |Picked(st.s)|
  {
    PickedHasRoom(st.s) by {
      DeliveryShape(st);
    }
    PickedCases(st.s);
    hide Delivery, Room, Unsent, Sending, RecordAll, Take, Picked, Number, NewNames, BuiltFrom;
  }

  lemma NeededBound(s: Session)
    requires HasRoom(Picked(s))
    ensures |Picked(s)| <= 100 * Needed(s)
  {
    if Picked(s) != [] {
      SendingIs(s);
      FewestPieces(FirstNum(Picked(s)), Fixes(Picked(s)), Needed(s));
      FitsBounded(Fixes(Picked(s)), Needed(s));
    }
    hide Picked, Needed, FitsIn;
  }

  /** A place of the window pays for at most 100 new numbers. */
  lemma NumbersBound(s: Session, r: Session)
    requires HasRoom(Picked(s)) && PassDrains(s, r)
    requires Unsent(s.queue.inflight) == [] ==> Take(s) == |Picked(s)|
    requires r.lastAssigned == s.lastAssigned + (if Unsent(s.queue.inflight) != [] then 0 else Take(s))
    ensures r.lastAssigned + 100 * WindowRemaining(r.queue) <= s.lastAssigned + 100 * WindowRemaining(s.queue)
  {
    NeededBound(s);
    TakeBound(s);
    hide Unsent, Picked, Needed, Take, WindowRemaining;
  }

  lemma TakeBound(s: Session)
    ensures Take(s) <= 100 * WindowRemaining(s.queue)
  {
  }

  // ---- A flush changes no point ----

  function SamplesOf(qs: seq<Queued>): (r: seq<Sample>)
    ensures |r| == |qs|
  {
    seq(|qs|, i requires 0 <= i < |qs| => qs[i].sample)
  }

  /** Everything the client holds, the oldest first. */
  function Waiting(q: Buffer): seq<Sample> {
    SamplesOf(q.inflight) + q.staging
  }

  lemma {:induction false} RecordKeepsSamples(q: Buffer, pieces: seq<Piece>)
    ensures Waiting(RecordAll(q, pieces)) == Waiting(q)
    decreases pieces
  {
    if pieces != [] {
      var r := RecordFrame(q, pieces[0].num % TWO32);
      assert SamplesOf(r.inflight) == SamplesOf(q.inflight);
      RecordKeepsSamples(r, pieces[1..]);
    }
  }

  lemma AssignKeepsSamples(q: Buffer, n: nat, next: nat)
    requires n <= |q.staging|
    ensures Waiting(Assign(q, n, next)) == Waiting(q)
  {
    var moved := Number(q.staging[..n], next);
    assert SamplesOf(q.inflight + moved) == SamplesOf(q.inflight) + SamplesOf(moved);
    assert SamplesOf(moved) == q.staging[..n] && q.staging == q.staging[..n] + q.staging[n..];
  }

  lemma PassKeepsPoints(st: State)
    requires Delivery(st) && Room(st.s) && !FlushIdle(st.s)
    ensures PickedOk(st.s) && Waiting(FlushPass(st).s.queue) == Waiting(st.s.queue)
  {
    DeliveryShape(st);
    PickedHasRoom(st.s);
    PassBuilds(st);
    PickedCases(st.s);
    RecordKeepsSamples(Claimed(st.s).queue, Sending(st.s));
    AssignKeepsSamples(st.s.queue, Take(st.s), st.s.lastAssigned);
    hide Delivery, Room, Shape, FlushPass, FlushIdle, Picked, Claimed, Sending, RecordAll, Assign, Unsent, Take, BuiltFrom, Chained, Waiting, PickedOk;
  }

  /** A flush gives numbers and sends, but the points stay what they are and in their order. */
  lemma {:induction false} FlushKeepsPoints(st: State)
    requires Delivery(st) && Room(st.s)
    ensures Waiting(FlushAll(st).s.queue) == Waiting(st.s.queue)
    decreases WindowRemaining(st.s.queue)
  {
    if !FlushIdle(st.s) {
      FlushOnce(st);
      PassKeepsPoints(st);
      Sent1(st);
      hide Delivery, Room, FlushPass, Transmit, Unsent, Picked, FlushIdle, HasRoom, Block, Claimed, Waiting;
      FlushKeepsPoints(Transmit(FlushPass(st), |st.log.built|));
    }
  }

  /** A publish adds its point as the newest, whatever the cap takes: live it is in flight, else it is
      staged, unless what is in flight already fills the cap. */
  lemma PublishHolds(flat: Flat, st: State, point: LatLng)
    requires Delivery(st) && Room(st.s)
    ensures var q, x := Publish(st, flat, point).s.queue, Sample(st.log.emitted, point);
            if Live(st.s) then q.inflight != [] && q.inflight[|q.inflight| - 1] == Queued(st.s.lastAssigned + 1, x, true)
            else if |st.s.queue.inflight| == q.cap then q.staging == [] && q.inflight == st.s.queue.inflight
            else q.staging != [] && q.staging[|q.staging| - 1] == x && q.inflight == st.s.queue.inflight
  {
    DeliveryShape(st);
    hide Delivery, Room, Shape, Live, PublishLive, PublishStaged;
    if Live(st.s) {
      LivePoint(flat, st, point);
    } else {
      StagedPoint(flat, st, point);
    }
  }

  lemma LivePoint(flat: Flat, st: State, point: LatLng)
    requires Shape(st.s.queue, st.s.lastAssigned) && Live(st.s)
    ensures var q := PublishLive(st, flat, point).s.queue;
            q.inflight != [] && q.inflight[|q.inflight| - 1] == Queued(st.s.lastAssigned + 1, Sample(st.log.emitted, point), true)
  {
    LiveKeepsShape(flat, st.s.queue, st.s.lastAssigned, Sample(st.log.emitted, point));
    LiveQueue(flat, st, point);
    hide Shape, Enqueue, PublishLive;
  }

  lemma StagedPoint(flat: Flat, st: State, point: LatLng)
    requires Shape(st.s.queue, st.s.lastAssigned)
    ensures var q, x := PublishStaged(st, flat, point).s.queue, Sample(st.log.emitted, point);
            && q.inflight == st.s.queue.inflight
            && if |q.inflight| == q.cap then q.staging == [] else q.staging != [] && q.staging[|q.staging| - 1] == x
  {
    var p := st.s.queue.(staging := st.s.queue.staging + [Sample(st.log.emitted, point)]);
    StagedQuiet(flat, st, point);
    CapKeepsNewest(flat, p);
    hide EnforceCap, Subsequence, Held, Contiguous, Increasing, High;
    assert PublishStaged(st, flat, point).s.queue == EnforceCap(flat, p);
  }

  // ---- In plain numbers ----

  /** Neighbours at most 0.032767 degrees apart, as the wire rounds them. */
  ghost predicate ShortHops(ss: seq<Sample>) {
    forall i :: 0 < i < |ss| ==>
      var p, q := Quantise(ss[i - 1].point), Quantise(ss[i].point);
      -32_768 <= q.lat - p.lat <= 32_767 && -32_768 <= q.lon - p.lon <= 32_767
  }

  lemma {:induction false} EvenSplit(ss: seq<Sample>, s: nat) returns (ends: seq<nat>)
    requires ShortHops(ss) && s <= |ss|
    ensures IsSplit(Places(ss), s, ends) && |ends| <= (|ss| - s + 99) / 100
    decreases |ss| - s
  {
    if s == |ss| {
      ends := [];
    } else {
      var e := if |ss| - s <= 100 then |ss| else s + 100;
      forall i | s < i < e ensures DeltaFits(PlaceOf(Places(ss)[i - 1]), PlaceOf(Places(ss)[i])) {
        assert Places(ss)[i - 1] == Quantise(ss[i - 1].point) && Places(ss)[i] == Quantise(ss[i].point);
      }
      var rest := EvenSplit(ss, e);
      ends := [e] + rest;
      assert ends[1..] == rest;
    }
  }

  /** With nothing in the window, up to 800 points on short hops leave in one flush. */
  lemma EightHundredDrain(st: State)
    requires Delivery(st) && Room(st.s) && CanSend(st.s) && st.s.queue.frames == [] && st.s.queue.inflight == []
    requires |st.s.queue.staging| <= 800 && ShortHops(st.s.queue.staging)
    ensures var r := FlushAll(st).s; r.queue.staging == [] && Unsent(r.queue.inflight) == []
  {
    var e2 := EvenSplit(st.s.queue.staging, 0);
    assert IsSplit(UnsentFixes(st.s), 0, []);
    hide FlushAll, Delivery, Room, CanSend, Unsent, IsSplit;
    FlushDrains(st);
    var e1: seq<nat> := [];
    assert |e1| + |e2| <= 8;
  }
}
