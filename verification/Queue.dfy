/** The offline queue (src/tracking/queue.rs): Staging holds filtered points without a number,
    InFlight holds numbered points that wait for an Ack, and the frame list is the send window.

    `Buffer` and the functions on it say what each operation does; class `OfflineQueue` does it in
    place. The geometry of `collapse_one_collinear` enters as a predicate, so every statement holds
    for any notion of "collinear enough". */
module Queue {
  import opened Points

  const DEFAULT_MAX_QUEUE: nat := 10_000
  const MAX_UNACKED_FRAMES: nat := 8

  /** A filtered point. `id` counts emissions: no branch reads it and it never travels; it only
      lets a statement follow one point through the queue. */
  datatype Sample = Sample(id: nat, point: LatLng)

  datatype Queued = Queued(num: nat, sample: Sample, sent: bool)

  datatype Buffer = Buffer(cap: nat, staging: seq<Sample>, inflight: seq<Queued>, frames: seq<nat>)

  /** `flat(a, b, p)`: `p` is close enough to the line from `a` to `b` to be dropped. */
  type Flat = (LatLng, LatLng, LatLng) -> bool

  function Size(q: Buffer): nat {
    |q.staging| + |q.inflight|
  }

  // ---- The cap ----

  /** First inner point at or after `i` that lies on the line through its neighbours, else |s|. */
  function FirstFlat(flat: Flat, s: seq<Sample>, i: nat): (k: nat)
    requires 1 <= i
    ensures k == |s| || (i <= k < |s| - 1 && flat(s[k - 1].point, s[k + 1].point, s[k].point))
    decreases |s| - i
  {
    if i + 1 >= |s| then |s|
    else if flat(s[i - 1].point, s[i + 1].point, s[i].point) then i
    else FirstFlat(flat, s, i + 1)
  }

  function Without<T>(s: seq<T>, k: nat): seq<T>
    requires k < |s|
  {
    s[..k] + s[k + 1..]
  }

  /** One pass of the cap loop: a collinear staging point, else the oldest staging point, else the
      oldest InFlight point. */
  function DropOne(flat: Flat, q: Buffer): (r: Buffer)
    requires Size(q) > 0
    ensures Size(r) == Size(q) - 1 && r.cap == q.cap && r.frames == q.frames
  {
    var k := FirstFlat(flat, q.staging, 1);
    if k < |q.staging| then q.(staging := Without(q.staging, k))
    else if q.staging != [] then q.(staging := q.staging[1..])
    else q.(inflight := q.inflight[1..])
  }

  /** Some inner staging point lies on the line through its neighbours. */
  predicate FlatAt(flat: Flat, s: seq<Sample>, k: int) {
    1 <= k < |s| - 1 && flat(s[k - 1].point, s[k + 1].point, s[k].point)
  }

  lemma {:induction false} FirstFlatIsLeast(flat: Flat, s: seq<Sample>, i: nat)
    requires 1 <= i
    ensures var k := FirstFlat(flat, s, i);
            && (k < |s| ==> FlatAt(flat, s, k))
            && (forall j :: i <= j < k ==> !FlatAt(flat, s, j))
    decreases |s| - i
  {
    if i + 1 < |s| && !flat(s[i - 1].point, s[i + 1].point, s[i].point) {
      FirstFlatIsLeast(flat, s, i + 1);
    }
  }

  /** Which point one pass of the cap loop takes: from Staging the first inner one on the line through
      its neighbours, or the oldest when there is none; from InFlight the oldest, when Staging is empty. */
  lemma DropOneTakes(flat: Flat, q: Buffer, k: nat)
    requires k < |q.staging| && (FlatAt(flat, q.staging, k) || (k == 0 && forall j :: !FlatAt(flat, q.staging, j)))
    requires forall j :: 0 <= j < k ==> !FlatAt(flat, q.staging, j)
    ensures DropOne(flat, q) == q.(staging := q.staging[..k] + q.staging[k + 1..])
  {
    FirstFlatIsLeast(flat, q.staging, 1);
  }

  lemma DropOneInflight(flat: Flat, q: Buffer)
    requires q.staging == [] && q.inflight != []
    ensures DropOne(flat, q) == q.(inflight := q.inflight[1..])
  {
  }

  function EnforceCap(flat: Flat, q: Buffer): Buffer
    decreases Size(q)
  {
    if Size(q) <= q.cap then q else EnforceCap(flat, DropOne(flat, q))
  }

  /** `a` is `b` with some elements left out. */
  ghost predicate Subsequence<T>(a: seq<T>, b: seq<T>)
    decreases b
  {
    a == [] || (b != [] && (Subsequence(a, b[1..]) || (a[0] == b[0] && Subsequence(a[1..], b[1..]))))
  }

  lemma {:induction false} SubsequenceRefl<T>(a: seq<T>)
    ensures Subsequence(a, a)
    decreases a
  {
    if a != [] {
      SubsequenceRefl(a[1..]);
    }
  }

  lemma {:induction false} SubsequenceWithout<T>(a: seq<T>, k: nat)
    requires k < |a|
    ensures Subsequence(Without(a, k), a)
    decreases a
  {
    if k == 0 {
      SubsequenceRefl(a[1..]);
      assert Without(a, 0) == a[1..];
    } else {
      SubsequenceWithout(a[1..], k - 1);
      assert Without(a, k)[1..] == Without(a[1..], k - 1);
    }
  }

  lemma {:induction false} SubsequenceTrans<T>(a: seq<T>, b: seq<T>, c: seq<T>)
    requires Subsequence(a, b) && Subsequence(b, c)
    ensures Subsequence(a, c)
    decreases c
  {
    if a != [] {
      if Subsequence(b, c[1..]) {
        SubsequenceTrans(a, b, c[1..]);
      } else if Subsequence(a, b[1..]) {
        SubsequenceTrans(a, b[1..], c[1..]);
      } else {
        SubsequenceTrans(a[1..], b[1..], c[1..]);
      }
    }
  }

  /** What shrinking `q` to `r` may do: thin out Staging but keep its newest point, and touch
      InFlight only from the front, once Staging is gone. */
  ghost predicate Shrinks(q: Buffer, r: Buffer) {
    && r.cap == q.cap && r.frames == q.frames
    && Subsequence(r.staging, q.staging)
    && (r.staging != [] ==> q.staging != [] && r.staging[|r.staging| - 1] == q.staging[|q.staging| - 1])
    && |r.inflight| <= |q.inflight|
    && r.inflight == q.inflight[|q.inflight| - |r.inflight|..]
    && (|r.inflight| < |q.inflight| ==> r.staging == [])
  }

  lemma DropOneShrinks(flat: Flat, q: Buffer)
    requires Size(q) > 0
    ensures Shrinks(q, DropOne(flat, q))
  {
    var k := FirstFlat(flat, q.staging, 1);
    SubsequenceRefl(q.staging);
    if k < |q.staging| {
      SubsequenceWithout(q.staging, k);
    } else if q.staging != [] {
      SubsequenceWithout(q.staging, 0);
      assert Without(q.staging, 0) == q.staging[1..];
    }
  }

  lemma ShrinksTrans(q: Buffer, d: Buffer, r: Buffer)
    requires Shrinks(q, d) && Shrinks(d, r)
    ensures Shrinks(q, r)
  {
    SubsequenceTrans(r.staging, d.staging, q.staging);
    hide Subsequence;
    var n, m := |q.inflight| - |d.inflight|, |d.inflight| - |r.inflight|;
    assert q.inflight[n..][m..] == q.inflight[n + m..];
    if r.staging != [] {
      assert d.inflight == q.inflight && r.inflight == d.inflight;
    }
  }

  /** The cap ends with exactly min(size, cap) points, takes from Staging first, and keeps the
      newest of whatever it takes from. */
  lemma {:induction false} CapKeepsNewest(flat: Flat, q: Buffer)
    ensures var r := EnforceCap(flat, q);
            && Size(r) == (if Size(q) <= q.cap then Size(q) else q.cap)
            && Shrinks(q, r)
    decreases Size(q)
  {
    hide Subsequence, DropOne, FirstFlat;
    if Size(q) > q.cap {
      var d := DropOne(flat, q);
      DropOneShrinks(flat, q);
      CapKeepsNewest(flat, d);
      ShrinksTrans(q, d, EnforceCap(flat, d));
    } else {
      SubsequenceRefl(q.staging);
    }
  }

  // ---- The operations ----

  function PushStaging(flat: Flat, q: Buffer, s: Sample): Buffer {
    EnforceCap(flat, q.(staging := q.staging + [s]))
  }

  function Number(ss: seq<Sample>, next: nat): (r: seq<Queued>)
    ensures |r| == |ss|
  {
    seq(|ss|, i requires 0 <= i < |ss| => Queued(next + 1 + i, ss[i], false))
  }

  function Assign(q: Buffer, n: nat, next: nat): Buffer
    requires n <= |q.staging|
  {
    q.(staging := q.staging[n..], inflight := q.inflight + Number(q.staging[..n], next))
  }

  function Enqueue(flat: Flat, q: Buffer, num: nat, s: Sample): Buffer {
    EnforceCap(flat, q.(inflight := q.inflight + [Queued(num, s, true)]))
  }

  function MarkThrough(inflight: seq<Queued>, last: nat): (r: seq<Queued>)
    ensures |r| == |inflight|
  {
    seq(|inflight|, i requires 0 <= i < |inflight| =>
      if inflight[i].num <= last then inflight[i].(sent := true) else inflight[i])
  }

  function RecordFrame(q: Buffer, last: nat): Buffer {
    q.(frames := q.frames + [last], inflight := MarkThrough(q.inflight, last))
  }

  function KeepAbove(inflight: seq<Queued>, ack: nat): seq<Queued> {
    if inflight == [] then []
    else (if inflight[0].num > ack then [inflight[0]] else []) + KeepAbove(inflight[1..], ack)
  }

  function FramesAbove(frames: seq<nat>, ack: nat): seq<nat> {
    if frames == [] then []
    else (if frames[0] > ack then [frames[0]] else []) + FramesAbove(frames[1..], ack)
  }

  function AckThrough(q: Buffer, ack: nat): Buffer {
    q.(inflight := KeepAbove(q.inflight, ack), frames := FramesAbove(q.frames, ack))
  }

  function MarkUnsent(q: Buffer): Buffer {
    q.(inflight := seq(|q.inflight|, i requires 0 <= i < |q.inflight| => q.inflight[i].(sent := false)), frames := [])
  }

  function Unsent(inflight: seq<Queued>): seq<Queued> {
    if inflight == [] then []
    else (if !inflight[0].sent then [inflight[0]] else []) + Unsent(inflight[1..])
  }

  function WindowRemaining(q: Buffer): nat {
    if |q.frames| >= MAX_UNACKED_FRAMES then 0 else MAX_UNACKED_FRAMES - |q.frames|
  }

  predicate WindowFull(q: Buffer) {
    |q.frames| >= MAX_UNACKED_FRAMES
  }

  function Cleared(q: Buffer): Buffer {
    q.(staging := [], inflight := [], frames := [])
  }

  // ---- The shape of InFlight ----

  /** The highest number some recorded frame covers. */
  function High(frames: seq<nat>): nat {
    if frames == [] then 0 else frames[|frames| - 1]
  }

  /** The highest number that is assigned but no longer in the queue. */
  function Settled(q: Buffer, last: nat): int {
    last - |q.inflight|
  }

  ghost predicate Contiguous(inflight: seq<Queued>, last: nat) {
    |inflight| <= last && forall k :: 0 <= k < |inflight| ==> inflight[k].num == last - |inflight| + 1 + k
  }

  ghost predicate Increasing(s: seq<nat>) {
    forall i, j :: 0 <= i < j < |s| ==> s[i] < s[j]
  }

  /** Numbers form one block that ends at `last`; the window holds at most eight increasing frame
      numbers; a point is marked sent exactly when a recorded frame reaches it. */
  ghost predicate Shape(q: Buffer, last: nat) {
    && 1 <= q.cap && Size(q) <= q.cap
    && Contiguous(q.inflight, last)
    && |q.frames| <= MAX_UNACKED_FRAMES && Increasing(q.frames)
    && (forall i :: 0 <= i < |q.frames| ==> 1 <= q.frames[i] <= last)
    && (q.frames != [] ==> q.inflight != [])
    && (forall k :: 0 <= k < |q.inflight| ==> (q.inflight[k].sent <==> q.inflight[k].num <= High(q.frames)))
  }

  lemma {:induction false} KeepAboveSuffix(inflight: seq<Queued>, last: nat, ack: nat)
    requires Contiguous(inflight, last)
    ensures var d := if ack <= last - |inflight| then 0 else if ack >= last then |inflight| else ack - (last - |inflight|);
            KeepAbove(inflight, ack) == inflight[d..]
    decreases inflight
  {
    if inflight != [] {
      forall k | 0 <= k < |inflight[1..]| ensures inflight[1..][k].num == last - |inflight[1..]| + 1 + k {
        assert inflight[1..][k] == inflight[k + 1];
      }
      KeepAboveSuffix(inflight[1..], last, ack);
    }
  }

  lemma {:induction false} FramesAboveSuffix(frames: seq<nat>, ack: nat)
    requires Increasing(frames)
    ensures var r := FramesAbove(frames, ack);
            && |r| <= |frames| && r == frames[|frames| - |r|..]
            && (forall i :: 0 <= i < |frames| - |r| ==> frames[i] <= ack)
            && (forall i :: 0 <= i < |r| ==> r[i] > ack)
    decreases frames
  {
    if frames != [] {
      var rest := frames[1..];
      if frames[0] > ack {
        AllAboveFirst(frames, ack);
        FramesAllAbove(frames, ack);
        hide Increasing, FramesAbove;
        assert frames[0..] == frames;
      } else {
        IncreasingTail(frames);
        hide Increasing, FramesAbove;
        FramesAboveSuffix(rest, ack);
        Deeper(frames, FramesAbove(rest, ack), ack);
        assert FramesAbove(frames, ack) == FramesAbove(rest, ack) by {
          FirstFalls(frames, ack);
        }
      }
    }
  }

  lemma FirstFalls(frames: seq<nat>, ack: nat)
    requires frames != [] && frames[0] <= ack
    ensures FramesAbove(frames, ack) == FramesAbove(frames[1..], ack)
  {
  }

  /** What holds of the tail holds of the whole, when the first frame is acked too. */
  lemma Deeper(frames: seq<nat>, r: seq<nat>, ack: nat)
    requires frames != [] && frames[0] <= ack && |r| < |frames|
    requires r == frames[1..][|frames| - 1 - |r|..]
    requires forall i :: 0 <= i < |frames| - 1 - |r| ==> frames[1..][i] <= ack
    ensures r == frames[|frames| - |r|..]
    ensures forall i :: 0 <= i < |frames| - |r| ==> frames[i] <= ack
  {
    forall i | 1 <= i < |frames| - |r| ensures frames[i] <= ack {
      assert frames[i] == frames[1..][i - 1];
    }
  }

  lemma IncreasingTail(frames: seq<nat>)
    requires Increasing(frames) && frames != []
    ensures Increasing(frames[1..])
  {
  }

  lemma AllAboveFirst(frames: seq<nat>, ack: nat)
    requires Increasing(frames) && frames != [] && frames[0] > ack
    ensures forall i :: 0 <= i < |frames| ==> frames[i] > ack
  {
  }

  lemma {:induction false} FramesAllAbove(frames: seq<nat>, ack: nat)
    requires forall i :: 0 <= i < |frames| ==> frames[i] > ack
    ensures FramesAbove(frames, ack) == frames
    decreases frames
  {
    if frames != [] {
      FramesAllAbove(frames[1..], ack);
    }
  }

  /** How many points at the front of InFlight an ack covers. */
  function Acked(q: Buffer, last: nat, ack: nat): (d: nat)
    requires |q.inflight| <= last
    ensures d <= |q.inflight|
  {
    if ack <= last - |q.inflight| then 0 else if ack >= last then |q.inflight| else ack - (last - |q.inflight|)
  }

  /** A cumulative ack removes exactly the acked prefix, and numbers may only move forward. */
  lemma AckKeepsShape(q: Buffer, last: nat, ack: nat)
    requires Shape(q, last)
    ensures AckThrough(q, ack).inflight == q.inflight[Acked(q, last, ack)..]
    ensures Shape(AckThrough(q, ack), last)
    ensures ack > last ==> Shape(AckThrough(q, ack), ack) && AckThrough(q, ack).inflight == []
  {
    KeepAboveSuffix(q.inflight, last, ack);
    var d := Acked(q, last, ack);
    assert AckThrough(q, ack).inflight == q.inflight[d..];
    assert d < |q.inflight| ==> ack < q.inflight[d].num;
    AckKeepsWindow(q, last, ack);
    hide KeepAbove, FramesAbove, Shape, High, Increasing, Contiguous;
    SuffixKeepsShape(q, AckThrough(q, ack), last, d, ack);
    if ack > last {
      EmptyShapeAt(AckThrough(q, ack), last, ack);
    }
  }

  lemma EmptyShapeAt(q: Buffer, last: nat, last': nat)
    requires Shape(q, last) && q.inflight == []
    ensures Shape(q, last')
  {
  }

  lemma SuffixKeepsShape(q: Buffer, r: Buffer, last: nat, d: nat, ack: nat)
    requires Shape(q, last) && d <= |q.inflight| && r.inflight == q.inflight[d..]
    requires r.cap == q.cap && r.staging == q.staging
    requires d < |q.inflight| ==> ack < q.inflight[d].num
    requires d == |q.inflight| ==> last <= ack || d == 0
    requires WindowAfter(q, r.frames, last, ack)
    ensures Shape(r, last)
  {
    SuffixContiguous(q.inflight, last, d);
    forall k | 0 <= k < |r.inflight| ensures r.inflight[k].sent <==> r.inflight[k].num <= High(r.frames) {
      assert r.inflight[k] == q.inflight[d + k];
    }
  }

  /** The frames an ack leaves are the last ones, and they reach the same points as before. */
  lemma AckKeepsWindow(q: Buffer, last: nat, ack: nat)
    requires Shape(q, last)
    ensures WindowAfter(q, FramesAbove(q.frames, ack), last, ack)
  {
    FramesAboveSuffix(q.frames, ack);
    hide FramesAbove;
    if FramesAbove(q.frames, ack) == [] && q.frames != [] {
      assert q.frames[|q.frames| - 1] <= ack;
    }
  }

  ghost predicate WindowAfter(q: Buffer, frames: seq<nat>, last: nat, ack: nat) {
    && |frames| <= |q.frames| && Increasing(frames)
    && (forall i :: 0 <= i < |frames| ==> ack < frames[i] <= last && 1 <= frames[i])
    && (if frames == [] then High(q.frames) <= ack else High(frames) == High(q.frames))
  }

  lemma MarkUnsentKeepsShape(q: Buffer, last: nat)
    requires Shape(q, last)
    ensures Shape(MarkUnsent(q), last)
  {
  }

  lemma PushStagingKeepsShape(flat: Flat, q: Buffer, last: nat, s: Sample)
    requires Shape(q, last)
    ensures Shape(PushStaging(flat, q, s), last)
    ensures PushStaging(flat, q, s).inflight == q.inflight
  {
    var p := q.(staging := q.staging + [s]);
    CapKeepsNewest(flat, p);
    hide Subsequence;
    if Size(p) > q.cap {
      assert EnforceCap(flat, p) == DropOne(flat, p);
    }
  }

  /** A live publish: number, enqueue, record. The cap may take one point from the front, never
      the one just sent. */
  lemma LiveKeepsShape(flat: Flat, q: Buffer, last: nat, s: Sample)
    requires Shape(q, last) && !WindowFull(q)
    ensures Shape(RecordFrame(Enqueue(flat, q, last + 1, s), last + 1), last + 1)
    ensures var r := Enqueue(flat, q, last + 1, s);
            r.inflight != [] && r.inflight[|r.inflight| - 1] == Queued(last + 1, s, true)
  {
    var p := q.(inflight := q.inflight + [Queued(last + 1, s, true)]);
    assert Contiguous(p.inflight, last + 1);
    CapKeepsNewest(flat, p);
    CapOnce(flat, p);
    hide EnforceCap, Subsequence, DropOne;
    var r := EnforceCap(flat, p);
    SuffixContiguous(p.inflight, last + 1, |p.inflight| - |r.inflight|);
    RecordNewest(r, last);
  }

  lemma RecordNewest(r: Buffer, last: nat)
    requires 1 <= r.cap && Size(r) <= r.cap && Contiguous(r.inflight, last + 1) && r.inflight != []
    requires |r.frames| < MAX_UNACKED_FRAMES && Increasing(r.frames)
    requires forall i :: 0 <= i < |r.frames| ==> 1 <= r.frames[i] <= last
    ensures Shape(RecordFrame(r, last + 1), last + 1)
  {
    assert High(RecordFrame(r, last + 1).frames) == last + 1;
  }

  lemma SuffixContiguous(inflight: seq<Queued>, last: nat, n: nat)
    requires Contiguous(inflight, last) && n <= |inflight|
    ensures Contiguous(inflight[n..], last)
  {
  }

  lemma CapSingle(flat: Flat, p: Buffer)
    requires Size(p) <= p.cap + 1
    ensures EnforceCap(flat, p) == if Size(p) <= p.cap then p else DropOne(flat, p)
  {
    hide FirstFlat;
    if Size(p) > p.cap {
      assert EnforceCap(flat, DropOne(flat, p)) == DropOne(flat, p);
    }
  }

  /** One point over the cap costs one pass, so a point that just arrived behind others stays. */
  lemma CapOnce(flat: Flat, p: Buffer)
    requires Size(p) <= p.cap + 1 && p.cap >= 1 && p.inflight != []
    ensures EnforceCap(flat, p).inflight != []
    ensures Size(p) <= p.cap ==> EnforceCap(flat, p) == p
    ensures Size(p) > p.cap ==> EnforceCap(flat, p) == DropOne(flat, p)
  {
    hide FirstFlat;
  }

  lemma AssignKeepsShape(q: Buffer, n: nat, last: nat)
    requires Shape(q, last) && n <= |q.staging|
    ensures Shape(Assign(q, n, last), last + n)
  {
    var r := Assign(q, n, last);
    forall k | 0 <= k < |r.inflight|
      ensures r.inflight[k].num == last + n - |r.inflight| + 1 + k
      ensures r.inflight[k].sent <==> r.inflight[k].num <= High(r.frames)
    {
      if k < |q.inflight| {
        assert r.inflight[k] == q.inflight[k];
      } else {
        assert r.inflight[k] == Queued(last + 1 + (k - |q.inflight|), q.staging[k - |q.inflight|], false);
        assert High(q.frames) <= last;
      }
    }
  }

  lemma RecordKeepsShape(q: Buffer, last: nat, num: nat)
    requires Shape(q, last) && !WindowFull(q) && High(q.frames) < num <= last && q.inflight != []
    ensures Shape(RecordFrame(q, num), last)
    ensures High(RecordFrame(q, num).frames) == num
  {
  }

  /** The unsent points are the suffix that no frame has reached. */
  lemma {:induction false} UnsentSuffix(inflight: seq<Queued>, last: nat, high: nat)
    requires Contiguous(inflight, last)
    requires forall k :: 0 <= k < |inflight| ==> (inflight[k].sent <==> inflight[k].num <= high)
    ensures var d := if high <= last - |inflight| then 0 else if high >= last then |inflight| else high - (last - |inflight|);
            Unsent(inflight) == inflight[d..]
    decreases inflight
  {
    if inflight != [] {
      var rest := inflight[1..];
      forall k | 0 <= k < |rest|
        ensures rest[k].num == last - |rest| + 1 + k && (rest[k].sent <==> rest[k].num <= high)
      {
        assert rest[k] == inflight[k + 1];
      }
      UnsentSuffix(rest, last, high);
      if high < last - |inflight| + 1 {
        assert Unsent(rest) == rest[0..] == rest;
        assert [inflight[0]] + rest == inflight;
      }
    }
  }

  // ---- The queue itself ----

  class OfflineQueue {
    const flat: Flat
    const maxSize: nat
    var staging: seq<Sample>
    var inflight: seq<Queued>
    var sentFrameSeqs: seq<nat>

    ghost function View(): Buffer
      reads this
    {
      Buffer(maxSize, staging, inflight, sentFrameSeqs)
    }

    constructor (flat: Flat, maxSize: nat)
      ensures View() == Buffer(if maxSize == 0 then DEFAULT_MAX_QUEUE else maxSize, [], [], [])
      ensures this.flat == flat
    {
      this.flat := flat;
      this.maxSize := if maxSize == 0 then DEFAULT_MAX_QUEUE else maxSize;
      staging, inflight, sentFrameSeqs := [], [], [];
    }

    method CollapseOneCollinear() returns (removed: bool)
      modifies this`staging
      ensures var k := FirstFlat(flat, old(staging), 1);
              && removed == (k < |old(staging)|)
              && staging == if removed then Without(old(staging), k) else old(staging)
    {
      if |staging| < 3 {
        return false;
      }
      for i := 1 to |staging| - 1
        invariant staging == old(staging)
        invariant FirstFlat(flat, staging, 1) == FirstFlat(flat, staging, i)
      {
        if flat(staging[i - 1].point, staging[i + 1].point, staging[i].point) {
          staging := staging[..i] + staging[i + 1..];
          return true;
        }
      }
      removed := false;
    }

    method EnforceCapInPlace()
      modifies this`staging, this`inflight
      ensures View() == EnforceCap(flat, old(View()))
    {
      while |staging| + |inflight| > maxSize
        invariant sentFrameSeqs == old(sentFrameSeqs)
        invariant EnforceCap(flat, View()) == EnforceCap(flat, old(View()))
        decreases |staging| + |inflight|
      {
        ghost var before := View();
        var collapsed := CollapseOneCollinear();
        if collapsed {
          assert View() == DropOne(flat, before);
          continue;
        }
        if staging != [] {
          staging := staging[1..];
          assert View() == DropOne(flat, before);
          continue;
        }
        if inflight != [] {
          inflight := inflight[1..];
          assert View() == DropOne(flat, before);
        } else {
          break;
        }
      }
    }

    method Push(s: Sample)
      modifies this`staging, this`inflight
      ensures View() == PushStaging(flat, old(View()), s)
    {
      staging := staging + [s];
      EnforceCapInPlace();
    }

    method AssignFromStaging(n: nat, last: nat) returns (out: seq<Queued>)
      modifies this`staging, this`inflight
      ensures var take := if n <= |old(staging)| then n else |old(staging)|;
              && View() == Assign(old(View()), take, last)
              && out == Number(old(staging)[..take], last)
    {
      var take := if n <= |staging| then n else |staging|;
      var nextSeq := last;
      out := [];
      for i := 0 to take
        invariant nextSeq == last + i
        invariant staging == old(staging)[i..]
        invariant out == Number(old(staging)[..i], last)
        invariant inflight == old(inflight) + out
        invariant sentFrameSeqs == old(sentFrameSeqs)
      {
        var point := staging[0];
        staging := staging[1..];
        nextSeq := nextSeq + 1;
        var q := Queued(nextSeq, point, false);
        inflight := inflight + [q];
        out := out + [q];
        assert Number(old(staging)[..i + 1], last) == Number(old(staging)[..i], last) + [q];
      }
    }

    method EnqueueSent(num: nat, s: Sample)
      modifies this`staging, this`inflight
      ensures View() == Enqueue(flat, old(View()), num, s)
    {
      inflight := inflight + [Queued(num, s, true)];
      EnforceCapInPlace();
    }

    method ForgetSent()
      modifies this`inflight, this`sentFrameSeqs
      ensures View() == MarkUnsent(old(View()))
    {
      var i := 0;
      while i < |inflight|
        invariant i <= |inflight| == |old(inflight)|
        invariant forall k :: 0 <= k < i ==> inflight[k] == old(inflight)[k].(sent := false)
        invariant forall k :: i <= k < |inflight| ==> inflight[k] == old(inflight)[k]
        invariant staging == old(staging) && sentFrameSeqs == old(sentFrameSeqs)
      {
        inflight := inflight[i := inflight[i].(sent := false)];
        i := i + 1;
      }
      sentFrameSeqs := [];
    }

    method Record(last: nat)
      modifies this`inflight, this`sentFrameSeqs
      ensures View() == RecordFrame(old(View()), last)
    {
      sentFrameSeqs := sentFrameSeqs + [last];
      var i := 0;
      while i < |inflight|
        invariant i <= |inflight| == |old(inflight)|
        invariant forall k :: 0 <= k < i ==> inflight[k] == MarkThrough(old(inflight), last)[k]
        invariant forall k :: i <= k < |inflight| ==> inflight[k] == old(inflight)[k]
        invariant staging == old(staging) && sentFrameSeqs == old(sentFrameSeqs) + [last]
      {
        if inflight[i].num <= last {
          inflight := inflight[i := inflight[i].(sent := true)];
        }
        i := i + 1;
      }
    }

    method RetainInflight(ack: nat)
      modifies this`inflight
      ensures inflight == KeepAbove(old(inflight), ack)
    {
      var keep, i := [], 0;
      while i < |inflight|
        invariant i <= |inflight|
        invariant keep + KeepAbove(inflight[i..], ack) == KeepAbove(inflight, ack)
      {
        assert inflight[i..][1..] == inflight[i + 1..] && inflight[i..][0] == inflight[i];
        if inflight[i].num > ack {
          keep := keep + [inflight[i]];
        }
        i := i + 1;
      }
      inflight := keep;
    }

    method RetainFrames(ack: nat)
      modifies this`sentFrameSeqs
      ensures sentFrameSeqs == FramesAbove(old(sentFrameSeqs), ack)
    {
      var keep, i := [], 0;
      while i < |sentFrameSeqs|
        invariant i <= |sentFrameSeqs|
        invariant keep + FramesAbove(sentFrameSeqs[i..], ack) == FramesAbove(sentFrameSeqs, ack)
      {
        assert sentFrameSeqs[i..][1..] == sentFrameSeqs[i + 1..] && sentFrameSeqs[i..][0] == sentFrameSeqs[i];
        if sentFrameSeqs[i] > ack {
          keep := keep + [sentFrameSeqs[i]];
        }
        i := i + 1;
      }
      sentFrameSeqs := keep;
    }

    method Ack(ack: nat)
      modifies this`inflight, this`sentFrameSeqs
      ensures View() == AckThrough(old(View()), ack)
    {
      RetainInflight(ack);
      RetainFrames(ack);
    }

    method UnsentInflight() returns (out: seq<Queued>)
      ensures out == Unsent(inflight)
    {
      out := [];
      var i := 0;
      while i < |inflight|
        invariant i <= |inflight|
        invariant out + Unsent(inflight[i..]) == Unsent(inflight)
      {
        assert inflight[i..][1..] == inflight[i + 1..] && inflight[i..][0] == inflight[i];
        if !inflight[i].sent {
          out := out + [inflight[i]];
        }
        i := i + 1;
      }
    }

    method Clear()
      modifies this`staging, this`inflight, this`sentFrameSeqs
      ensures View() == Cleared(old(View()))
    {
      staging, inflight, sentFrameSeqs := [], [], [];
    }
  }
}
