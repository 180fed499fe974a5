/** A reconnect loop that never gets through: on_socket_closed, sleep, dial, and again
    (src/tracking/client.rs:654-705), with every dial failing before Hello and a bound on the
    number of attempts. */
module Reconnect {
  import opened Wrappers
  import opened Bytes
  import opened Queue
  import opened Backoff
  import opened Engine
  import opened Runs
  import Cl = Client

  /** The socket dies, the delay passes, and the next dial fails before Hello. */
  function FailedRound(st: State): State {
    var s := DialBegin(SocketClosed(st, st.s.dialGen, true));
    DialAbandon(s, s.s.dialGen)
  }

  function Attempts(b: BackoffState): nat {
    if b.attempt >= b.maxAttempts then 0 else b.maxAttempts - b.attempt
  }

  /** The whole loop. */
  function GiveUp(st: State): State
    decreases Attempts(st.s.backoff)
  {
    if st.s.intentional || Attempts(st.s.backoff) == 0 then SocketClosed(st, st.s.dialGen, true)
    else GiveUp(FailedRound(st))
  }

  lemma RoundCounts(st: State)
    requires !st.s.intentional && !Exhausted(st.s.backoff)
    ensures var r := FailedRound(st).s;
            && r.backoff == st.s.backoff.(attempt := st.s.backoff.attempt + 1)
            && Attempts(r.backoff) == Attempts(st.s.backoff) - (if st.s.backoff.maxAttempts > 0 then 1 else 0)
            && r.dialGen == st.s.dialGen + 1 && !r.intentional && r.trackUid == st.s.trackUid
            && QueuedIds(r.queue.inflight) == QueuedIds(st.s.queue.inflight) && r.queue.staging == st.s.queue.staging
  {
    assert QueuedIds(MarkUnsent(st.s.queue).inflight) == QueuedIds(st.s.queue.inflight);
    hide MarkUnsent;
  }

  lemma GiveUpStep(st: State)
    requires !st.s.intentional && st.s.backoff.maxAttempts > 0
    ensures GiveUp(st) == if Exhausted(st.s.backoff) then SocketClosed(st, st.s.dialGen, true) else GiveUp(FailedRound(st))
    ensures Exhausted(st.s.backoff) <==> Attempts(st.s.backoff) == 0
  {
    hide FailedRound, SocketClosed;
  }

  /** With N attempts left the loop dials exactly N times and then ends closed: no socket, nobody
      left waiting. The track and its points are still there. */
  lemma {:induction false} GivesUpClosed(st: State)
    requires !st.s.intentional && st.s.backoff.maxAttempts > 0
    ensures var r := GiveUp(st).s;
            && r.dialGen == st.s.dialGen + Attempts(st.s.backoff)
            && r.conn.Closed? && r.socket.None? && !r.ready
            && !r.startWait && !r.stopWait && !r.resumeWait
            && r.trackUid == st.s.trackUid
            && QueuedIds(r.queue.inflight) == QueuedIds(st.s.queue.inflight) && r.queue.staging == st.s.queue.staging
    decreases Attempts(st.s.backoff)
  {
    if Attempts(st.s.backoff) > 0 {
      RoundCounts(st);
      hide FailedRound, SocketClosed, QueuedIds;
      GivesUpClosed(FailedRound(st));
    } else {
      assert QueuedIds(MarkUnsent(st.s.queue).inflight) == QueuedIds(st.s.queue.inflight);
    }
  }

  /** An installed socket gives the next loop all its attempts back. */
  lemma FullAttemptsAfterInstall(st: State, gen: nat)
    requires gen in st.log.dials && gen == st.s.dialGen && !st.s.intentional && st.s.backoff.maxAttempts > 0
    ensures GiveUp(DialInstall(st, gen)).s.dialGen == st.s.dialGen + st.s.backoff.maxAttempts
  {
    hide GiveUp;
    GivesUpClosed(DialInstall(st, gen));
  }

  // ---- How long it waits ----

  function Sum(ds: seq<nat>): nat {
    if ds == [] then 0 else ds[0] + Sum(ds[1..])
  }

  lemma PowPositive(n: nat)
    ensures Pow2(n + 1) == 2 * Pow2(n)
  {
  }

  /** The k-th ceiling, counted from the attempt the loop starts at, is at most the configured
      maximum and at most the minimum doubled k times. */
  lemma CeilingIsMin(b: BackoffState, k: nat)
    ensures var lo, hi := b.minDelay / NANOS_PER_MILLI, b.maxDelay / NANOS_PER_MILLI;
            Ceiling(b, k) <= hi && Ceiling(b, k) <= lo * Pow2(k) && (Ceiling(b, k) == hi || Ceiling(b, k) == lo * Pow2(k))
  {
  }

  /** The whole wait is bounded both by N times the maximum and by the geometric sum. */
  lemma {:induction false} WaitBounded(b: BackoffState, delays: seq<nat>, from: nat)
    requires forall k :: 0 <= k < |delays| ==> delays[k] <= Ceiling(b, from + k)
    ensures Sum(delays) <= |delays| * (b.maxDelay / NANOS_PER_MILLI)
    ensures Sum(delays) <= b.minDelay / NANOS_PER_MILLI * (Pow2(from + |delays|) - Pow2(from))
    decreases delays
  {
    if delays != [] {
      forall k | 0 <= k < |delays[1..]| ensures delays[1..][k] <= Ceiling(b, from + 1 + k) {
        assert delays[1..][k] == delays[k + 1];
      }
      WaitBounded(b, delays[1..], from + 1);
      CeilingIsMin(b, from);
      assert delays[0] <= Ceiling(b, from + 0);
      PowPositive(from);
      SumHead(delays);
      var lo, hi := b.minDelay / NANOS_PER_MILLI, b.maxDelay / NANOS_PER_MILLI;
      hide *;
      BoundStep(|delays| - 1, delays[0], Sum(delays[1..]), lo, hi, Pow2(from), Pow2(from + |delays|));
    }
  }

  lemma BoundStep(n: nat, d: nat, rest: nat, lo: nat, hi: nat, p: nat, q: nat)
    requires d <= hi && d <= lo * p && rest <= n * hi && rest <= lo * (q - 2 * p)
    ensures d + rest <= (n + 1) * hi && d + rest <= lo * (q - p)
  {
    assert (n + 1) * hi == n * hi + hi;
    Distribute(lo, p, q);
  }

  lemma SumHead(ds: seq<nat>)
    requires ds != []
    ensures Sum(ds) == ds[0] + Sum(ds[1..])
  {
  }

  lemma Distribute(lo: nat, p: nat, q: nat)
    ensures lo * p + lo * (q - 2 * p) == lo * (q - p)
  {
  }

  // ---- The loop itself ----

  /** After `delays` the loop stands at `v`. */
  ghost predicate Partway(v: State, st: State, delays: seq<nat>) {
    && !v.s.intentional && v.s.backoff.maxAttempts > 0
    && GiveUp(v) == GiveUp(st)
    && v.s.backoff == st.s.backoff.(attempt := st.s.backoff.attempt + |delays|)
    && |delays| + Attempts(v.s.backoff) == Attempts(st.s.backoff)
    && forall k :: 0 <= k < |delays| ==> delays[k] <= Ceiling(st.s.backoff, st.s.backoff.attempt + k)
  }

  lemma PartwayOn(v: State, st: State, delays: seq<nat>, d: nat)
    requires Partway(v, st, delays) && !Exhausted(v.s.backoff) && d <= Ceiling(v.s.backoff, v.s.backoff.attempt)
    ensures Partway(FailedRound(v), st, delays + [d])
    ensures Attempts(FailedRound(v).s.backoff) < Attempts(v.s.backoff)
  {
    GiveUpStep(v);
    RoundCounts(v);
    SameCeiling(v.s.backoff, st.s.backoff);
    hide FailedRound, GiveUp, Ceiling;
  }

  lemma PartwayEnd(v: State, st: State, delays: seq<nat>)
    requires Partway(v, st, delays) && Exhausted(v.s.backoff)
    ensures SocketClosed(v, v.s.dialGen, true) == GiveUp(st)
    ensures |delays| == Attempts(st.s.backoff)
    ensures forall k :: 0 <= k < |delays| ==> delays[k] <= Ceiling(st.s.backoff, st.s.backoff.attempt + k)
  {
    GiveUpStep(v);
    hide SocketClosed, GiveUp, Ceiling;
  }

  lemma PartwayStart(st: State)
    requires !st.s.intentional && st.s.backoff.maxAttempts > 0
    ensures Partway(st, st, [])
  {
    hide GiveUp;
  }

  /** The number of dials, and each delay, whatever the random numbers are. */
  method RunReconnects(c: Cl.Client, random: nat -> real) returns (delays: seq<nat>)
    requires !c.intentional && c.reconnects.maxAttempts > 0
    modifies c, c.queue, c.reconnects
    ensures c.View() == GiveUp(old(c.View()))
    ensures |delays| == Attempts(old(c.View()).s.backoff)
    ensures var b := old(c.View()).s.backoff; forall k :: 0 <= k < |delays| ==> delays[k] <= Ceiling(b, b.attempt + k)
  {
    ghost var st := c.View();
    delays := [];
    PartwayStart(st);
    hide Partway, FailedRound, SocketClosed, Ceiling, GiveUp, Attempts;
    while true
      invariant Partway(c.View(), st, delays) && !c.intentional
      decreases Attempts(c.View().s.backoff)
    {
      ghost var v := c.View();
      var delay := Round(c, random(|delays|));
      if delay.None? {
        PartwayEnd(v, st, delays);
        return;
      }
      PartwayOn(v, st, delays, delay.value);
      delays := delays + [delay.value];
    }
  }

  /** One turn: lose the socket, sleep, dial in vain. */
  method Round(c: Cl.Client, random: real) returns (delay: Option<nat>)
    requires !c.intentional
    modifies c, c.queue, c.reconnects
    ensures delay == Delay(old(c.View()).s.backoff, random)
    ensures c.View() == if delay.Some? then FailedRound(old(c.View())) else SocketClosed(old(c.View()), old(c.dialGen), true)
    ensures delay.Some? ==> !c.intentional
  {
    delay := c.OnSocketClosed(c.dialGen, true, random);
    hide SocketClosed, DialBegin;
    if delay.Some? {
      var gen := c.BeginDial();
      c.AbandonDial(gen);
    }
  }

  lemma SameCeiling(b: BackoffState, c: BackoffState)
    requires b.minDelay == c.minDelay && b.maxDelay == c.maxDelay
    ensures Ceiling(b, b.attempt) == Ceiling(c, b.attempt)
  {
  }
}
