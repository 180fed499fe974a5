/** A batch with bounded concurrency (src/geocoding.rs:123-159). Calls complete in any order; the
    answers come back in input order. `outcome[i]` is what the call on input `i` ends with. */
module Batch {
  import opened Wrappers

  datatype Event = Started(item: nat) | Finished(item: nat, ok: bool)

  // ---- What a history of a batch must look like ----

  /** Started and not finished. */
  function Open(trace: seq<Event>): set<nat> {
    if trace == [] then {} else
      var rest := Open(trace[..|trace| - 1]);
      match trace[|trace| - 1]
      case Started(i) => rest + {i}
      case Finished(i, _) => rest - {i}
  }

  function StartedIn(trace: seq<Event>): seq<nat> {
    if trace == [] then [] else
      var rest := StartedIn(trace[..|trace| - 1]);
      match trace[|trace| - 1]
      case Started(i) => rest + [i]
      case Finished(_, _) => rest
  }

  function FinishedIn(trace: seq<Event>): seq<nat> {
    if trace == [] then [] else
      var rest := FinishedIn(trace[..|trace| - 1]);
      match trace[|trace| - 1]
      case Started(_) => rest
      case Finished(i, _) => rest + [i]
  }

  function UpTo(n: nat): (r: seq<nat>)
    ensures |r| == n
  {
    seq(n, i requires 0 <= i < n => i)
  }

  ghost predicate Bounded(trace: seq<Event>, limit: nat) {
    forall k :: 0 <= k <= |trace| ==> |Open(trace[..k])| <= limit
  }

  /** Only an open item finishes, and it finishes the way its call ends. */
  ghost predicate Truthful<T, E>(trace: seq<Event>, outcome: seq<Result<T, E>>) {
    forall k :: 0 <= k < |trace| && trace[k].Finished? ==>
      trace[k].item in Open(trace[..k]) && trace[k].item < |outcome| && trace[k].ok == outcome[trace[k].item].Ok?
  }

  /** After an error nothing starts and nothing finishes. */
  ghost predicate StopsAtError(trace: seq<Event>) {
    forall k :: 0 <= k < |trace| && trace[k].Finished? && !trace[k].ok ==> k == |trace| - 1
  }

  /** Calls start one by one in input order, at most `limit` at a time, each finishes at most once. */
  ghost predicate WellRun<T, E>(trace: seq<Event>, outcome: seq<Result<T, E>>, limit: nat) {
    && StartedIn(trace) <= UpTo(|outcome|)
    && Bounded(trace, limit)
    && Truthful(trace, outcome)
    && StopsAtError(trace)
  }

  /** Whenever a call finishes, as many were open as may be, or all had started. */
  ghost predicate Eager(trace: seq<Event>, n: nat, limit: nat) {
    forall k :: 0 <= k < |trace| && trace[k].Finished? ==> |Open(trace[..k])| == limit || |StartedIn(trace[..k])| == n
  }

  lemma EagerSnoc(trace: seq<Event>, e: Event, n: nat, limit: nat)
    requires Eager(trace, n, limit)
    requires e.Finished? ==> |Open(trace)| == limit || |StartedIn(trace)| == n
    ensures Eager(trace + [e], n, limit)
  {
    hide Open, StartedIn;
    var t := trace + [e];
    forall k | 0 <= k < |t| && t[k].Finished? ensures |Open(t[..k])| == limit || |StartedIn(t[..k])| == n {
      assert t[..k] == trace[..k] && trace[..|trace|] == trace;
    }
  }

  ghost predicate Distinct(s: seq<nat>) {
    forall i, j :: 0 <= i < j < |s| ==> s[i] != s[j]
  }

  /** No slot is filled twice. */
  lemma {:induction false} EachFinishesOnce<T, E>(trace: seq<Event>, outcome: seq<Result<T, E>>)
    requires StartedIn(trace) <= UpTo(|outcome|) && Truthful(trace, outcome)
    ensures Distinct(FinishedIn(trace))
    ensures forall i :: i in Open(trace) <==> i in StartedIn(trace) && i !in FinishedIn(trace)
    decreases trace
  {
    if trace != [] {
      var n := |trace| - 1;
      var init, e := trace[..n], trace[n];
      assert forall k :: 0 <= k <= n ==> init[..k] == trace[..k];
      EachFinishesOnce(init, outcome);
      if e.Started? {
        FreshStart(StartedIn(init), e.item, |outcome|);
        FinishedStarted(init, outcome);
      }
    }
  }

  lemma FreshStart(started: seq<nat>, i: nat, n: nat)
    requires started + [i] <= UpTo(n)
    ensures i == |started| && i !in started
  {
    assert (started + [i])[|started|] == UpTo(n)[|started|];
    forall k | 0 <= k < |started| ensures started[k] == k {
      assert (started + [i])[k] == UpTo(n)[k];
    }
  }

  lemma {:induction false} FinishedStarted<T, E>(trace: seq<Event>, outcome: seq<Result<T, E>>)
    requires Truthful(trace, outcome)
    ensures forall i :: i in FinishedIn(trace) || i in Open(trace) ==> i in StartedIn(trace)
    decreases trace
  {
    if trace != [] {
      var n := |trace| - 1;
      assert forall k :: 0 <= k <= n ==> trace[..n][..k] == trace[..k];
      FinishedStarted(trace[..n], outcome);
    }
  }

  // ---- What the batch must return ----

  function Values<T, E>(outcome: seq<Result<T, E>>): (r: seq<T>)
    requires forall i :: 0 <= i < |outcome| ==> outcome[i].Ok?
    ensures |r| == |outcome|
  {
    seq(|outcome|, i requires 0 <= i < |outcome| => outcome[i].value)
  }

  /** `next` calls have started, `pending` are open, and every slot below `next` that is not pending
      holds the value of its own call. */
  ghost predicate Filled<T, E>(out: seq<Option<T>>, outcome: seq<Result<T, E>>, pending: set<nat>, next: nat) {
    && |out| == |outcome| && next <= |outcome|
    && (forall i :: i in pending ==> i < next && out[i].None?)
    && (forall i :: 0 <= i < next && i !in pending ==> outcome[i].Ok? && out[i] == Some(outcome[i].value))
    && (forall i :: next <= i < |out| ==> out[i].None?)
  }

  lemma BoundedSnoc(trace: seq<Event>, e: Event, limit: nat)
    requires Bounded(trace, limit) && |Open(trace + [e])| <= limit
    ensures Bounded(trace + [e], limit)
  {
    hide Open;
    var t := trace + [e];
    forall k | 0 <= k <= |t| ensures |Open(t[..k])| <= limit {
      if k <= |trace| {
        assert t[..k] == trace[..k];
      } else {
        assert t[..k] == t;
      }
    }
  }

  lemma TruthfulSnoc<T, E>(trace: seq<Event>, e: Event, outcome: seq<Result<T, E>>)
    requires Truthful(trace, outcome)
    requires e.Finished? ==> e.item in Open(trace) && e.item < |outcome| && e.ok == outcome[e.item].Ok?
    ensures Truthful(trace + [e], outcome)
  {
    hide Open;
    var t := trace + [e];
    forall k | 0 <= k < |t| && t[k].Finished?
      ensures t[k].item in Open(t[..k]) && t[k].item < |outcome| && t[k].ok == outcome[t[k].item].Ok?
    {
      assert t[..k] == trace[..k] && trace[..|trace|] == trace;
    }
  }

  ghost predicate NoErrorYet(trace: seq<Event>) {
    forall k :: 0 <= k < |trace| && trace[k].Finished? ==> trace[k].ok
  }

  lemma StopsSnoc(trace: seq<Event>, e: Event)
    requires NoErrorYet(trace)
    ensures StopsAtError(trace + [e])
    ensures e.Started? || e.ok ==> NoErrorYet(trace + [e])
  {
  }

  lemma StartNext<T, E>(trace: seq<Event>, outcome: seq<Result<T, E>>, limit: nat, next: nat)
    requires WellRun(trace, outcome, limit) && StartedIn(trace) == UpTo(next) && next < |outcome|
    requires |Open(trace)| < limit && NoErrorYet(trace)
    ensures var t := trace + [Started(next)];
            && WellRun(t, outcome, limit) && StartedIn(t) == UpTo(next + 1) && Open(t) == Open(trace) + {next} && NoErrorYet(t)
  {
    var e := Started(next);
    OpenSnoc(trace, e);
    UpToGrows(next, |outcome|);
    MoreOpen(Open(trace), next);
    hide Bounded, Truthful, StopsAtError, NoErrorYet, Open, StartedIn, UpTo;
    BoundedSnoc(trace, e, limit);
    TruthfulSnoc(trace, e, outcome);
    StopsSnoc(trace, e);
  }

  lemma FinishOne<T, E>(trace: seq<Event>, outcome: seq<Result<T, E>>, limit: nat, i: nat)
    requires WellRun(trace, outcome, limit) && i in Open(trace) && i < |outcome| && NoErrorYet(trace)
    ensures var t := trace + [Finished(i, outcome[i].Ok?)];
            && WellRun(t, outcome, limit) && StartedIn(t) == StartedIn(trace) && Open(t) == Open(trace) - {i}
            && (outcome[i].Ok? ==> NoErrorYet(t))
  {
    var e := Finished(i, outcome[i].Ok?);
    OpenSnoc(trace, e);
    FewerOpen(Open(trace), i);
    assert |Open(trace)| <= limit by {
      assert trace[..|trace|] == trace;
    }
    hide Bounded, Truthful, StopsAtError, NoErrorYet, Open, StartedIn, UpTo;
    BoundedSnoc(trace, e, limit);
    TruthfulSnoc(trace, e, outcome);
    StopsSnoc(trace, e);
  }

  lemma UpToGrows(k: nat, n: nat)
    requires k < n
    ensures UpTo(k) + [k] == UpTo(k + 1) && UpTo(k + 1) <= UpTo(n)
  {
  }

  lemma MoreOpen(s: set<nat>, i: nat)
    ensures |s + {i}| <= |s| + 1
  {
    if i in s {
      assert s + {i} == s;
    }
  }

  lemma FewerOpen(s: set<nat>, i: nat)
    ensures |s - {i}| <= |s|
  {
    if i in s {
      assert s - {i} < s;
    } else {
      assert s - {i} == s;
    }
  }

  lemma OpenSnoc(trace: seq<Event>, e: Event)
    ensures Open(trace + [e]) == if e.Started? then Open(trace) + {e.item} else Open(trace) - {e.item}
    ensures StartedIn(trace + [e]) == if e.Started? then StartedIn(trace) + [e.item] else StartedIn(trace)
  {
    assert (trace + [e])[..|trace|] == trace;
  }

  // ---- The batch ----

  /** What the loop keeps. */
  ghost predicate Running<T, E>(trace: seq<Event>, out: seq<Option<T>>, outcome: seq<Result<T, E>>, limit: nat, pending: set<nat>, next: nat) {
    && WellRun(trace, outcome, limit) && StartedIn(trace) == UpTo(next) && Open(trace) == pending
    && NoErrorYet(trace)
    && Filled(out, outcome, pending, next)
  }

  /** run_batch. Which pending call completes next is anybody's choice. */
  method RunBatch<T, E>(concurrency: nat, outcome: seq<Result<T, E>>) returns (result: Result<seq<T>, E>, trace: seq<Event>)
    ensures WellRun(trace, outcome, if concurrency == 0 then 1 else concurrency)
    ensures Eager(trace, |outcome|, if concurrency == 0 then 1 else concurrency)
    ensures result.Ok? <==> forall i :: 0 <= i < |outcome| ==> outcome[i].Ok?
    ensures result.Ok? ==> result.value == Values(outcome)
    ensures result.Err? ==> trace != [] && trace[|trace| - 1].Finished? && trace[|trace| - 1].item < |outcome|
                            && outcome[trace[|trace| - 1].item] == Err(result.error)
  {
    var limit := if concurrency < 1 then 1 else concurrency;
    trace := [];
    if |outcome| == 0 {
      return Ok([]), trace;
    }
    var out: seq<Option<T>> := seq(|outcome|, i => None);
    var pending: set<nat>, next := {}, 0;
    RunsFromNothing(out, outcome, limit);
    hide Running, WellRun, Eager;
    NothingEager(|outcome|, limit);
    while true
      invariant Running(trace, out, outcome, limit, pending, next)
      invariant Eager(trace, |outcome|, limit)
      decreases |outcome| - next + |pending|
    {
      trace, pending, next := FillUp(trace, out, outcome, limit, pending, next);
      if pending == {} {
        break;
      }
      var i :| i in pending;
      CompleteOne(trace, out, outcome, limit, pending, next, i);
      EagerSnoc(trace, Finished(i, outcome[i].Ok?), |outcome|, limit);
      var res := outcome[i];
      trace := trace + [Finished(i, res.Ok?)];
      if res.Err? {
        return Err(res.error), trace;
      }
      out := out[i := Some(res.value)];
      pending := pending - {i};
    }
    AllFilled(trace, out, outcome, limit, next);
    result := Ok(seq(|out|, i requires 0 <= i < |out| => out[i].value));
  }

  lemma CompleteOne<T, E>(trace: seq<Event>, out: seq<Option<T>>, outcome: seq<Result<T, E>>, limit: nat, pending: set<nat>, next: nat, i: nat)
    requires Running(trace, out, outcome, limit, pending, next) && i in pending
    ensures i < |outcome| == |out| && next <= |outcome| && |pending - {i}| < |pending|
    ensures WellRun(trace + [Finished(i, outcome[i].Ok?)], outcome, limit)
    ensures outcome[i].Ok? ==>
              Running(trace + [Finished(i, true)], out[i := Some(outcome[i].value)], outcome, limit, pending - {i}, next)
  {
    FinishOne(trace, outcome, limit, i);
    assert pending - {i} < pending;
    hide WellRun, Open, StartedIn, NoErrorYet, UpTo;
  }

  /** Every slot is filled, so taking the values cannot fail, and they are the values of the inputs
      in input order. */
  lemma AllFilled<T, E>(trace: seq<Event>, out: seq<Option<T>>, outcome: seq<Result<T, E>>, limit: nat, next: nat)
    requires Running(trace, out, outcome, limit, {}, next) && next == |outcome|
    ensures |out| == |outcome| && forall i :: 0 <= i < |out| ==> outcome[i].Ok? && out[i] == Some(outcome[i].value)
    ensures WellRun(trace, outcome, limit)
  {
    hide WellRun;
  }

  lemma RunsFromNothing<T, E>(out: seq<Option<T>>, outcome: seq<Result<T, E>>, limit: nat)
    requires |out| == |outcome| && forall i :: 0 <= i < |out| ==> out[i].None?
    ensures Running([], out, outcome, limit, {}, 0)
  {
  }

  /** buffer_unordered keeps as many calls open as it may. */
  method FillUp<T, E>(trace0: seq<Event>, ghost out: seq<Option<T>>, outcome: seq<Result<T, E>>, limit: nat, pending0: set<nat>, next0: nat)
    returns (trace: seq<Event>, pending: set<nat>, next: nat)
    requires Running(trace0, out, outcome, limit, pending0, next0) && limit > 0
    requires Eager(trace0, |outcome|, limit)
    ensures Running(trace, out, outcome, limit, pending, next) && Eager(trace, |outcome|, limit)
    ensures Open(trace) == pending && (|pending| == limit || |StartedIn(trace)| == |outcome|)
    ensures pending == {} ==> next == |outcome|
    ensures |outcome| - next + |pending| == |outcome| - next0 + |pending0|
  {
    trace, pending, next := trace0, pending0, next0;
    hide WellRun, Open, StartedIn, NoErrorYet, Eager;
    while next < |outcome| && |pending| < limit
      invariant Running(trace, out, outcome, limit, pending, next) && Eager(trace, |outcome|, limit)
      invariant |outcome| - next + |pending| == |outcome| - next0 + |pending0|
    {
      StartNext(trace, outcome, limit, next);
      EagerSnoc(trace, Started(next), |outcome|, limit);
      trace := trace + [Started(next)];
      pending := pending + {next};
      next := next + 1;
    }
    OpenBounded(trace, out, outcome, limit, pending, next);
  }

  lemma OpenBounded<T, E>(trace: seq<Event>, out: seq<Option<T>>, outcome: seq<Result<T, E>>, limit: nat, pending: set<nat>, next: nat)
    requires Running(trace, out, outcome, limit, pending, next)
    ensures Open(trace) == pending && |pending| <= limit && |StartedIn(trace)| == next <= |outcome|
  {
    assert trace[..|trace|] == trace;
    hide Open, StartedIn, Truthful, StopsAtError, NoErrorYet;
  }

  lemma NothingEager(n: nat, limit: nat)
    ensures Eager([], n, limit)
  {
  }
}
