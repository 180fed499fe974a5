/** Single-flight token refresh with rotation (src/auth.rs:134-249).

    Any number of tasks call `refresh()`; every lock section and every exchange with the server is
    one step, and steps of different tasks interleave freely. A task is never cancelled halfway, and
    the wake-up of waiters (`Notify`) is a step that may come at any time. */
module Auth {
  import opened Wrappers

  type Token = string

  /** The stored triple. */
  datatype Pair = Pair(access: Token, refresh: Token, expiresAt: int)

  /** What comes back from the refresh endpoint. */
  datatype Reply = NetworkError | Status(code: nat) | Malformed | Triple(pair: Pair)

  /** do_refresh keeps a 2xx reply that parses and has all three parts. */
  predicate Usable(r: Reply) {
    r.Triple? && r.pair.access != "" && r.pair.refresh != "" && r.pair.expiresAt != 0
  }

  /** Where a task stands inside `refresh()`. */
  datatype Phase =
    | Entering
    | Sending(tok: Token)         // holds the flag, request not yet out
    | InFlight(tok: Token)
    | Storing(pair: Pair)
    | Finishing(ok: bool)
    | Waiting(since: nat)         // |replies| when it began to wait
    | Done(answer: bool)

  datatype Session = Session(
    refreshing: bool,
    stored: Pair,
    tasks: map<nat, Phase>,
    presented: seq<Token>,        // history: tokens sent to the server, and its replies
    replies: seq<Reply>)

  datatype Step =
    | Call(task: nat)
    | Enter(task: nat)
    | Send(task: nat)
    | Receive(task: nat, reply: Reply)
    | Store(task: nat)
    | Finish(task: nat)
    | Wake(task: nat)

  predicate Holds(p: Phase) {
    p.Sending? || p.InFlight? || p.Storing? || p.Finishing?
  }

  predicate Enabled(s: Session, e: Step) {
    match e
    case Call(t) => t !in s.tasks || s.tasks[t].Done?
    case Enter(t) => t in s.tasks && s.tasks[t].Entering?
    case Send(t) => t in s.tasks && s.tasks[t].Sending?
    case Receive(t, _) => t in s.tasks && s.tasks[t].InFlight?
    case Store(t) => t in s.tasks && s.tasks[t].Storing?
    case Finish(t) => t in s.tasks && s.tasks[t].Finishing?
    case Wake(t) => t in s.tasks && s.tasks[t].Waiting?
  }

  function Next(s: Session, e: Step): Session
    requires Enabled(s, e)
  {
    match e
    case Call(t) => s.(tasks := s.tasks[t := Entering])
    case Enter(t) =>
      if s.refreshing then s.(tasks := s.tasks[t := Waiting(|s.replies|)])
      else s.(refreshing := true, tasks := s.tasks[t := Sending(s.stored.refresh)])
    case Send(t) => s.(tasks := s.tasks[t := InFlight(s.tasks[t].tok)], presented := s.presented + [s.tasks[t].tok])
    case Receive(t, reply) =>
      s.(tasks := s.tasks[t := if Usable(reply) then Storing(reply.pair) else Finishing(false)],
         replies := s.replies + [reply])
    case Store(t) => s.(stored := s.tasks[t].pair, tasks := s.tasks[t := Finishing(true)])
    case Finish(t) => s.(refreshing := false, tasks := s.tasks[t := Done(s.tasks[t].ok)])
    case Wake(t) => s.(tasks := s.tasks[t := if s.refreshing then Entering else Done(true)])
  }

  // ---- What always holds ----

  /** The triple of the last usable reply, or the one the session began with. */
  function Current(initial: Pair, replies: seq<Reply>): Pair {
    if replies == [] then initial
    else if Usable(replies[|replies| - 1]) then replies[|replies| - 1].pair
    else Current(initial, replies[..|replies| - 1])
  }

  /** Each request presents the refresh token that is current when it goes out. */
  ghost predicate PresentsCurrent(initial: Pair, presented: seq<Token>, replies: seq<Reply>) {
    && |replies| <= |presented| <= |replies| + 1
    && forall i :: 0 <= i < |presented| ==> presented[i] == Current(initial, replies[..i]).refresh
  }

  /** At most one task holds the flag. */
  ghost predicate OneHolder(s: Session) {
    && (forall t, u :: t in s.tasks && u in s.tasks && Holds(s.tasks[t]) && Holds(s.tasks[u]) ==> t == u)
    && (s.refreshing <==> exists t :: t in s.tasks && Holds(s.tasks[t]))
  }

  /** What the holder has in hand fits the history. */
  ghost predicate HolderOk(initial: Pair, s: Session, p: Phase) {
    match p
    case Sending(tok) => tok == s.stored.refresh && |s.presented| == |s.replies|
    case InFlight(tok) => tok == s.stored.refresh && |s.presented| == |s.replies| + 1
    case Storing(pair) =>
      && |s.presented| == |s.replies| > 0 && pair == Current(initial, s.replies)
      && s.stored == Current(initial, s.replies[..|s.replies| - 1])
    case Finishing(_) => |s.presented| == |s.replies|
    case Waiting(since) => since <= |s.replies|
    case _ => true
  }

  ghost predicate StoredOk(initial: Pair, s: Session) {
    (forall t :: t in s.tasks ==> !s.tasks[t].Storing?) ==> s.stored == Current(initial, s.replies)
  }

  ghost predicate Good(initial: Pair, s: Session) {
    && OneHolder(s)
    && (forall t :: t in s.tasks ==> HolderOk(initial, s, s.tasks[t]))
    && StoredOk(initial, s)
    && PresentsCurrent(initial, s.presented, s.replies)
    && (!s.refreshing ==> |s.presented| == |s.replies|)
  }

  function Start(initial: Pair): Session {
    Session(false, initial, map[], [], [])
  }

  lemma StartGood(initial: Pair)
    ensures Good(initial, Start(initial))
  {
  }

  lemma CurrentSnoc(initial: Pair, replies: seq<Reply>, r: Reply)
    ensures (replies + [r])[..|replies|] == replies
    ensures Current(initial, replies + [r]) == if Usable(r) then r.pair else Current(initial, replies)
  {
    assert (replies + [r])[..|replies|] == replies;
  }

  /** Moving one task keeps the others; who holds changes only as the step says. */
  lemma MoveHolder(s: Session, r: Session, t: nat, p: Phase)
    requires OneHolder(s) && r.tasks == s.tasks[t := p]
    requires t in s.tasks && Holds(s.tasks[t]) ==> r.refreshing == Holds(p)
    requires !(t in s.tasks && Holds(s.tasks[t])) && Holds(p) ==> !s.refreshing && r.refreshing
    requires !(t in s.tasks && Holds(s.tasks[t])) && !Holds(p) ==> r.refreshing == s.refreshing
    ensures OneHolder(r)
  {
    hide Holds;
    assert t in r.tasks && r.tasks[t] == p;
    if r.refreshing && !Holds(p) {
      var u :| u in s.tasks && Holds(s.tasks[u]);
      assert u in r.tasks && Holds(r.tasks[u]);
    }
  }

  lemma StepKeepsHolder(initial: Pair, s: Session, e: Step)
    requires Good(initial, s) && Enabled(s, e)
    ensures OneHolder(Next(s, e))
  {
    var r := Next(s, e);
    assert e.task in r.tasks;
    if e.task in s.tasks && Holds(s.tasks[e.task]) {
      assert s.refreshing;
    }
    hide OneHolder, StoredOk, PresentsCurrent;
    MoveHolder(s, r, e.task, r.tasks[e.task]);
  }

  lemma StepKeepsHistory(initial: Pair, s: Session, e: Step)
    requires Good(initial, s) && Enabled(s, e)
    ensures PresentsCurrent(initial, Next(s, e).presented, Next(s, e).replies)
  {
    var r := Next(s, e);
    hide OneHolder;
    if e.Send? {
      assert HolderOk(initial, s, s.tasks[e.task]);
      assert s.replies[..|s.replies|] == s.replies;
      SendKeepsHistory(initial, s, e.task);
    } else if e.Receive? {
      assert HolderOk(initial, s, s.tasks[e.task]);
      forall i | 0 <= i < |r.presented| ensures r.presented[i] == Current(initial, r.replies[..i]).refresh {
        assert r.replies[..i] == s.replies[..i];
      }
    }
  }

  lemma SendKeepsHistory(initial: Pair, s: Session, t: nat)
    requires Good(initial, s) && Enabled(s, Send(t))
    ensures PresentsCurrent(initial, Next(s, Send(t)).presented, s.replies)
  {
    OnlyHolder(s, t);
    assert HolderOk(initial, s, s.tasks[t]) && s.stored == Current(initial, s.replies);
    hide OneHolder;
    var r := Next(s, Send(t));
    forall i | 0 <= i < |r.presented| ensures r.presented[i] == Current(initial, r.replies[..i]).refresh {
      if i == |s.presented| {
        assert s.replies[..i] == s.replies;
      }
    }
  }

  /** While `t` holds the flag, nobody else does. */
  lemma OnlyHolder(s: Session, t: nat)
    requires OneHolder(s) && t in s.tasks && Holds(s.tasks[t])
    ensures s.refreshing
    ensures forall u :: u in s.tasks && u != t ==> !Holds(s.tasks[u])
  {
  }

  /** Nobody holds the flag, so nothing is in hand. */
  lemma NoHolder(s: Session)
    requires OneHolder(s) && !s.refreshing
    ensures forall u :: u in s.tasks ==> !Holds(s.tasks[u])
  {
  }

  lemma StepKeepsHands(initial: Pair, s: Session, e: Step)
    requires Good(initial, s) && Enabled(s, e)
    ensures var r := Next(s, e);
            && (forall t :: t in r.tasks ==> HolderOk(initial, r, r.tasks[t]))
            && StoredOk(initial, r)
            && (!r.refreshing ==> |r.presented| == |r.replies|)
  {
    var r, t := Next(s, e), e.task;
    if t in s.tasks {
      assert HolderOk(initial, s, s.tasks[t]);
      if Holds(s.tasks[t]) {
        OnlyHolder(s, t);
      }
    }
    if !s.refreshing {
      NoHolder(s);
    }
    if e.Receive? {
      CurrentSnoc(initial, s.replies, e.reply);
    }
    hide OneHolder, PresentsCurrent, Current, Usable;
    HandsAfter(initial, s, e);
  }

  lemma HandsAfter(initial: Pair, s: Session, e: Step)
    requires Enabled(s, e)
    requires (forall t :: t in s.tasks ==> HolderOk(initial, s, s.tasks[t])) && StoredOk(initial, s)
    requires !s.refreshing ==> |s.presented| == |s.replies|
    requires e.task in s.tasks && Holds(s.tasks[e.task]) ==> s.refreshing && forall u :: u in s.tasks && u != e.task ==> !Holds(s.tasks[u])
    requires !s.refreshing ==> forall u :: u in s.tasks ==> !Holds(s.tasks[u])
    requires e.Receive? ==> (s.replies + [e.reply])[..|s.replies|] == s.replies
    requires e.Receive? ==> Current(initial, s.replies + [e.reply]) == if Usable(e.reply) then e.reply.pair else Current(initial, s.replies)
    ensures var r := Next(s, e);
            && (forall t :: t in r.tasks ==> HolderOk(initial, r, r.tasks[t]))
            && StoredOk(initial, r)
            && (!r.refreshing ==> |r.presented| == |r.replies|)
  {
    hide Current, Usable;
    var r, t := Next(s, e), e.task;
    assert t in r.tasks && forall u :: u in r.tasks && u != t ==> u in s.tasks && r.tasks[u] == s.tasks[u];
  }

  lemma StepKeepsGood(initial: Pair, s: Session, e: Step)
    requires Good(initial, s) && Enabled(s, e)
    ensures Good(initial, Next(s, e))
  {
    StepKeepsHolder(initial, s, e);
    StepKeepsHistory(initial, s, e);
    StepKeepsHands(initial, s, e);
    hide OneHolder, HolderOk, StoredOk, PresentsCurrent, Next;
  }

  // ---- Runs ----

  ghost predicate RunEnabled(s: Session, es: seq<Step>)
    decreases es
  {
    es == [] || (Enabled(s, es[0]) && RunEnabled(Next(s, es[0]), es[1..]))
  }

  function Run(s: Session, es: seq<Step>): Session
    requires RunEnabled(s, es)
    decreases es
  {
    if es == [] then s else Run(Next(s, es[0]), es[1..])
  }

  lemma {:induction false} RunKeepsGood(initial: Pair, s: Session, es: seq<Step>)
    requires Good(initial, s) && RunEnabled(s, es)
    ensures Good(initial, Run(s, es))
    decreases es
  {
    hide Good;
    if es != [] {
      StepKeepsGood(initial, s, es[0]);
      hide Next, Enabled;
      RunKeepsGood(initial, Next(s, es[0]), es[1..]);
    }
  }

  /** For any number of tasks and any interleaving, at all times: at most one task is inside
      do_refresh, and one is exactly while the flag is set; a request presents the refresh token that
      is stored, which is the one the previous success returned; and the stored triple is whole: that
      of the last reply, or until the holder has stored it, of the one before. */
  lemma SingleFlight(initial: Pair, es: seq<Step>)
    requires RunEnabled(Start(initial), es)
    ensures var s := Run(Start(initial), es);
            && (forall t, u :: t in s.tasks && u in s.tasks && Holds(s.tasks[t]) && Holds(s.tasks[u]) ==> t == u)
            && (s.refreshing <==> exists t :: t in s.tasks && Holds(s.tasks[t]))
            && (forall t :: t in s.tasks && (s.tasks[t].Sending? || s.tasks[t].InFlight?) ==> s.tasks[t].tok == s.stored.refresh)
            && (forall i :: 0 <= i < |s.presented| ==> i <= |s.replies| && s.presented[i] == Current(initial, s.replies[..i]).refresh)
            && ((forall t :: t in s.tasks ==> !s.tasks[t].Storing?) ==> s.stored == Current(initial, s.replies))
            && (forall t :: t in s.tasks && s.tasks[t].Storing? ==>
                  && s.replies != [] && s.stored == Current(initial, s.replies[..|s.replies| - 1])
                  && s.tasks[t].pair == Current(initial, s.replies))
  {
    StartGood(initial);
    RunKeepsGood(initial, Start(initial), es);
    var s := Run(Start(initial), es);
    hide Run, RunEnabled, Current, Holds;
    forall t | t in s.tasks ensures HolderOk(initial, s, s.tasks[t]) {}
  }

  lemma {:induction false} CurrentIsWhole(initial: Pair, replies: seq<Reply>)
    ensures var p := Current(initial, replies);
            p == initial || exists i :: 0 <= i < |replies| && Usable(replies[i]) && p == replies[i].pair
    decreases replies
  {
    if replies != [] {
      var init := replies[..|replies| - 1];
      if !Usable(replies[|replies| - 1]) {
        CurrentIsWhole(initial, init);
        if Current(initial, replies) != initial {
          var i :| 0 <= i < |init| && Usable(init[i]) && Current(initial, init) == init[i].pair;
          assert replies[i] == init[i];
        }
      }
    }
  }

  /** The server rotates: a refresh token it hands out was never presented or handed out before. */
  ghost predicate Rotates(presented: seq<Token>, replies: seq<Reply>) {
    && |replies| <= |presented|
    && forall j, i :: 0 <= j < |replies| && Usable(replies[j]) && 0 <= i <= j ==> replies[j].pair.refresh != presented[i]
  }

  /** With a server that rotates, a token that a success has retired is never presented again. */
  lemma RetiredStaysRetired(initial: Pair, s: Session, j: nat, i: nat)
    requires Good(initial, s) && Rotates(s.presented, s.replies)
    requires j < |s.replies| && Usable(s.replies[j]) && j < i < |s.presented|
    ensures s.presented[i] != s.presented[j]
  {
    hide OneHolder, HolderOk, StoredOk;
    LastSuccess(initial, s.replies, j, i);
    var m :| j <= m < i && Usable(s.replies[m]) && Current(initial, s.replies[..i]) == s.replies[m].pair;
    assert s.replies[m].pair.refresh != s.presented[j];
  }

  lemma {:induction false} LastSuccess(initial: Pair, replies: seq<Reply>, j: nat, i: nat)
    requires j < i <= |replies| && Usable(replies[j])
    ensures exists m :: j <= m < i && Usable(replies[m]) && Current(initial, replies[..i]) == replies[m].pair
    decreases i
  {
    assert replies[..i][i - 1] == replies[i - 1] && replies[..i][..i - 1] == replies[..i - 1];
    if !Usable(replies[i - 1]) {
      LastSuccess(initial, replies, j, i - 1);
    }
  }

  // ---- What an answer of `true` is worth ----

  /** Some reply since then was usable. */
  ghost predicate Renewed(s: Session, since: nat) {
    exists i :: since <= i < |s.replies| && Usable(s.replies[i])
  }

  /** The holder answers true exactly when its reply was usable and is now stored. */
  lemma HolderIsHonest(initial: Pair, s: Session, t: nat, reply: Reply)
    requires Good(initial, s) && Enabled(s, Receive(t, reply))
    ensures var a := Next(s, Receive(t, reply));
            && (Usable(reply) ==>
                  && Enabled(a, Store(t)) && Enabled(Next(a, Store(t)), Finish(t))
                  && var d := Next(Next(a, Store(t)), Finish(t)); d.tasks[t] == Done(true) && d.stored == reply.pair)
            && (!Usable(reply) ==>
                  && Enabled(a, Finish(t))
                  && var d := Next(a, Finish(t)); d.tasks[t] == Done(false) && d.stored == s.stored)
  {
  }

  /** The steps by which `u` gets its reply and lets go. */
  function Settle(u: nat, reply: Reply): seq<Step> {
    if Usable(reply) then [Receive(u, reply), Store(u), Finish(u)] else [Receive(u, reply), Finish(u)]
  }

  /** What becomes of a refresh, by what the endpoint sent: a triple with all three parts is stored
      whole and the caller answers true; after a network error, a status, text that does not parse, or
      a triple that lacks a part, nothing is stored and the caller answers false. */
  lemma ReplyDecides(s: Session, t: nat, reply: Reply)
    requires t in s.tasks && s.tasks[t].InFlight?
    ensures var whole := reply.Triple? && |reply.pair.access| > 0 && |reply.pair.refresh| > 0 && reply.pair.expiresAt != 0;
            var es := if whole then [Receive(t, reply), Store(t), Finish(t)] else [Receive(t, reply), Finish(t)];
            && RunEnabled(s, es)
            && var d := Run(s, es);
               && d.tasks == s.tasks[t := Done(whole)] && !d.refreshing
               && d.stored == (if whole then reply.pair else s.stored)
               && d.replies == s.replies + [reply] && d.presented == s.presented
  {
    var a := Next(s, Receive(t, reply));
    if reply.Triple? && |reply.pair.access| > 0 && |reply.pair.refresh| > 0 && reply.pair.expiresAt != 0 {
      var b := Next(a, Store(t));
      LastStep(b, Finish(t));
      RunOne(a, Store(t), [Finish(t)]);
      RunOne(s, Receive(t, reply), [Store(t), Finish(t)]);
      assert [Receive(t, reply)] + [Store(t), Finish(t)] == [Receive(t, reply), Store(t), Finish(t)];
      assert [Store(t)] + [Finish(t)] == [Store(t), Finish(t)];
      hide Run, RunEnabled, Usable;
    } else {
      LastStep(a, Finish(t));
      RunOne(s, Receive(t, reply), [Finish(t)]);
      assert [Receive(t, reply)] + [Finish(t)] == [Receive(t, reply), Finish(t)];
      hide Run, RunEnabled;
    }
  }

  /** A session that begins with all three parts has all three at every moment of every run. */
  lemma StoredStaysComplete(initial: Pair, es: seq<Step>)
    requires RunEnabled(Start(initial), es)
    requires |initial.access| > 0 && |initial.refresh| > 0 && initial.expiresAt != 0
    ensures var p := Run(Start(initial), es).stored; |p.access| > 0 && |p.refresh| > 0 && p.expiresAt != 0
  {
    SingleFlight(initial, es);
    var s := Run(Start(initial), es);
    hide Run, RunEnabled;
    CurrentComplete(initial, s.replies);
    if t :| t in s.tasks && s.tasks[t].Storing? {
      CurrentComplete(initial, s.replies[..|s.replies| - 1]);
    }
  }

  lemma CurrentComplete(initial: Pair, replies: seq<Reply>)
    requires |initial.access| > 0 && |initial.refresh| > 0 && initial.expiresAt != 0
    ensures var p := Current(initial, replies); |p.access| > 0 && |p.refresh| > 0 && p.expiresAt != 0
  {
    CurrentIsWhole(initial, replies);
    hide Current;
  }

  /** A waiter answers true whenever it wakes and finds nobody refreshing, whatever became of the
      refresh it waited for. What is stored then is the triple of the last success; without a usable
      reply since it began to wait that is the triple it saw, the one it wanted replaced; and with a
      server that rotates its answer is right exactly when there was one. */
  lemma WaiterTrustsTheFlag(initial: Pair, es: seq<Step>, t: nat)
    requires RunEnabled(Start(initial), es)
    requires var s := Run(Start(initial), es); t in s.tasks && s.tasks[t].Waiting?
    ensures var s := Run(Start(initial), es);
            var since, d := s.tasks[t].since, Next(s, Wake(t));
            && since <= |s.replies| && d.stored == s.stored
            && (d.tasks[t] == if s.refreshing then Entering else Done(true))
            && (!s.refreshing ==>
                  && d.stored == Current(initial, s.replies)
                  && (!Renewed(s, since) ==> d.stored == Current(initial, s.replies[..since]))
                  && (Rotates(s.presented, s.replies) ==>
                        (Renewed(s, since) <==> d.stored.refresh != Current(initial, s.replies[..since]).refresh)))
  {
    StartGood(initial);
    RunKeepsGood(initial, Start(initial), es);
    var s := Run(Start(initial), es);
    hide Run, RunEnabled;
    assert HolderOk(initial, s, s.tasks[t]);
    var since := s.tasks[t].since;
    if !s.refreshing {
      NoHolder(s);
      NothingStoring(initial, s);
      hide OneHolder, HolderOk, StoredOk, Good;
      assert s.replies[..|s.replies|] == s.replies;
      if !Renewed(s, since) {
        CurrentUntil(initial, s.replies, since, |s.replies|);
      } else if Rotates(s.presented, s.replies) {
        RenewedDiffers(initial, s, since);
      }
    }
  }

  lemma NothingStoring(initial: Pair, s: Session)
    requires Good(initial, s) && !s.refreshing
    ensures s.stored == Current(initial, s.replies) && PresentsCurrent(initial, s.presented, s.replies) && |s.presented| == |s.replies|
  {
    NoHolder(s);
    hide OneHolder, HolderOk, Current, PresentsCurrent;
  }

  /** Replies that are of no use leave the triple alone. */
  lemma {:induction false} CurrentUntil(initial: Pair, replies: seq<Reply>, a: nat, b: nat)
    requires a <= b <= |replies| && forall i :: a <= i < b ==> !Usable(replies[i])
    ensures Current(initial, replies[..b]) == Current(initial, replies[..a])
    decreases b
  {
    hide Usable;
    if a < b {
      assert replies[..b][b - 1] == replies[b - 1] && replies[..b][..b - 1] == replies[..b - 1];
      CurrentUntil(initial, replies, a, b - 1);
    }
  }

  lemma {:induction false} FirstUsable(replies: seq<Reply>, since: nat) returns (i: nat)
    requires exists k :: since <= k < |replies| && Usable(replies[k])
    ensures since <= i < |replies| && Usable(replies[i]) && forall k :: since <= k < i ==> !Usable(replies[k])
    decreases |replies| - since
  {
    hide Usable;
    if Usable(replies[since]) {
      i := since;
    } else {
      i := FirstUsable(replies, since + 1);
    }
  }

  /** The first usable reply retired the token the waiter saw, and no later one brings it back. */
  lemma RenewedDiffers(initial: Pair, s: Session, since: nat)
    requires PresentsCurrent(initial, s.presented, s.replies) && |s.presented| == |s.replies| && Rotates(s.presented, s.replies)
    requires since <= |s.replies| && Renewed(s, since)
    ensures Current(initial, s.replies).refresh != Current(initial, s.replies[..since]).refresh
  {
    var i := FirstUsable(s.replies, since);
    CurrentUntil(initial, s.replies, since, i);
    assert s.presented[i] == Current(initial, s.replies[..i]).refresh;
    LastSuccess(initial, s.replies, i, |s.replies|);
    assert s.replies[..|s.replies|] == s.replies;
    var m :| i <= m < |s.replies| && Usable(s.replies[m]) && Current(initial, s.replies[..|s.replies|]) == s.replies[m].pair;
    hide Current, Usable;
    assert s.replies[m].pair.refresh != s.presented[i];
  }

  /** The holder settles with any reply, and the waiter's answer is true. */
  lemma WaiterAfterSettle(s: Session, u: nat, t: nat, reply: Reply)
    requires Enabled(s, Receive(u, reply)) && t in s.tasks && s.tasks[t] == Waiting(|s.replies|)
    ensures RunEnabled(s, Settle(u, reply))
    ensures var a := Run(s, Settle(u, reply));
            && Enabled(a, Wake(t))
            && var d := Next(a, Wake(t));
               && d == Session(false, if Usable(reply) then reply.pair else s.stored, s.tasks[u := Done(Usable(reply))][t := Done(true)],
                               s.presented, s.replies + [reply])
               && (Renewed(d, |s.replies|) <==> Usable(reply))
  {
    var b := Next(s, Receive(u, reply));
    if Usable(reply) {
      var c := Next(b, Store(u));
      RunOne(c, Finish(u), []);
      RunOne(b, Store(u), [Finish(u)]);
      RunOne(s, Receive(u, reply), [Store(u), Finish(u)]);
      assert b.replies[|s.replies|] == reply;
    } else {
      RunOne(b, Finish(u), []);
      RunOne(s, Receive(u, reply), [Finish(u)]);
    }
  }

  /** Two tasks get there: one refreshes, the other waits for it. */
  lemma OneRefreshesOneWaits(initial: Pair)
    ensures var es := [Call(0), Enter(0), Send(0), Call(1), Enter(1)];
            && RunEnabled(Start(initial), es)
            && Run(Start(initial), es)
               == Session(true, initial, map[0 := InFlight(initial.refresh), 1 := Waiting(0)], [initial.refresh], [])
  {
    var s0 := Start(initial);
    var s1 := Next(s0, Call(0));
    var s2 := Next(s1, Enter(0));
    var s3 := Next(s2, Send(0));
    var s4 := Next(s3, Call(1));
    assert Enabled(s4, Enter(1)) && s4.refreshing;
    RunOne(s4, Enter(1), []);
    RunOne(s3, Call(1), [Enter(1)]);
    RunOne(s2, Send(0), [Call(1), Enter(1)]);
    RunOne(s1, Enter(0), [Send(0), Call(1), Enter(1)]);
    RunOne(s0, Call(0), [Enter(0), Send(0), Call(1), Enter(1)]);
  }

  lemma {:induction false} RunConcat(s: Session, x: seq<Step>, y: seq<Step>)
    requires RunEnabled(s, x) && RunEnabled(Run(s, x), y)
    ensures RunEnabled(s, x + y) && Run(s, x + y) == Run(Run(s, x), y)
    decreases x
  {
    hide Enabled, Next;
    if x == [] {
      assert x + y == y;
    } else {
      RunConcat(Next(s, x[0]), x[1..], y);
      assert (x + y)[1..] == x[1..] + y && (x + y)[0] == x[0];
    }
  }

  /** From the start, with any reply: one task refreshes and answers what became of it, the other
      waits and answers true. After a reply of no use the two answers differ and the old triple is
      still stored. */
  lemma OneRefreshesOneTrusts(initial: Pair, reply: Reply)
    ensures var es := [Call(0), Enter(0), Send(0), Call(1), Enter(1)] + Settle(0, reply) + [Wake(1)];
            && RunEnabled(Start(initial), es)
            && var d := Run(Start(initial), es);
               && d.tasks == map[0 := Done(Usable(reply)), 1 := Done(true)]
               && d.stored == (if Usable(reply) then reply.pair else initial)
               && d.presented == [initial.refresh] && d.replies == [reply] && !d.refreshing
  {
    var x := [Call(0), Enter(0), Send(0), Call(1), Enter(1)];
    SettleThenWake(initial, reply);
    hide *;
    OneRefreshesOneWaits(initial);
    var s := Run(Start(initial), x);
    RunConcat(Start(initial), x, Settle(0, reply));
    RunConcat(Start(initial), x + Settle(0, reply), [Wake(1)]);
  }

  lemma SettleThenWake(initial: Pair, reply: Reply)
    ensures var s := Session(true, initial, map[0 := InFlight(initial.refresh), 1 := Waiting(0)], [initial.refresh], []);
            && RunEnabled(s, Settle(0, reply)) && RunEnabled(Run(s, Settle(0, reply)), [Wake(1)])
            && Run(Run(s, Settle(0, reply)), [Wake(1)])
               == Session(false, if Usable(reply) then reply.pair else initial, map[0 := Done(Usable(reply)), 1 := Done(true)],
                          [initial.refresh], [reply])
  {
    var s := Session(true, initial, map[0 := InFlight(initial.refresh), 1 := Waiting(0)], [initial.refresh], []);
    assert Enabled(s, Receive(0, reply));
    assert s.tasks[0 := Done(Usable(reply))][1 := Done(true)] == map[0 := Done(Usable(reply)), 1 := Done(true)];
    hide *;
    WaiterAfterSettle(s, 0, 1, reply);
    LastStep(Run(s, Settle(0, reply)), Wake(1));
  }

  lemma LastStep(s: Session, e: Step)
    requires Enabled(s, e)
    ensures RunEnabled(s, [e]) && Run(s, [e]) == Next(s, e)
  {
  }

  lemma RunOne(s: Session, e: Step, es: seq<Step>)
    requires Enabled(s, e) && RunEnabled(Next(s, e), es)
    ensures RunEnabled(s, [e] + es) && Run(s, [e] + es) == Run(Next(s, e), es)
  {
    assert ([e] + es)[1..] == es;
  }

  // ---- The lock sections themselves ----

  class ClientAuthSession {
    var refreshing: bool
    var access: Token
    var refresh: Token
    var expiresAt: int

    ghost function Stored(): Pair
      reads this
    {
      Pair(access, refresh, expiresAt)
    }

    /** What the mutex guards agrees with the session. */
    ghost predicate Guards(s: Session)
      reads this
    {
      refreshing == s.refreshing && Stored() == s.stored
    }

    constructor (initial: Pair)
      ensures Guards(Start(initial))
    {
      refreshing := false;
      access, refresh, expiresAt := initial.access, initial.refresh, initial.expiresAt;
    }

    /** Take the flag and the token to present, or learn that another task has it. */
    method Begin(ghost s: Session, ghost t: nat) returns (tok: Option<Token>)
      requires Guards(s) && Enabled(s, Enter(t))
      modifies this`refreshing
      ensures Guards(Next(s, Enter(t)))
      ensures Next(s, Enter(t)).tasks[t] == if tok.Some? then Sending(tok.value) else Waiting(|s.replies|)
    {
      if refreshing {
        return None;
      }
      refreshing := true;
      tok := Some(refresh);
    }

    /** All three parts under one lock. */
    method Keep(ghost s: Session, ghost t: nat, pair: Pair)
      requires Guards(s) && Enabled(s, Store(t)) && s.tasks[t].pair == pair
      modifies this`access, this`refresh, this`expiresAt
      ensures Guards(Next(s, Store(t)))
    {
      access := pair.access;
      refresh := pair.refresh;
      expiresAt := pair.expiresAt;
    }

    method End(ghost s: Session, ghost t: nat)
      requires Guards(s) && Enabled(s, Finish(t))
      modifies this`refreshing
      ensures Guards(Next(s, Finish(t)))
    {
      refreshing := false;
    }

    /** After a notification: done, or around the loop again. */
    method Recheck(ghost s: Session, ghost t: nat) returns (done: bool)
      requires Guards(s) && Enabled(s, Wake(t))
      ensures Next(s, Wake(t)).tasks[t] == (if done then Done(true) else Entering)
    {
      done := !refreshing;
    }
  }
}
