/** Sockets come and go while tasks still mean an earlier one: closes that nobody hears, and bytes
    that outlive the socket they were built for. In any interleaving of lock sections. */
module Sockets {
  import opened Wrappers
  import opened Bytes
  import opened Points
  import opened Reading
  import opened Loc
  import opened Queue
  import opened Backoff
  import opened Engine
  import opened Runs
  import opened Safety
  import opened Handlers
  import opened Tracks
  import opened Races
  import M = Messages
  import T = Types

  // ---- What touches the connection ----

  predicate AboutSocket(e: Event) {
    e.EDialBegin? || e.EDialInstall? || e.EDialAbandon? || e.ESocketClosed? || e.EAuthDenied? || e.EAuthRefreshed?
    || e.EAuthRefreshFailed? || e.EClose? || e.EHandOver?
  }

  ghost predicate LeavesSocket(st: State, r: State) {
    && r.s.dialGen == st.s.dialGen && r.s.conn == st.s.conn && r.s.socket == st.s.socket && r.s.intentional == st.s.intentional
    && r.s.backoff == st.s.backoff
    && r.log.dials == st.log.dials && r.log.installed == st.log.installed && r.log.wire == st.log.wire
  }

  /** The other events leave it alone. */
  lemma OthersLeaveSocket(flat: Flat, st: State, e: Event)
    requires Shape(st.s.queue, st.s.lastAssigned) && !AboutSocket(e)
    ensures LeavesSocket(st, Step(flat, st, e))
  {
    hide Shape, Step, LeavesSocket;
    if e.EFlush? || e.EPublish? || e.EError? {
      PointsLeaveSocket(flat, st, e);
    } else if Quiet(e) {
      FlagsLeaveSocket(flat, st, e);
    } else {
      TracksLeaveSocket(flat, st, e);
    }
  }

  lemma PointsLeaveSocket(flat: Flat, st: State, e: Event)
    requires Shape(st.s.queue, st.s.lastAssigned) && (e.EFlush? || e.EPublish? || e.EError?)
    ensures LeavesSocket(st, Step(flat, st, e))
  {
    hide Shape, FlushPass, Publish, ErrorEvent, PickedOk, LeavesSocket;
    if e.EFlush? {
      FlushLeavesSocket(st);
    } else if e.EPublish? {
      PublishLeavesSocket(flat, st, e.point);
    } else {
      ErrorLeavesSocket(st, e.code);
    }
  }

  lemma FlushLeavesSocket(st: State)
    requires Shape(st.s.queue, st.s.lastAssigned)
    ensures PickedOk(st.s) && LeavesSocket(st, FlushPass(st))
  {
    PickedHasRoom(st.s);
    hide Shape, RecordAll, Sending, NewNames, BuiltFrom, Picked;
  }

  lemma PublishLeavesSocket(flat: Flat, st: State, point: LatLng)
    ensures LeavesSocket(st, Publish(st, flat, point))
  {
    if Live(st.s) {
      hide Held, Enqueue, RecordFrame, SingleBytes, FixOf;
    } else {
      hide Held, PushStaging;
    }
  }

  lemma ErrorLeavesSocket(st: State, code: T.ErrorCode)
    ensures LeavesSocket(st, ErrorEvent(st, code))
  {
    hide Held, Cleared;
  }

  lemma FlagsLeaveSocket(flat: Flat, st: State, e: Event)
    requires Shape(st.s.queue, st.s.lastAssigned) && Quiet(e) && !AboutSocket(e)
    ensures LeavesSocket(st, Step(flat, st, e))
  {
    hide Shape, FlushPass, Publish, ErrorEvent, SocketClosed, TrackStopped, TrackStarted, StartBegin, AutoStart, Ack, ResumeOk,
      ManualResume, PickedOk, DialBegin, DialInstall, DialAbandon, HandOver;
  }

  lemma TracksLeaveSocket(flat: Flat, st: State, e: Event)
    requires Shape(st.s.queue, st.s.lastAssigned) && !AboutSocket(e) && !Quiet(e) && !e.EFlush? && !e.EPublish? && !e.EError?
    ensures LeavesSocket(st, Step(flat, st, e))
  {
    hide Shape, FlushPass, Publish, ErrorEvent, PickedOk, SocketClosed, DialBegin, DialInstall, DialAbandon, HandOver, AckThrough, Held, Cleared;
  }

  // ---- A close that is outdated ----

  /** After these, closes of the sockets installed so far are outdated. */
  predicate Outdates(e: Event) {
    e.EDialBegin? || e.EAuthRefreshed?
  }

  lemma GenerationStep(flat: Flat, st: State, e: Event)
    requires Shape(st.s.queue, st.s.lastAssigned)
    ensures Step(flat, st, e).s.dialGen == if Outdates(e) then st.s.dialGen + 1 else st.s.dialGen
  {
    if AboutSocket(e) {
      hide Shape, FlushPass, Publish, ErrorEvent, PickedOk, MarkUnsent, Exhausted;
    } else {
      OthersLeaveSocket(flat, st, e);
      hide Shape, Step;
    }
  }

  lemma {:induction false} GenerationRun(flat: Flat, st: State, es: seq<Event>)
    requires Inv(st) && RunAllowed(flat, st, es)
    ensures Run(flat, st, es).s.dialGen >= st.s.dialGen
    ensures Run(flat, st, es).s.dialGen == st.s.dialGen <==> forall e :: e in es ==> !Outdates(e)
    decreases es
  {
    if es != [] {
      InvShape(st);
      InvStep(flat, st, es[0]);
      GenerationStep(flat, st, es[0]);
      hide Step, Inv, Allowed, Shape, Outdates;
      GenerationRun(flat, Step(flat, st, es[0]), es[1..]);
    }
  }

  /** The close of the socket in use: the client is closed for good and nobody waits for an answer, or
      an attempt is counted and a dial follows. */
  ghost predicate EndsOrRedials(u: State, r: State, canReconnect: bool) {
    && r.s.socket.None? && !r.s.ready
    && (r.s.conn.Closed? <==> u.s.intentional || !canReconnect || Exhausted(u.s.backoff))
    && (r.s.conn.Closed? && !u.s.intentional ==> !r.s.startWait && !r.s.stopWait && !r.s.resumeWait)
    && (!r.s.conn.Closed? ==> r.s.conn.Reconnecting? && r.s.backoff.attempt == u.s.backoff.attempt + 1)
  }

  /** For every run after a socket's install: its close ends the client or leads to a dial exactly
      when meanwhile no dial began and no credentials were refreshed, or the client is closed anyway;
      otherwise it does nothing at all. */
  lemma CloseIsHeard(flat: Flat, st: State, es: seq<Event>, canReconnect: bool)
    requires Inv(st) && RunAllowed(flat, st, es)
    ensures var u := Run(flat, st, es);
            var r := SocketClosed(u, st.s.dialGen, canReconnect);
            var quiet := forall e :: e in es ==> !Outdates(e);
            && (quiet ==> EndsOrRedials(u, r, canReconnect))
            && (!quiet ==> r == u)
            && (r.s.conn.Closed? || r.s.backoff.attempt == u.s.backoff.attempt + 1 <==> quiet || u.s.conn.Closed?)
  {
    GenerationRun(flat, st, es);
    hide Run, RunAllowed, Outdates, Inv, SocketClosed, EndsOrRedials;
    CloseActs(Run(flat, st, es), st.s.dialGen, canReconnect);
  }

  lemma CloseActs(u: State, gen: nat, canReconnect: bool)
    ensures var r := SocketClosed(u, gen, canReconnect);
            && (gen == u.s.dialGen ==> EndsOrRedials(u, r, canReconnect)) && (gen != u.s.dialGen ==> r == u)
            && (r.s.conn.Closed? || r.s.backoff.attempt == u.s.backoff.attempt + 1 <==> gen == u.s.dialGen || u.s.conn.Closed?)
  {
    hide MarkUnsent;
  }

  // ---- Nobody redials ----

  /** The newest generation has no socket and no dial under way: every installed socket is outdated,
      and so is every dial that is still out. */
  ghost predicate Stranded(st: State) {
    !st.s.conn.Closed? && st.s.dialGen !in st.log.installed && st.s.dialGen !in st.log.dials
  }

  /** What can end that: a new dial, the end of a dial's task that reports its own generation, or an end
      of the client. Readers of installed sockets report theirs. */
  predicate Rescues(e: Event, installed: seq<nat>) {
    || e.EDialBegin? || e.EClose? || e.EAuthDenied? || e.EAuthRefreshFailed?
    || (e.ESocketClosed? && e.gen !in installed)
  }

  predicate Answers(e: Event) {
    e.EResumeOk? || e.ETrackStarted? || e.ETrackStopped? || e.EError? || e.EStartFailed? || e.EResumeFailed? || e == EStopWait(false)
  }

  /** A dial that fails leaves the client stranded, unless it was closed or the failure is reported
      under the dial's generation. */
  lemma FailedDialStrands(st: State)
    requires Generations(st)
    ensures var gen := st.s.dialGen + 1;
            Stranded(DialAbandon(DialBegin(st), gen)) && forall g :: g in st.log.installed ==> SocketClosed(DialAbandon(DialBegin(st), gen), g, true) == DialAbandon(DialBegin(st), gen)
  {
    hide Increasing;
  }

  ghost predicate StillWaits(st: State, r: State) {
    && (st.s.startWait ==> r.s.startWait) && (st.s.stopWait ==> r.s.stopWait) && (st.s.resumeWait ==> r.s.resumeWait)
  }

  lemma StrandedStep(flat: Flat, st: State, e: Event)
    requires Inv(st) && Allowed(st, e) && Stranded(st) && !Rescues(e, st.log.installed)
    ensures Shape(st.s.queue, st.s.lastAssigned)
    ensures var r := Step(flat, st, e);
            && Stranded(r) && r.log.installed == st.log.installed && r.s.conn == st.s.conn && r.s.backoff == st.s.backoff
  {
    InvParts(st);
    InvShape(st);
    hide Inv, Delivery, Conserved, Shape, Step, Allowed, Generations;
    if AboutSocket(e) {
      StrandedSocket(flat, st, e);
    } else {
      OthersLeaveSocket(flat, st, e);
    }
  }

  lemma StrandedSocket(flat: Flat, st: State, e: Event)
    requires Shape(st.s.queue, st.s.lastAssigned) && Generations(st) && Stranded(st) && AboutSocket(e) && !Rescues(e, st.log.installed)
    ensures var r := Step(flat, st, e);
            && Stranded(r) && r.log.installed == st.log.installed && r.s.conn == st.s.conn && r.s.backoff == st.s.backoff
  {
    assert st.s.dialGen + 1 !in st.log.installed && st.s.dialGen + 1 !in st.log.dials;
    hide Shape, Generations, FlushPass, Publish, ErrorEvent, PickedOk, SocketClosed, Reset, Increasing;
    if e.ESocketClosed? {
      Ignored(st, e.gen, e.canReconnect);
    }
  }

  lemma Ignored(st: State, gen: nat, canReconnect: bool)
    requires gen != st.s.dialGen
    ensures SocketClosed(st, gen, canReconnect) == st
  {
  }

  lemma WaitsStep(flat: Flat, st: State, e: Event)
    requires Shape(st.s.queue, st.s.lastAssigned) && !Answers(e) && !Rescues(e, st.log.installed) && st.s.dialGen !in st.log.installed
    ensures StillWaits(st, Step(flat, st, e))
  {
    if e.EFlush? {
      FlushWaits(st);
      hide Shape, FlushPass;
    } else if e.EPublish? {
      PublishWaits(flat, st, e.point);
      hide Shape, Publish;
    } else if AboutSocket(e) {
      hide Shape, FlushPass, Publish, ErrorEvent, PickedOk, MarkUnsent, Exhausted, Reset, AutoStart, StartBegin, ManualResume, Ack;
    } else {
      hide Shape, FlushPass, Publish, ErrorEvent, PickedOk, SocketClosed, DialInstall, HandOver, CloseLocked, Held, Cleared, AckThrough;
    }
  }

  lemma FlushWaits(st: State)
    requires Shape(st.s.queue, st.s.lastAssigned)
    ensures PickedOk(st.s) && StillWaits(st, FlushPass(st))
  {
    PickedHasRoom(st.s);
    hide Shape, RecordAll, Sending, NewNames, BuiltFrom, Picked;
  }

  lemma PublishWaits(flat: Flat, st: State, point: LatLng)
    ensures StillWaits(st, Publish(st, flat, point))
  {
    hide Held, Enqueue, RecordFrame, SingleBytes, FixOf, PushStaging, Live;
  }

  /** A stranded client stays so, whatever else runs: it is not closed, installs nothing and counts no
      attempt; and whoever waits for an answer that no server gives waits on. */
  lemma {:induction false} StaysStranded(flat: Flat, st: State, es: seq<Event>)
    requires Inv(st) && RunAllowed(flat, st, es) && Stranded(st)
    requires forall e :: e in es ==> !Rescues(e, st.log.installed)
    ensures var r := Run(flat, st, es);
            && Stranded(r) && r.log.installed == st.log.installed && r.s.conn == st.s.conn && r.s.backoff == st.s.backoff
            && ((forall e :: e in es ==> !Answers(e)) ==> StillWaits(st, r))
    decreases es
  {
    if es != [] {
      var e := es[0];
      assert e in es;
      StrandedStep(flat, st, e);
      InvStep(flat, st, e);
      if !Answers(e) {
        WaitsStep(flat, st, e);
      }
      hide Step, Inv, Allowed, Shape, Rescues, Answers, Stranded;
      var v := Step(flat, st, e);
      assert forall x :: x in es[1..] ==> x in es;
      StaysStranded(flat, v, es[1..]);
    }
  }

  /** A start is sent, a relocation begins a dial that fails, and the socket closes. */
  function LostRedial(st: State): State {
    DialAbandon(DialBegin(StartBegin(st)), st.s.dialGen + 1)
  }

  /** A new client gets there. With attempts left and nobody having closed it, the close of its socket
      does nothing, no later run dials unless someone begins a dial anew, and the caller of the start
      is never told. */
  lemma CloseIsLost(flat: Flat, s0: State, st: State, uid: Uid, last: U32)
    requires Reachable(flat, s0, st) && Sailing(st, uid, last)
    ensures var r := LostRedial(st);
            && Reachable(flat, s0, r) && Inv(r) && SocketClosed(r, st.s.dialGen, true) == r
            && st.s.socket == Some(st.s.dialGen) && Stranded(r) && r.s.startWait && !r.s.intentional && !Exhausted(r.s.backoff)
            && forall es {:trigger RunAllowed(flat, r, es)} ::
                 RunAllowed(flat, r, es) && (forall e :: e in es ==> !Rescues(e, r.log.installed) && !Answers(e)) ==>
                   var t := Run(flat, r, es); Stranded(t) && t.log.installed == r.log.installed && t.s.startWait
  {
    var r := LostRedial(st);
    var a := StartBegin(st);
    LostRedialIs(st, uid, last);
    LostRedialReached(flat, s0, st, uid, last);
    hide Inv, Reachable, Sailing, Stranded, LostRedial, Rescues, Answers;
    forall es {:trigger RunAllowed(flat, r, es)}
      | RunAllowed(flat, r, es) && (forall e :: e in es ==> !Rescues(e, r.log.installed) && !Answers(e))
      ensures var t := Run(flat, r, es); Stranded(t) && t.log.installed == r.log.installed && t.s.startWait
    {
      StaysStranded(flat, r, es);
    }
  }

  lemma LostRedialReached(flat: Flat, s0: State, st: State, uid: Uid, last: U32)
    requires Reachable(flat, s0, st) && Sailing(st, uid, last)
    ensures Reachable(flat, s0, LostRedial(st)) && Inv(LostRedial(st))
  {
    SailingInv(st, uid, last);
    hide Inv, Reachable, Sailing, StartBegin, DialBegin, DialAbandon;
    ThenStartBegin(flat, s0, st);
    ThenDialBegin(flat, s0, StartBegin(st));
    ThenDialAbandon(flat, s0, DialBegin(StartBegin(st)), st.s.dialGen + 1);
  }

  lemma LostRedialIs(st: State, uid: Uid, last: nat)
    requires Sailing(st, uid, last)
    ensures var r := LostRedial(st);
            && SocketClosed(r, st.s.dialGen, true) == r && st.s.socket == Some(st.s.dialGen)
            && Stranded(r) && r.s.startWait && !r.s.intentional && !Exhausted(r.s.backoff)
  {
    SailingGenerations(st, uid, last);
    hide Inv, Exhausted, Increasing, Cleared, Held;
  }

  lemma SailingGenerations(st: State, uid: Uid, last: nat)
    requires Sailing(st, uid, last)
    ensures Generations(st)
  {
    SailingInv(st, uid, last);
    hide Sailing, Delivery, Conserved, Generations;
  }

  // ---- Bytes that outlive their socket ----

  /** What was handed to the writer of generation `gen`, in order. */
  function WireOf(wire: seq<Sent>, gen: nat): seq<seq<Byte>> {
    if wire == [] then [] else
      WireOf(wire[..|wire| - 1], gen) + if wire[|wire| - 1].gen == gen then [wire[|wire| - 1].bytes] else []
  }

  /** What the sends of a run hand over while a writer listens. */
  function HandedOver(es: seq<Event>): seq<seq<Byte>>
    decreases es
  {
    if es == [] then [] else
      (if es[0].EHandOver? && es[0].alive then [es[0].bytes] else []) + HandedOver(es[1..])
  }

  /** Only installed sockets have writers and wires. */
  ghost predicate Known(st: State) {
    && (st.s.socket.Some? ==> st.s.socket.value in st.log.installed)
    && forall x :: x in st.log.wire ==> x.gen in st.log.installed
  }

  lemma InitialKnown(cap: nat, backoff: BackoffState)
    ensures Known(Initial(cap, backoff))
  {
  }

  /** A step other than a send and an install adds nothing to a wire; the socket stays or goes. */
  lemma SocketStays(flat: Flat, st: State, e: Event)
    requires Shape(st.s.queue, st.s.lastAssigned) && !e.EHandOver? && !e.EDialInstall?
    ensures var r := Step(flat, st, e);
            && r.log.wire == st.log.wire && r.log.installed == st.log.installed && (r.s.socket == st.s.socket || r.s.socket.None?)
            && (st.s.intentional ==> r.s.intentional)
  {
    if AboutSocket(e) {
      hide Shape, FlushPass, Publish, ErrorEvent, PickedOk, MarkUnsent, Exhausted;
    } else {
      OthersLeaveSocket(flat, st, e);
      hide Shape, Step;
    }
  }

  lemma KnownStep(flat: Flat, st: State, e: Event)
    requires Shape(st.s.queue, st.s.lastAssigned) && Known(st)
    ensures Known(Step(flat, st, e))
  {
    if e.EHandOver? || e.EDialInstall? {
      hide Shape, FlushPass, PickedOk, Publish, Reset;
    } else {
      SocketStays(flat, st, e);
      hide Shape, Step;
    }
  }

  lemma {:induction false} KnownRun(flat: Flat, st: State, es: seq<Event>)
    requires Inv(st) && RunAllowed(flat, st, es) && Known(st)
    ensures Known(Run(flat, st, es))
    decreases es
  {
    if es != [] {
      InvShape(st);
      InvStep(flat, st, es[0]);
      KnownStep(flat, st, es[0]);
      hide Step, Inv, Allowed, Shape, Known;
      KnownRun(flat, Step(flat, st, es[0]), es[1..]);
    }
  }

  /** `gen` had its socket and lost it, or the client was closed. */
  ghost predicate Over(st: State, gen: nat) {
    gen in st.log.installed && (st.s.socket != Some(gen) || st.s.intentional)
  }

  lemma OverStep(flat: Flat, st: State, e: Event, gen: nat)
    requires Inv(st) && Over(st, gen)
    ensures Shape(st.s.queue, st.s.lastAssigned) && Over(Step(flat, st, e), gen)
  {
    InvParts(st);
    InvShape(st);
    if e.EHandOver? || e.EDialInstall? {
      hide Inv, Delivery, Conserved, Shape, FlushPass, PickedOk, Publish, Reset, Increasing;
    } else {
      SocketStays(flat, st, e);
      hide Inv, Shape, Step;
    }
  }

  lemma {:induction false} OverForever(flat: Flat, st: State, es: seq<Event>, gen: nat)
    requires Inv(st) && RunAllowed(flat, st, es) && Over(st, gen)
    ensures Over(Run(flat, st, es), gen)
    decreases es
  {
    if es != [] {
      OverStep(flat, st, es[0], gen);
      InvStep(flat, st, es[0]);
      hide Step, Inv, Allowed, Shape, Over;
      OverForever(flat, Step(flat, st, es[0]), es[1..], gen);
    }
  }

  lemma NotOver(flat: Flat, st: State, es: seq<Event>, gen: nat)
    requires Inv(st) && RunAllowed(flat, st, es) && gen in st.log.installed
    requires var u := Run(flat, st, es); u.s.socket == Some(gen) && !u.s.intentional
    ensures st.s.socket == Some(gen) && !st.s.intentional
  {
    hide Inv, Run, RunAllowed;
    if Over(st, gen) {
      OverForever(flat, st, es, gen);
    }
  }

  lemma WireStep(flat: Flat, st: State, e: Event, gen: nat)
    requires Shape(st.s.queue, st.s.lastAssigned) && st.s.socket == Some(gen) && !st.s.intentional && gen in st.log.installed
    ensures var r := Step(flat, st, e);
            && WireOf(r.log.wire, gen) == WireOf(st.log.wire, gen) + HandedOver([e]) && gen in r.log.installed
  {
    if e.EHandOver? {
      hide Shape, FlushPass, PickedOk, Publish;
      var r := Step(flat, st, e);
      if e.alive {
        assert r.log.wire[..|r.log.wire| - 1] == st.log.wire;
      }
    } else if e.EDialInstall? {
      hide Shape, FlushPass, PickedOk, Publish, Reset;
    } else {
      SocketStays(flat, st, e);
      hide Shape, Step;
    }
  }

  lemma HandedOverHead(es: seq<Event>)
    requires es != []
    ensures HandedOver(es) == HandedOver([es[0]]) + HandedOver(es[1..])
  {
    assert [es[0]][1..] == [];
  }

  lemma {:induction false} WireGrows(flat: Flat, st: State, es: seq<Event>, gen: nat)
    requires Inv(st) && RunAllowed(flat, st, es) && gen in st.log.installed
    requires var u := Run(flat, st, es); u.s.socket == Some(gen) && !u.s.intentional
    ensures WireOf(Run(flat, st, es).log.wire, gen) == WireOf(st.log.wire, gen) + HandedOver(es)
    decreases es
  {
    hide Step, Inv, Allowed, Shape, WireOf;
    NotOver(flat, st, es, gen);
    if es != [] {
      InvShape(st);
      InvStep(flat, st, es[0]);
      WireStep(flat, st, es[0], gen);
      HandedOverHead(es);
      hide HandedOver;
      WireGrows(flat, Step(flat, st, es[0]), es[1..], gen);
    }
  }

  lemma {:induction false} NoWireYet(wire: seq<Sent>, gen: nat)
    requires forall x :: x in wire ==> x.gen != gen
    ensures WireOf(wire, gen) == []
    decreases wire
  {
    if wire != [] {
      var init := wire[..|wire| - 1];
      assert forall x :: x in init ==> x in wire;
      assert wire[|wire| - 1] in wire;
      NoWireYet(init, gen);
    }
  }

  /** The wire of a new socket is what the sends hand over from its install on, whoever built it and
      for whichever socket: sends before the install do not count, sends after it all do. */
  lemma NewSocketWire(flat: Flat, st: State, gen: nat, es: seq<Event>)
    requires Inv(st) && Known(st) && gen in st.log.dials && gen == st.s.dialGen && !st.s.intentional
    requires Inv(DialInstall(st, gen)) && RunAllowed(flat, DialInstall(st, gen), es)
    requires var u := Run(flat, DialInstall(st, gen), es); u.s.socket == Some(gen) && !u.s.intentional
    ensures WireOf(Run(flat, DialInstall(st, gen), es).log.wire, gen) == HandedOver(es)
  {
    var n := DialInstall(st, gen);
    Installed(st, gen);
    hide Inv, Known, DialInstall, Run, RunAllowed, WireOf, HandedOver;
    WireGrows(flat, n, es, gen);
  }

  lemma Installed(st: State, gen: nat)
    requires Inv(st) && Known(st) && gen in st.log.dials && gen == st.s.dialGen && !st.s.intentional
    ensures var n := DialInstall(st, gen); gen in n.log.installed && WireOf(n.log.wire, gen) == []
  {
    InvParts(st);
    hide Inv, Delivery, Conserved, Increasing, Reset;
    forall x | x in st.log.wire ensures x.gen != gen {
      assert x.gen in st.log.installed;
    }
    NoWireYet(st.log.wire, gen);
  }

  predicate IsResume(b: seq<Byte>) {
    b != [] && b[0] == M.C_RESUME
  }

  /** `f` is on the wire with no Resume before it. */
  predicate Ahead(w: seq<seq<Byte>>, f: seq<Byte>)
    decreases w
  {
    w != [] && (w[0] == f || (!IsResume(w[0]) && Ahead(w[1..], f)))
  }

  /** A send of `f` takes the lock before any send of a Resume does. */
  predicate SentAhead(es: seq<Event>, f: seq<Byte>)
    decreases es
  {
    es != [] && (es[0] == EHandOver(f, true) || (!(es[0].EHandOver? && es[0].alive && IsResume(es[0].bytes)) && SentAhead(es[1..], f)))
  }

  lemma {:induction false} AheadIff(es: seq<Event>, f: seq<Byte>)
    ensures Ahead(HandedOver(es), f) <==> SentAhead(es, f)
    decreases es
  {
    hide IsResume;
    if es != [] {
      AheadIff(es[1..], f);
      if es[0].EHandOver? && es[0].alive {
        assert HandedOver(es)[0] == es[0].bytes && HandedOver(es)[1..] == HandedOver(es[1..]);
      } else {
        assert HandedOver(es) == HandedOver(es[1..]);
      }
    }
  }

  /** A frame precedes the Resume on a new socket exactly when its send takes the lock between the
      install and the send of the Resume; when it was built does not matter. */
  lemma FrameAheadOfResume(flat: Flat, st: State, gen: nat, es: seq<Event>, frame: seq<Byte>)
    requires Inv(st) && Known(st) && gen in st.log.dials && gen == st.s.dialGen && !st.s.intentional
    requires Inv(DialInstall(st, gen)) && RunAllowed(flat, DialInstall(st, gen), es)
    requires var u := Run(flat, DialInstall(st, gen), es); u.s.socket == Some(gen) && !u.s.intentional
    ensures Ahead(WireOf(Run(flat, DialInstall(st, gen), es).log.wire, gen), frame) <==> SentAhead(es, frame)
  {
    hide *;
    NewSocketWire(flat, st, gen, es);
    AheadIff(es, frame);
  }

  /** A live point is built, its socket dies before its send, the redial gets through, and the send
      takes the lock before that of the Resume. */
  function LateSend(flat: Flat, st: State, uid: Uid, last: U32, p: LatLng): State
    requires last + 1 < TWO32
  {
    HandOver(HandOver(Redialed(Publish(st, flat, p)), LiveBuilt(st, p).bytes, true), M.EncodeClient(M.Resume(uid, last + 1)), true)
  }

  /** A new client gets there: the new socket carries the frame of the old one, then the Resume; the
      point counts as unsent and no session is open. */
  lemma FrameOutlivesSocket(flat: Flat, s0: State, st: State, uid: Uid, last: U32, p: LatLng)
    requires Reachable(flat, s0, st) && Known(s0) && Sailing(st, uid, last)
    ensures var r, gen := LateSend(flat, st, uid, last, p), st.s.dialGen + 1;
            && Reachable(flat, s0, r)
            && WireOf(r.log.wire, gen) == [LiveBuilt(st, p).bytes, M.EncodeClient(M.Resume(uid, last + 1))]
            && Ahead(WireOf(r.log.wire, gen), LiveBuilt(st, p).bytes)
            && r.s.socket == Some(gen) && !r.s.ready && r.s.queue.inflight == [Queued(last + 1, Sample(st.log.emitted, p), false)]
  {
    LateSendReached(flat, s0, st, uid, last, p);
    LateSendIs(flat, s0, st, uid, last, p);
    hide *;
  }

  lemma LateSendReached(flat: Flat, s0: State, st: State, uid: Uid, last: U32, p: LatLng)
    requires Reachable(flat, s0, st) && Sailing(st, uid, last)
    ensures Reachable(flat, s0, LateSend(flat, st, uid, last, p))
  {
    var a := Publish(st, flat, p);
    SailingInv(st, uid, last);
    hide Inv, Reachable, Sailing, Room, Publish, Redialed, HandOver, LiveBuilt, M.EncodeClient;
    ThenPublish(flat, s0, st, p);
    ThenRedial(flat, s0, a);
    ThenHandOver(flat, s0, Redialed(a), LiveBuilt(st, p).bytes);
    ThenHandOver(flat, s0, HandOver(Redialed(a), LiveBuilt(st, p).bytes, true), M.EncodeClient(M.Resume(uid, last + 1)));
  }

  lemma LateSendIs(flat: Flat, s0: State, st: State, uid: Uid, last: U32, p: LatLng)
    requires Reachable(flat, s0, st) && Known(s0) && Sailing(st, uid, last)
    ensures var r, gen := LateSend(flat, st, uid, last, p), st.s.dialGen + 1;
            && WireOf(r.log.wire, gen) == [LiveBuilt(st, p).bytes, M.EncodeClient(M.Resume(uid, last + 1))]
            && Ahead(WireOf(r.log.wire, gen), LiveBuilt(st, p).bytes)
            && r.s.socket == Some(gen) && !r.s.ready && r.s.queue.inflight == [Queued(last + 1, Sample(st.log.emitted, p), false)]
  {
    var a := Publish(st, flat, p);
    SailingInv(st, uid, last);
    hide Inv, Reachable, Sailing, Known, Room, Publish, Redialed, HandOver, LiveBuilt, M.EncodeClient, Exhausted, WireOf, Ahead, CanSend;
    SailingEmpty(st, uid, last);
    KnownReached(flat, s0, st);
    FreshGeneration(st);
    PublishedOne(flat, st, p);
    PublishLeavesSocket(flat, st, p);
    RedialedLate(a, Queued(last + 1, Sample(st.log.emitted, p), true));
    TwoOnWire(Redialed(a), LiveBuilt(st, p).bytes, M.EncodeClient(M.Resume(uid, last + 1)), st.s.dialGen + 1);
  }

  lemma KnownReached(flat: Flat, s0: State, st: State)
    requires Reachable(flat, s0, st) && Known(s0)
    ensures Known(st)
  {
    hide Inv, Known;
    var es :| Reaches(flat, s0, es, st);
    KnownRun(flat, s0, es);
  }

  lemma FreshGeneration(st: State)
    requires Inv(st) && Known(st)
    ensures WireOf(st.log.wire, st.s.dialGen + 1) == []
  {
    InvParts(st);
    hide Inv, Delivery, Conserved, Increasing;
    forall x | x in st.log.wire ensures x.gen != st.s.dialGen + 1 {
      assert x.gen in st.log.installed;
    }
    NoWireYet(st.log.wire, st.s.dialGen + 1);
  }

  lemma RedialedLate(a: State, x: Queued)
    requires !a.s.intentional && !Exhausted(a.s.backoff) && a.s.queue.inflight == [x]
    ensures var n := Redialed(a);
            && n.s.socket == Some(a.s.dialGen + 1) && n.s.conn.Open? && !n.s.ready && n.s.queue.inflight == [x.(sent := false)]
            && n.log.wire == a.log.wire
  {
    RedialedIs(a);
    RedialedWire(a);
    MarkOne(a.s.queue);
    hide Redialed, MarkUnsent, Exhausted, Reset;
  }

  lemma RedialedWire(a: State)
    ensures Redialed(a).log.wire == a.log.wire
  {
    hide MarkUnsent, Exhausted, Reset;
  }

  lemma TwoOnWire(n: State, f: seq<Byte>, m: seq<Byte>, gen: nat)
    requires n.s.socket == Some(gen) && n.s.conn.Open? && WireOf(n.log.wire, gen) == []
    ensures var r := HandOver(HandOver(n, f, true), m, true);
            && WireOf(r.log.wire, gen) == [f, m] && Ahead(WireOf(r.log.wire, gen), f) && r.s == n.s
  {
    var w := n.log.wire + [Sent(gen, f)];
    assert (w + [Sent(gen, m)])[..|w|] == w && w[..|n.log.wire|] == n.log.wire;
  }
}
