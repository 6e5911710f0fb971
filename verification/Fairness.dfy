/** Liveness over endless runs.  Where the read loops and the receiving pump are weakly fair, no
    sender stays parked on a live stream, and a direction whose end has arrived comes to be
    written out in full. */
module Fairness {
  import opened FlowControl
  import opened Tunnel
  import opened TunnelInvariant
  import opened Mux
  import opened Delivery
  import opened Progress

  // ----- No sender stays parked -----

  /** Who can help a parked sender: the server's read loop, the connector's mux loop, and the
      pump at the receiving end of the direction. */
  datatype Agent = ServerLoop | ConnectorLoop | Pump

  predicate Ready(e: Ends, d: Dir) {
    match d
    case Down => e.srv.rx == Receiving ==> e.down.queue != []
    case Up => e.con.rx == Receiving ==> e.up.queue != []
  }

  /** The agent has something that helps before it; a pump, on a stream that is live. */
  predicate CanHelp(m: Session, ag: Agent, id: nat, d: Dir) {
    match ag
    case ServerLoop => Holds(m.toS, id, d == Up)
    case ConnectorLoop => Holds(m.toC, id, d == Down)
    case Pump => id in m.ends && Live(m.ends[id], d) && Ready(m.ends[id], d)
  }

  predicate PumpDrains(a: Act, d: Dir) {
    match d
    case Down => a.Download? && Drains(a.d')
    case Up => a.Forward? && Drains(a.w)
  }

  predicate Acts(st: SessionStep, ag: Agent, id: nat, d: Dir) {
    match ag
    case ServerLoop => st == ServerReads
    case ConnectorLoop => st == ConnectorReads
    case Pump => st.Task? && st.id == id && PumpDrains(st.a, d)
  }

  /** While a sender is stuck, some agent can help. */
  lemma SomeAgentCan(p: Params, cap: nat, m: Session, id: nat, d: Dir) returns (ag: Agent)
    requires p.Sane() && Mux.Inv(p, cap, m) && id in m.ends && Stuck(m.ends[id], d)
    ensures CanHelp(m, ag, id, d)
  {
    hide TunnelInvariant.Inv, Wire, Granted, Only;
    NoHits(m.toS, id);
    NoHits(m.toC, id);
    if Holds(m.toS, id, d == Up) {
      ag := ServerLoop;
    } else if Holds(m.toC, id, d == Down) {
      ag := ConnectorLoop;
    } else {
      ag := Pump;
      PumpCanHelp(p, View(m, id), d);
    }
  }

  /** An agent that acts while it can help does help. */
  lemma ActsHelp(m: Session, st: SessionStep, ag: Agent, id: nat, d: Dir)
    requires CanHelp(m, ag, id, d) && Acts(st, ag, id, d)
    ensures Helps(m, st, id, d)
  {}

  lemma {:induction false} HoldsAppend(q: seq<Tagged>, tail: seq<Tagged>, id: nat, grant: bool)
    requires Holds(q, id, grant)
    ensures Holds(q + tail, id, grant)
  {
    assert (q + tail)[0] == q[0] && (q + tail)[1..] == q[1..] + tail;
    if !Hit(q[0], id, grant) { HoldsAppend(q[1..], tail, id, grant); }
  }

  /** A pump with work keeps it until it does it, as long as the sender stays stuck. */
  lemma ReadyStays(p: Params, s: Stream, st: Tunnel.Step, d: Dir)
    requires CanStep(p, s, st) && Stuck(s.e, d) && Stuck(Next(p, s, st).e, d) && Ready(s.e, d)
    requires st.Do? ==> !PumpDrains(st.a, d)
    ensures Ready(Next(p, s, st).e, d)
  {
    hide Stuck, Ready, AfterServer, AfterConnector, AfterAct, Enabled;
    match st
    case AtServer => ReadyAfterServer(p, s, d);
    case AtConnector(accept) => ReadyAfterConnector(p, s, accept, d);
    case Do(a) =>
      if a.Download? || a.Forward? { ReadyAfterPump(p, s, a, d); } else { ReadyAfterAct(p, s, a, d); }
  }

  lemma ReadyAfterServer(p: Params, s: Stream, d: Dir)
    requires s.toS != [] && Stuck(s.e, d) && Ready(s.e, d)
    ensures Ready(AfterServer(p, s).e, d)
  {
    hide FlowControl.Raised;
  }

  lemma ReadyAfterConnector(p: Params, s: Stream, accept: bool, d: Dir)
    requires s.toC != [] && Stuck(s.e, d) && Ready(s.e, d) && Stuck(AfterConnector(p, s, accept).e, d)
    ensures Ready(AfterConnector(p, s, accept).e, d)
  {
    hide FlowControl.Raised;
  }

  lemma ReadyAfterPump(p: Params, s: Stream, a: Act, d: Dir)
    requires Enabled(p, s.e, a) && (a.Download? || a.Forward?) && !PumpDrains(a, d)
    requires Stuck(s.e, d) && Ready(s.e, d) && Stuck(AfterAct(p, s, a).e, d)
    ensures Ready(AfterAct(p, s, a).e, d)
  {
    hide FlowControl.Cat;
  }

  lemma ReadyAfterAct(p: Params, s: Stream, a: Act, d: Dir)
    requires Enabled(p, s.e, a) && !a.Download? && !a.Forward?
    requires Stuck(s.e, d) && Ready(s.e, d) && Stuck(AfterAct(p, s, a).e, d)
    ensures Ready(AfterAct(p, s, a).e, d)
  {
    hide FlowControl.Cat;
  }

  lemma PumpStaysAble(p: Params, cap: nat, m: Session, n: Session, st: SessionStep, id: nat, d: Dir)
    requires Mux.Inv(p, cap, m) && Can(p, m, st) && n == Mux.Step(p, cap, m, st)
    requires id in m.ends && id in n.ends && Stuck(m.ends[id], d) && Stuck(n.ends[id], d)
    requires CanHelp(m, Pump, id, d) && !Acts(st, Pump, id, d)
    ensures CanHelp(n, Pump, id, d)
  {
    hide TunnelInvariant.Inv, CanStep, Next, Local, ServerGets, ConnectorGets, Live, Ready, Only;
    OpeningOf(p, View(m, id));
    SessionRefinesTunnel(p, cap, m, st, id);
    match StepOf(cap, m, st, id)
    case Some(st') => ReadyStays(p, View(m, id), st', d);
    case None =>
  }

  /** An agent that can help stays able to until it acts. */
  lemma AgentStaysAble(p: Params, cap: nat, m: Session, n: Session, st: SessionStep, ag: Agent, id: nat, d: Dir)
    requires Mux.Inv(p, cap, m) && Can(p, m, st) && n == Mux.Step(p, cap, m, st)
    requires id in m.ends && id in n.ends && Stuck(m.ends[id], d) && Stuck(n.ends[id], d)
    requires CanHelp(m, ag, id, d) && !Acts(st, ag, id, d)
    ensures CanHelp(n, ag, id, d)
  {
    hide Mux.Inv, Stuck, Local, ServerGets, ConnectorGets, Holds, Ready;
    if ag == Pump {
      PumpStaysAble(p, cap, m, n, st, id, d);
    } else if st.Task? {
      var o := Local(p, m.ends[st.id], st.a);
      if ag == ServerLoop { HoldsAppend(m.toS, Tag(st.id, o.s), id, d == Up); }
      else { HoldsAppend(m.toC, Tag(st.id, o.c), id, d == Down); }
    }
  }

  /** An endless run: `f(i)` is the state before step `g(i)`. */
  ghost predicate IsEndless(p: Params, cap: nat, f: nat -> Session, g: nat -> SessionStep) {
    && f(0) == Mux.Init()
    && forall i: nat :: Can(p, f(i), g(i)) && f(i + 1) == Mux.Step(p, cap, f(i), g(i))
  }

  predicate StuckAt(f: nat -> Session, i: nat, id: nat, d: Dir) {
    id in f(i).ends && Stuck(f(i).ends[id], d)
  }

  predicate ActsAt(g: nat -> SessionStep, i: nat, ag: Agent, id: nat, d: Dir) { Acts(g(i), ag, id, d) }

  predicate CanHelpAt(f: nat -> Session, i: nat, ag: Agent, id: nat, d: Dir) { CanHelp(f(i), ag, id, d) }

  /** Weak fairness: an agent that from some moment on can always help acts at or after it. */
  ghost predicate WeaklyFair(f: nat -> Session, g: nat -> SessionStep, ag: Agent, id: nat, d: Dir) {
    forall n: nat :: AbleFrom(f, n, ag, id, d) ==> ActsFrom(g, n, ag, id, d)
  }

  ghost predicate AbleFrom(f: nat -> Session, n: nat, ag: Agent, id: nat, d: Dir) {
    forall i: nat :: n <= i ==> CanHelpAt(f, i, ag, id, d)
  }

  ghost predicate ActsFrom(g: nat -> SessionStep, n: nat, ag: Agent, id: nat, d: Dir) {
    exists i: nat :: n <= i && ActsAt(g, i, ag, id, d)
  }

  ghost predicate AllFair(f: nat -> Session, g: nat -> SessionStep, id: nat, d: Dir) {
    forall ag :: WeaklyFair(f, g, ag, id, d)
  }

  ghost predicate StuckFrom(f: nat -> Session, i: nat, id: nat, d: Dir) {
    forall j: nat :: i <= j ==> StuckAt(f, j, id, d)
  }

  lemma {:induction false} EndlessInv(p: Params, cap: nat, f: nat -> Session, g: nat -> SessionStep, i: nat)
    requires p.Sane() && IsEndless(p, cap, f, g)
    ensures Mux.Inv(p, cap, f(i))
  {
    hide Mux.Inv, Mux.Step, Can;
    if i == 0 {
      Delivery.InitInv(p, cap);
    } else {
      EndlessInv(p, cap, f, g, i - 1);
      assert Can(p, f(i - 1), g(i - 1)) && f(i - 1 + 1) == Mux.Step(p, cap, f(i - 1), g(i - 1));
      Mux.StepInv(p, cap, f(i - 1), g(i - 1));
    }
  }

  /** Until it acts, an agent that could help can. */
  lemma {:induction false} StaysAbleUntil(p: Params, cap: nat, f: nat -> Session, g: nat -> SessionStep, n: nat, i: nat,
                                          ag: Agent, id: nat, d: Dir)
    requires p.Sane() && IsEndless(p, cap, f, g) && StuckFrom(f, n, id, d) && n <= i
    requires CanHelpAt(f, n, ag, id, d) && forall j: nat :: n <= j < i ==> !ActsAt(g, j, ag, id, d)
    ensures CanHelpAt(f, i, ag, id, d)
    decreases i
  {
    hide Mux.Inv, Mux.Step, Can, Stuck, CanHelp, Acts;
    if n < i {
      StaysAbleUntil(p, cap, f, g, n, i - 1, ag, id, d);
      EndlessInv(p, cap, f, g, i - 1);
      assert Can(p, f(i - 1), g(i - 1)) && f(i - 1 + 1) == Mux.Step(p, cap, f(i - 1), g(i - 1));
      assert StuckAt(f, i - 1, id, d) && StuckAt(f, i, id, d) && !ActsAt(g, i - 1, ag, id, d);
      AgentStaysAble(p, cap, f(i - 1), f(i), g(i - 1), ag, id, d);
    }
  }

  /** The first act at or after `n`. */
  lemma {:induction false} FirstAct(g: nat -> SessionStep, n: nat, i: nat, ag: Agent, id: nat, d: Dir) returns (k: nat)
    requires n <= i && ActsAt(g, i, ag, id, d)
    ensures n <= k && ActsAt(g, k, ag, id, d) && forall j: nat :: n <= j < k ==> !ActsAt(g, j, ag, id, d)
    decreases i - n
  {
    if ActsAt(g, n, ag, id, d) { k := n; } else { k := FirstAct(g, n + 1, i, ag, id, d); }
  }

  /** In a weakly fair run that stays stuck, help keeps coming. */
  lemma HelpComes(p: Params, cap: nat, f: nat -> Session, g: nat -> SessionStep, n: nat, id: nat, d: Dir)
    returns (k: nat)
    requires p.Sane() && IsEndless(p, cap, f, g) && AllFair(f, g, id, d) && StuckFrom(f, n, id, d)
    ensures n <= k && Helps(f(k), g(k), id, d)
  {
    hide Mux.Inv, IsEndless, Stuck, CanHelp, Acts, Helps;
    EndlessInv(p, cap, f, g, n);
    assert StuckAt(f, n, id, d);
    var ag := SomeAgentCan(p, cap, f(n), id, d);
    assert WeaklyFair(f, g, ag, id, d);
    if !ActsFrom(g, n, ag, id, d) {
      forall i: nat | n <= i ensures CanHelpAt(f, i, ag, id, d) { StaysAbleUntil(p, cap, f, g, n, i, ag, id, d); }
    }
    var i: nat :| n <= i && ActsAt(g, i, ag, id, d);
    k := FirstAct(g, n, i, ag, id, d);
    StaysAbleUntil(p, cap, f, g, n, k, ag, id, d);
    ActsHelp(f(k), g(k), ag, id, d);
  }

  /** One step of an endless run between two stuck states. */
  lemma EndlessStep(p: Params, cap: nat, f: nat -> Session, g: nat -> SessionStep, i: nat, id: nat, d: Dir)
    requires p.Sane() && IsEndless(p, cap, f, g) && StuckAt(f, i, id, d) && StuckAt(f, i + 1, id, d)
    ensures if Helps(f(i), g(i), id, d) then Below(f(i), f(i + 1), id, d) else Level(f(i), f(i + 1), id, d)
  {
    hide Mux.Inv, Mux.Step, Can, Stuck, Helps, Below, Level;
    EndlessInv(p, cap, f, g, i);
    assert Can(p, f(i), g(i)) && f(i + 1) == Mux.Step(p, cap, f(i), g(i));
    RankNeverRises(p, cap, f(i), f(i + 1), g(i), id, d);
  }

  lemma {:induction false} RankKeeps(p: Params, cap: nat, f: nat -> Session, g: nat -> SessionStep, i: nat, n: nat,
                                     id: nat, d: Dir)
    requires p.Sane() && IsEndless(p, cap, f, g) && i <= n && StuckFrom(f, i, id, d)
    ensures id in f(i).ends && id in f(n).ends
    ensures Below(f(i), f(n), id, d) || Level(f(i), f(n), id, d)
    decreases n
  {
    hide IsEndless, Stuck, Helps, WorkLeft, Ahead;
    assert StuckAt(f, i, id, d) && StuckAt(f, n, id, d);
    if i < n {
      RankKeeps(p, cap, f, g, i, n - 1, id, d);
      assert StuckAt(f, n - 1, id, d);
      EndlessStep(p, cap, f, g, n - 1, id, d);
    }
  }

  /** A weakly fair run cannot stay stuck: its rank would fall for ever. */
  lemma {:induction false} NotStuckForever(p: Params, cap: nat, f: nat -> Session, g: nat -> SessionStep, i: nat,
                                           id: nat, d: Dir)
    requires p.Sane() && IsEndless(p, cap, f, g) && AllFair(f, g, id, d) && id in f(i).ends
    ensures exists n: nat :: i <= n && !StuckAt(f, n, id, d)
    decreases WorkLeft(View(f(i), id), d), Ahead(f(i), id, d)
  {
    hide IsEndless, AllFair, Stuck, Helps, WorkLeft, Ahead;
    if StuckFrom(f, i, id, d) {
      var n := HelpComes(p, cap, f, g, i, id, d);
      assert StuckAt(f, i, id, d) && StuckAt(f, n, id, d) && StuckAt(f, n + 1, id, d);
      RankKeeps(p, cap, f, g, i, n, id, d);
      EndlessStep(p, cap, f, g, n, id, d);
      NotStuckForever(p, cap, f, g, n + 1, id, d);
    }
  }

  lemma {:induction false} EndlessKnown(p: Params, cap: nat, f: nat -> Session, g: nat -> SessionStep, i: nat, n: nat,
                                        id: nat)
    requires IsEndless(p, cap, f, g) && i <= n && id in f(i).ends
    ensures id in f(n).ends
    decreases n
  {
    hide Mux.Step, Can;
    if i < n {
      EndlessKnown(p, cap, f, g, i, n - 1, id);
      assert Can(p, f(n - 1), g(n - 1)) && f(n - 1 + 1) == Mux.Step(p, cap, f(n - 1), g(n - 1));
      StaysKnown(p, cap, f(n - 1), g(n - 1), id);
    }
  }

  /** Liveness over every endless run from the empty session, however its tunnels interleave: if
      the two read loops and the receiving pump are weakly fair, then from any moment on there is
      a later one where the sender can proceed or its stream is no longer live. */
  lemma FairRunsFree(p: Params, cap: nat, f: nat -> Session, g: nat -> SessionStep, i: nat, id: nat, d: Dir)
    requires p.Sane() && IsEndless(p, cap, f, g) && AllFair(f, g, id, d) && id in f(i).ends
    ensures exists n: nat :: i <= n && id in f(n).ends && !Stuck(f(n).ends[id], d)
  {
    hide IsEndless, Stuck, AllFair, WorkLeft, Ahead;
    NotStuckForever(p, cap, f, g, i, id, d);
    var n: nat :| i <= n && !StuckAt(f, n, id, d);
    EndlessKnown(p, cap, f, g, i, n, id);
  }

  // ----- What was read comes to be written -----

  /** What the receiving pump has still to do with what it has. */
  function Left(f: Flow): nat {
    5 * |Cat(f.queue)| + 3 * f.curLen + |f.cur| + 2 * f.drained + 2 * f.owed
  }

  function FlowOf(e: Ends, d: Dir): Flow { if d == Down then e.down else e.up }

  predicate PumpActs(a: Act, d: Dir) { if d == Down then a.Download? else a.Forward? }

  /** A write error or a failed send of the pump. */
  predicate Breaks(a: RxAct) { a == WriteError || a == SendUpdate(false) }

  predicate PumpBreaks(a: Act, d: Dir) {
    match d
    case Down => a.Download? && Breaks(a.d')
    case Up => a.Forward? && Breaks(a.w)
  }

  lemma PumpAdvances(p: Params, pc: RxPc, f: Flow, open: bool, aborts: bool, a: RxAct)
    requires RxOk(pc, f) && RxCan(pc, f, open, a) && Moving(pc) && !Breaks(a) && Shape(p, f) && p.Sane()
    requires p.window < U32_RANGE && f.drained + f.curLen <= p.window
    ensures var o := RxStep(p, pc, f, open, aborts, a);
      && o.f.src == f.src
      && (if a == QueueEnd then o.pc == Drained else Moving(o.pc) && Left(o.f) < Left(f))
  {
    hide BytesKept, CreditKept;
    if a == TakeChunk { assert IsChunk(p, f.queue[0]); }
  }

  /** A step of the pump itself: less left to do, or the end. */
  lemma ClosingPump(p: Params, s: Stream, a: Act, d: Dir)
    requires p.Sane() && TunnelInvariant.Inv(p, s) && Enabled(p, s.e, a) && Closing(s.e, d)
    requires PumpActs(a, d) && !PumpBreaks(a, d)
    ensures var n := AfterAct(p, s, a).e;
      && Source(n, d) == Source(s.e, d)
      && (if Closing(n, d) then Left(FlowOf(n, d)) < Left(FlowOf(s.e, d)) else Ended(n, d))
  {
    hide Control, Left, RxStep, RxCan, Wire, Granted;
    var v, c := s.e.srv, s.e.con;
    match d
    case Down => PumpAdvances(p, v.rx, s.e.down, v.registered, true, a.d');
    case Up => PumpAdvances(p, c.rx, s.e.up, c.reqOpen, false, a.w);
  }

  predicate Undisturbed(e: Ends, n: Ends, d: Dir) {
    Closing(n, d) && Source(n, d) == Source(e, d) && Left(FlowOf(n, d)) == Left(FlowOf(e, d))
  }

  /** Any other step of the tunnel leaves the closing direction alone. */
  lemma ClosingAct(p: Params, s: Stream, a: Act, d: Dir)
    requires TunnelInvariant.Inv(p, s) && Enabled(p, s.e, a) && Closing(s.e, d) && !PumpActs(a, d)
    requires d == Up ==> AfterAct(p, s, a).e.con.task == Piping
    ensures Undisturbed(s.e, AfterAct(p, s, a).e, d)
  {
    hide Flows, Opening, NoLeak, FlowControl.Cat, Wire;
  }

  lemma ClosingServerHears(p: Params, s: Stream, d: Dir)
    requires TunnelInvariant.Inv(p, s) && Closing(s.e, d) && s.toS != []
    ensures Undisturbed(s.e, AfterServer(p, s).e, d)
  {
    hide Flows, NoLeak, Opening, FlowControl.Cat, FlowControl.Raised, Wire;
  }

  lemma ClosingConnectorHears(p: Params, s: Stream, accept: bool, d: Dir)
    requires TunnelInvariant.Inv(p, s) && Closing(s.e, d) && s.toC != []
    ensures Undisturbed(s.e, AfterConnector(p, s, accept).e, d)
  {
    hide Flows, NoLeak, FlowControl.Cat, FlowControl.Raised, Wire;
    assert s.toC[0] in s.toC;
  }

  /** The pump breaks, or, for a request, the task that holds the backend ends first: the
      response is over, or the stream is reset. */
  predicate Interrupts(n: Session, st: SessionStep, id: nat, d: Dir) {
    || (st.Task? && st.id == id && PumpBreaks(st.a, d))
    || (d == Up && id in n.ends && n.ends[id].con.task != Piping)
  }

  predicate PumpSteps(st: SessionStep, id: nat, d: Dir) { st.Task? && st.id == id && PumpActs(st.a, d) }

  /** One step of the session, seen from a closing direction. */
  lemma ClosingStep(p: Params, cap: nat, m: Session, n: Session, st: SessionStep, id: nat, d: Dir)
    requires p.Sane() && Mux.Inv(p, cap, m) && Can(p, m, st) && n == Mux.Step(p, cap, m, st)
    requires id in m.ends && id in n.ends && Closing(m.ends[id], d) && !Interrupts(n, st, id, d)
    ensures var e, e' := m.ends[id], n.ends[id];
      && Source(e', d) == Source(e, d)
      && (Closing(e', d) || Ended(e', d))
      && (Closing(e', d) ==> if PumpSteps(st, id, d) then Left(FlowOf(e', d)) < Left(FlowOf(e, d))
                             else Left(FlowOf(e', d)) == Left(FlowOf(e, d)))
  {
    hide TunnelInvariant.Inv, Enabled, Local, ServerGets, ConnectorGets, AfterServer, AfterConnector, AfterAct;
    hide Closing, Ended, Left, Source, FlowOf, Only;
    var s := View(m, id);
    OpeningOf(p, s);
    SessionRefinesTunnel(p, cap, m, st, id);
    match StepOf(cap, m, st, id)
    case Some(AtServer) => ClosingServerHears(p, s, d);
    case Some(AtConnector(accept)) => ClosingConnectorHears(p, s, accept, d);
    case Some(Do(a)) => if PumpActs(a, d) { ClosingPump(p, s, a, d); } else { ClosingAct(p, s, a, d); }
    case None =>
  }

  predicate ClosingAt(f: nat -> Session, i: nat, id: nat, d: Dir) { id in f(i).ends && Closing(f(i).ends[id], d) }

  predicate PumpAt(g: nat -> SessionStep, i: nat, id: nat, d: Dir) { PumpSteps(g(i), id, d) }

  ghost predicate ClosingFrom(f: nat -> Session, n: nat, id: nat, d: Dir) {
    forall i: nat :: n <= i ==> ClosingAt(f, i, id, d)
  }

  ghost predicate PumpFrom(g: nat -> SessionStep, n: nat, id: nat, d: Dir) {
    exists i: nat :: n <= i && PumpAt(g, i, id, d)
  }

  /** Weak fairness of the pump, which `EndIsEnabled` lets step at any moment of a close. */
  ghost predicate PumpFair(f: nat -> Session, g: nat -> SessionStep, id: nat, d: Dir) {
    forall n: nat :: ClosingFrom(f, n, id, d) ==> PumpFrom(g, n, id, d)
  }

  ghost predicate NeverInterrupted(f: nat -> Session, g: nat -> SessionStep, id: nat, d: Dir) {
    forall i: nat :: ClosingAt(f, i, id, d) ==> !Interrupts(f(i + 1), g(i), id, d)
  }

  lemma EndlessClosing(p: Params, cap: nat, f: nat -> Session, g: nat -> SessionStep, i: nat, id: nat, d: Dir)
    requires p.Sane() && IsEndless(p, cap, f, g) && NeverInterrupted(f, g, id, d) && ClosingAt(f, i, id, d)
    ensures id in f(i + 1).ends
    ensures var e, e' := f(i).ends[id], f(i + 1).ends[id];
      && Source(e', d) == Source(e, d)
      && (Closing(e', d) || Ended(e', d))
      && (Closing(e', d) ==> if PumpAt(g, i, id, d) then Left(FlowOf(e', d)) < Left(FlowOf(e, d))
                             else Left(FlowOf(e', d)) == Left(FlowOf(e, d)))
  {
    hide Mux.Inv, Mux.Step, Can, Closing, Ended, Left, Source, FlowOf, Interrupts, PumpSteps;
    EndlessInv(p, cap, f, g, i);
    assert Can(p, f(i), g(i)) && f(i + 1) == Mux.Step(p, cap, f(i), g(i));
    StaysKnown(p, cap, f(i), g(i), id);
    ClosingStep(p, cap, f(i), f(i + 1), g(i), id, d);
  }

  /** Up to the first moment it is not closing, a direction keeps its bytes and loses work. */
  lemma {:induction false} ClosingUntil(p: Params, cap: nat, f: nat -> Session, g: nat -> SessionStep, i: nat, n: nat,
                                        id: nat, d: Dir)
    requires p.Sane() && IsEndless(p, cap, f, g) && NeverInterrupted(f, g, id, d) && i <= n
    requires ClosingAt(f, i, id, d) && forall j: nat :: i <= j < n ==> ClosingAt(f, j, id, d)
    ensures id in f(n).ends && Source(f(n).ends[id], d) == Source(f(i).ends[id], d)
    ensures ClosingAt(f, n, id, d) || Ended(f(n).ends[id], d)
    ensures ClosingAt(f, n, id, d) ==> Left(FlowOf(f(n).ends[id], d)) <= Left(FlowOf(f(i).ends[id], d))
    decreases n
  {
    hide IsEndless, NeverInterrupted, Closing, Ended, Left, Source, FlowOf, PumpAt;
    if i < n {
      assert ClosingAt(f, n - 1, id, d);
      ClosingUntil(p, cap, f, g, i, n - 1, id, d);
      EndlessClosing(p, cap, f, g, n - 1, id, d);
    }
  }

  lemma {:induction false} FirstNotClosing(f: nat -> Session, i: nat, n: nat, id: nat, d: Dir) returns (k: nat)
    requires i <= n && !ClosingAt(f, n, id, d)
    ensures i <= k && !ClosingAt(f, k, id, d) && forall j: nat :: i <= j < k ==> ClosingAt(f, j, id, d)
    decreases n - i
  {
    if !ClosingAt(f, i, id, d) { k := i; } else { k := FirstNotClosing(f, i + 1, n, id, d); }
  }

  lemma {:induction false} ComesToEnd(p: Params, cap: nat, f: nat -> Session, g: nat -> SessionStep, i: nat,
                                      id: nat, d: Dir)
    returns (n: nat)
    requires p.Sane() && IsEndless(p, cap, f, g) && NeverInterrupted(f, g, id, d) && PumpFair(f, g, id, d)
    requires ClosingAt(f, i, id, d)
    ensures i <= n && id in f(n).ends && Ended(f(n).ends[id], d) && Source(f(n).ends[id], d) == Source(f(i).ends[id], d)
    decreases Left(FlowOf(f(i).ends[id], d))
  {
    hide IsEndless, NeverInterrupted, Closing, Ended, Left, Source, FlowOf, PumpAt;
    if ClosingFrom(f, i, id, d) {
      assert PumpFrom(g, i, id, d);
      var j: nat :| i <= j && PumpAt(g, j, id, d);
      assert ClosingAt(f, j, id, d) && ClosingAt(f, j + 1, id, d);
      ClosingUntil(p, cap, f, g, i, j, id, d);
      EndlessClosing(p, cap, f, g, j, id, d);
      n := ComesToEnd(p, cap, f, g, j + 1, id, d);
    } else {
      var k: nat :| i <= k && !ClosingAt(f, k, id, d);
      n := FirstNotClosing(f, i, k, id, d);
      ClosingUntil(p, cap, f, g, i, n, id, d);
    }
  }

  /** Every fair run delivers: once the end of a direction has arrived, and nothing breaks it,
      everything that was read comes to be written. */
  lemma FairRunsDeliver(p: Params, cap: nat, f: nat -> Session, g: nat -> SessionStep, i: nat, id: nat, d: Dir)
    requires p.Sane() && IsEndless(p, cap, f, g) && NeverInterrupted(f, g, id, d) && PumpFair(f, g, id, d)
    requires id in f(i).ends && Closing(f(i).ends[id], d)
    ensures exists n: nat :: i <= n && id in f(n).ends && Complete(f(n).ends[id], d)
                             && Source(f(n).ends[id], d) == Source(f(i).ends[id], d)
  {
    hide IsEndless, NeverInterrupted, PumpFair, TunnelInvariant.Inv, Closing, Ended, Source, Complete;
    var n := ComesToEnd(p, cap, f, g, i, id, d);
    EndlessInv(p, cap, f, g, n);
    EndedIsComplete(p, View(f(n), id), d);
  }
}
