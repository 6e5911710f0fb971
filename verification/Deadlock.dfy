/** Exactly when flow control can deadlock: the bound on the read chunk is not only enough but
    needed.  For every larger chunk there is a run of the protocol, from the empty session,
    that ends with a sender parked, no step that could help it, and no continuation in which
    it ever takes its credit. */
module Deadlock {
  import opened FlowControl
  import opened Tunnel
  import opened TunnelInvariant
  import opened Mux
  import opened Delivery
  import opened Progress

  ghost predicate Reachable(p: Params, cap: nat, m: Session) {
    exists run :: IsRun(p, cap, run) && run[|run| - 1] == m
  }

  /** A reachable state with a sender parked on a live stream and no step, of any task or
      link, that brings it closer to its credit. */
  ghost predicate Deadlocked(p: Params, cap: nat, m: Session, id: nat, d: Dir) {
    && Reachable(p, cap, m) && id in m.ends && Stuck(m.ends[id], d)
    && forall st :: Can(p, m, st) ==> !Helps(m, st, id, d)
  }

  ghost predicate Continues(p: Params, cap: nat, path: seq<Session>, m: Session) {
    && path != [] && path[0] == m
    && forall i :: 0 < i < |path| ==> Reaches(p, cap, path[i - 1], path[i])
  }

  /** A deadlock for good: whatever any task or link goes on to do, the sender waits, its chunk
      larger than its credit. */
  ghost predicate Hopeless(p: Params, cap: nat, m: Session, id: nat, d: Dir) {
    && Deadlocked(p, cap, m, id, d)
    && forall path: seq<Session>, i: nat :: Continues(p, cap, path, m) && i < |path| ==>
         id in path[i].ends && Parked(path[i].ends[id], d)
  }

  lemma Begun(p: Params, cap: nat)
    ensures Reachable(p, cap, Mux.Init())
  {
    assert IsRun(p, cap, [Mux.Init()]);
  }

  lemma Further(p: Params, cap: nat, m: Session, st: SessionStep)
    requires Reachable(p, cap, m) && Can(p, m, st)
    ensures Reachable(p, cap, Mux.Step(p, cap, m, st))
  {
    hide Mux.Step, Can;
    var run :| IsRun(p, cap, run) && run[|run| - 1] == m;
    var n := Mux.Step(p, cap, m, st);
    var run' := run + [n];
    assert Reaches(p, cap, m, n);
    forall i | 0 < i < |run'| ensures Reaches(p, cap, run'[i - 1], run'[i]) {
      if i < |run| { assert Reaches(p, cap, run[i - 1], run[i]); }
    }
    assert IsRun(p, cap, run');
  }

  // ----- A session of one tunnel -----

  function Solo(s: Stream): Session { Session(map[1 := s.e], Tag(1, s.toC), Tag(1, s.toS)) }

  lemma Acts(p: Params, cap: nat, s: Stream, a: Act)
    requires Reachable(p, cap, Solo(s)) && Enabled(p, s.e, a) && a != Dial(Reap)
    ensures Reachable(p, cap, Solo(AfterAct(p, s, a)))
  {
    hide Reachable, Enabled, Local;
    Further(p, cap, Solo(s), Task(1, a));
    var o := Local(p, s.e, a);
    assert Tag(1, s.toC) + Tag(1, o.c) == Tag(1, s.toC + o.c);
    assert Tag(1, s.toS) + Tag(1, o.s) == Tag(1, s.toS + o.s);
    assert map[1 := s.e][1 := o.e] == map[1 := o.e];
  }

  lemma ServerHears(p: Params, cap: nat, s: Stream)
    requires Reachable(p, cap, Solo(s)) && s.toS != []
    ensures Reachable(p, cap, Solo(AfterServer(p, s)))
  {
    hide Reachable, ServerGets;
    Further(p, cap, Solo(s), ServerReads);
    var e := ServerGets(p, s.e, s.toS[0]);
    assert Tag(1, s.toS)[1..] == Tag(1, s.toS[1..]);
    assert map[1 := s.e][1 := e] == map[1 := e];
  }

  lemma ConnectorAccepts(p: Params, cap: nat, s: Stream)
    requires Reachable(p, cap, Solo(s)) && s.toC != [] && s.toC[0] == Connect && !s.e.con.entry && cap > 0
    ensures Reachable(p, cap, Solo(AfterConnector(p, s, true)))
  {
    hide Reachable, ConnectorGets;
    var ends := map[1 := s.e];
    Further(p, cap, Solo(s), ConnectorReads);
    assert Retain(ends) == ends && Entries(ends) == {};
    var e := ConnectorGets(p, s.e, Connect, true);
    assert Tag(1, s.toC)[1..] == Tag(1, s.toC[1..]);
    assert ends[1 := e] == map[1 := e];
  }

  // ----- The run -----

  function Zeros(n: nat): Bytes { seq(n, _ => 0) }

  function Splicer(): Server {
    Server(Splicing, true, false, ReplyOk, false, Reading, Receiving, 0, false, false, NotRemoved, false)
  }

  function Piper(): Connector {
    Connector(Piping, true, true, Reading, Receiving, false, false, false, true)
  }

  /** `k` bytes have gone down and been drained, none of them granted back. */
  function Moved(p: Params, k: nat): Flow
    requires k <= p.window
  {
    Flow(Zeros(k), [], false, p.window - k, [], [], 0, k, 0, Zeros(k), [], 0)
  }

  function Steady(p: Params, k: nat): Stream
    requires k <= p.window
  {
    Stream(Ends(Splicer(), Piper(), FlowControl.Init(p), Moved(p, k)), [], [])
  }

  /** Connect has arrived and found a slot. */
  function Dialled(p: Params): Stream {
    var e := Opened(p);
    var con := Connector(Dialing, true, true, TxOff, RxOff, false, false, false, false);
    Stream(e.(srv := e.srv.(task := Awaiting), con := con), [], [])
  }

  lemma Opens(p: Params, cap: nat)
    requires cap > 0
    ensures Reachable(p, cap, Solo(Dialled(p)))
  {
    hide Reachable;
    Begun(p, cap);
    Further(p, cap, Mux.Init(), Open(1));
    var s0 := Stream(Opened(p), [], []);
    assert Mux.Step(p, cap, Mux.Init(), Open(1)) == Solo(s0);
    Acts(p, cap, s0, Bridge(EmitConnect));
    var s1 := AfterAct(p, s0, Bridge(EmitConnect));
    ConnectorAccepts(p, cap, s1);
    assert AfterConnector(p, s1, true) == Dialled(p);
  }

  /** Dial, answer, splice. */
  lemma Connects(p: Params, cap: nat)
    requires cap > 0
    ensures Reachable(p, cap, Solo(Steady(p, 0)))
  {
    hide Reachable, Solo;
    Opens(p, cap);
    var s2 := Dialled(p);
    Acts(p, cap, s2, Dial(DialOk));
    var s3 := AfterAct(p, s2, Dial(DialOk));
    Acts(p, cap, s3, Dial(EmitOk(true)));
    var s4 := AfterAct(p, s3, Dial(EmitOk(true)));
    ServerHears(p, cap, s4);
    var s5 := AfterServer(p, s4);
    Acts(p, cap, s5, Bridge(TakeReply));
    assert AfterAct(p, s5, Bridge(TakeReply)) == Steady(p, 0);
  }

  /** A byte that has reached the server's queue. */
  function Queued(p: Params, k: nat): Stream
    requires k < p.window
  {
    Stream(Ends(Splicer().(outstanding := 1), Piper(), FlowControl.Init(p),
                Flow(Zeros(k) + [0], [], false, p.window - k - 1, [[0]], [], 0, k, 0, Zeros(k), [], 0)), [], [])
  }

  lemma OneByteSent(p: Params, cap: nat, k: nat)
    requires k < p.window && 1 <= p.chunk && Reachable(p, cap, Solo(Steady(p, k)))
    ensures Reachable(p, cap, Solo(Queued(p, k)))
  {
    hide Reachable, Zeros;
    var s := Steady(p, k);
    Acts(p, cap, s, Respond(ReadChunk([0])));
    var s1 := AfterAct(p, s, Respond(ReadChunk([0])));
    Acts(p, cap, s1, Respond(TakeCredit));
    var s2 := AfterAct(p, s1, Respond(TakeCredit));
    Acts(p, cap, s2, Respond(SendData(true)));
    var s3 := AfterAct(p, s2, Respond(SendData(true)));
    ServerHears(p, cap, s3);
    assert AfterServer(p, s3) == Queued(p, k);
  }

  lemma OneByteDrained(p: Params, cap: nat, k: nat)
    requires k < p.window && k + 1 < p.threshold && Reachable(p, cap, Solo(Queued(p, k)))
    ensures Reachable(p, cap, Solo(Steady(p, k + 1)))
  {
    hide Reachable;
    var s := Queued(p, k);
    Acts(p, cap, s, Download(TakeChunk));
    var s1 := AfterAct(p, s, Download(TakeChunk));
    Acts(p, cap, s1, Download(WriteSome(1)));
    var s2 := AfterAct(p, s1, Download(WriteSome(1)));
    Acts(p, cap, s2, Download(Count));
    assert Zeros(k) + [0] == Zeros(k + 1);
    assert AfterAct(p, s2, Download(Count)) == Steady(p, k + 1);
  }

  lemma {:induction false} BytesDrained(p: Params, cap: nat, k: nat)
    requires cap > 0 && 1 <= p.chunk && k <= p.window && k < p.threshold
    ensures Reachable(p, cap, Solo(Steady(p, k)))
  {
    hide Reachable, Solo;
    if k == 0 {
      Connects(p, cap);
    } else {
      BytesDrained(p, cap, k - 1);
      OneByteSent(p, cap, k - 1);
      OneByteDrained(p, cap, k - 1);
    }
  }

  /** One byte short of a grant, or with the window spent, and the next chunk already read. */
  function Starved(p: Params): Stream
    requires 1 <= p.threshold
  {
    var k := if p.threshold - 1 <= p.window then p.threshold - 1 else p.window;
    var s := Steady(p, k);
    s.(e := s.e.(con := s.e.con.(tx := Waiting), down := Read(s.e.down, Zeros(p.chunk))))
  }

  lemma StarvedReached(p: Params, cap: nat)
    requires cap > 0 && 1 <= p.threshold && 1 <= p.chunk
    ensures Reachable(p, cap, Solo(Starved(p)))
  {
    hide Reachable;
    var k := if p.threshold - 1 <= p.window then p.threshold - 1 else p.window;
    BytesDrained(p, cap, k);
    Acts(p, cap, Steady(p, k), Respond(ReadChunk(Zeros(p.chunk))));
    assert AfterAct(p, Steady(p, k), Respond(ReadChunk(Zeros(p.chunk)))) == Starved(p);
  }

  lemma StarvedIsStuck(p: Params)
    requires 1 <= p.threshold && 1 <= p.chunk && p.threshold + p.chunk > p.window + 1
    ensures Stuck(Starved(p).e, Down)
    ensures forall st :: Can(p, Solo(Starved(p)), st) ==> !Helps(Solo(Starved(p)), st, 1, Down)
  {
    var m := Solo(Starved(p));
    assert m.toC == [] && m.toS == [];
    forall st | Can(p, m, st) ensures !Helps(m, st, 1, Down) {
      assert !Holds(m.toS, 1, false) && !Holds(m.toC, 1, true);
    }
  }

  // ----- Nothing frees it -----

  predicate Still(q: seq<Msg>, data: bool) {
    forall i :: 0 <= i < |q| ==> if data then !q[i].Data? else !q[i].WindowUpdate? && q[i] != Connect
  }

  /** A parked download with nothing under way that could move it. */
  predicate Wedged(s: Stream, f: Flow) {
    && s.e.down == f && f.queue == [] && f.credit < |f.held|
    && s.e.con.tx == Waiting && (s.e.con.task == Piping || s.e.con.task == Finished)
    && (s.e.srv.task == Splicing || s.e.srv.task == Over)
    && (s.e.srv.rx == Receiving || s.e.srv.rx == Drained)
    && Still(s.toS, true) && Still(s.toC, false)
  }

  lemma StillTail(q: seq<Msg>, data: bool)
    requires Still(q, data) && q != []
    ensures Still(q[1..], data) && if data then !q[0].Data? else !q[0].WindowUpdate? && q[0] != Connect
  {}

  lemma ServerLeavesWedged(p: Params, s: Stream, f: Flow)
    requires Wedged(s, f) && s.toS != []
    ensures Wedged(AfterServer(p, s), f)
  {
    StillTail(s.toS, true);
    ServerGetsFrame(p, s.e, s.toS[0]);
    ServerGetsUp(p, s.e, s.toS[0]);
    hide ServerGets, Still;
  }

  lemma ConnectorLeavesWedged(p: Params, s: Stream, f: Flow, accept: bool)
    requires Wedged(s, f) && s.toC != []
    ensures Wedged(AfterConnector(p, s, accept), f)
  {
    StillTail(s.toC, false);
    hide FlowControl.Raised, FlowControl.Cat, Still;
  }

  lemma StillSnoc(q: seq<Msg>, out: seq<Msg>, data: bool)
    requires Still(q, data) && Still(out, data)
    ensures Still(q + out, data)
  {}

  lemma WedgedPumpSays(p: Params, s: Stream, f: Flow, a: Act)
    requires Wedged(s, f) && Enabled(p, s.e, a) && (a.Upload? || a.Download?)
    ensures var o := Local(p, s.e, a); Wedged(Stream(o.e, o.c, o.s), f)
  {
    hide FlowControl.Cat;
  }

  lemma WedgedBridgeSays(p: Params, s: Stream, f: Flow, a: Act)
    requires Wedged(s, f) && Enabled(p, s.e, a) && a.Bridge?
    ensures var o := Local(p, s.e, a); Wedged(Stream(o.e, o.c, o.s), f)
  {
    hide FlowControl.Cat;
  }

  lemma WedgedServerSays(p: Params, s: Stream, f: Flow, a: Act)
    requires Wedged(s, f) && Enabled(p, s.e, a) && (a.Bridge? || a.Upload? || a.Download?)
    ensures var o := Local(p, s.e, a); Wedged(Stream(o.e, o.c, o.s), f)
  {
    hide Wedged, Local, Enabled;
    if a.Bridge? { WedgedBridgeSays(p, s, f, a); } else { WedgedPumpSays(p, s, f, a); }
  }

  lemma WedgedConnectorSays(p: Params, s: Stream, f: Flow, a: Act)
    requires Wedged(s, f) && Enabled(p, s.e, a) && (a.Dial? || a.Respond? || a.Forward?)
    ensures var o := Local(p, s.e, a); Wedged(Stream(o.e, o.c, o.s), f)
  {
    hide FlowControl.Cat;
  }

  lemma WedgedActs(p: Params, s: Stream, f: Flow, a: Act)
    requires Wedged(s, f) && Enabled(p, s.e, a)
    ensures Wedged(AfterAct(p, s, a), f)
  {
    hide Local, Enabled, Still;
    if a.Bridge? || a.Upload? || a.Download? { WedgedServerSays(p, s, f, a); } else { WedgedConnectorSays(p, s, f, a); }
    StillSnoc(s.toC, Local(p, s.e, a).c, false);
    StillSnoc(s.toS, Local(p, s.e, a).s, true);
  }

  lemma WedgedStep(p: Params, cap: nat, m: Session, st: SessionStep, id: nat, f: Flow)
    requires Can(p, m, st) && id in m.ends && Wedged(View(m, id), f)
    ensures id in Mux.Step(p, cap, m, st).ends && Wedged(View(Mux.Step(p, cap, m, st), id), f)
  {
    var s := View(m, id);
    assert Opening(s) by { assert Connect !in s.toC; }
    hide Wedged, Opening, CanStep, Local, ServerGets, ConnectorGets, Enabled, Only;
    hide AfterServer, AfterConnector, AfterAct;
    SessionRefinesTunnel(p, cap, m, st, id);
    StaysKnown(p, cap, m, st, id);
    match StepOf(cap, m, st, id)
    case Some(AtServer) => ServerLeavesWedged(p, s, f);
    case Some(AtConnector(accept)) => ConnectorLeavesWedged(p, s, f, accept);
    case Some(Do(a)) => WedgedActs(p, s, f, a);
    case None =>
  }

  lemma {:induction false} WedgedForGood(p: Params, cap: nat, path: seq<Session>, m: Session, i: nat, id: nat,
                                         f: Flow)
    requires Continues(p, cap, path, m) && i < |path| && id in m.ends && Wedged(View(m, id), f)
    ensures id in path[i].ends && Wedged(View(path[i], id), f)
  {
    hide Can, Mux.Step, Wedged;
    if i > 0 {
      WedgedForGood(p, cap, path, m, i - 1, id, f);
      assert Reaches(p, cap, path[i - 1], path[i]);
      var st :| Can(p, path[i - 1], st) && path[i] == Mux.Step(p, cap, path[i - 1], st);
      WedgedStep(p, cap, path[i - 1], st, id, f);
    }
  }

  lemma StarvedIsWedged(p: Params)
    requires 1 <= p.threshold && 1 <= p.chunk && p.threshold + p.chunk > p.window + 1
    ensures Wedged(View(Solo(Starved(p)), 1), Starved(p).e.down)
  {
    assert Only([], 1) == [];
  }

  lemma StarvedIsHopeless(p: Params, cap: nat)
    requires cap > 0 && 1 <= p.threshold && 1 <= p.chunk && p.threshold + p.chunk > p.window + 1
    ensures Hopeless(p, cap, Solo(Starved(p)), 1, Down)
  {
    StarvedReached(p, cap);
    StarvedIsStuck(p);
    StarvedIsWedged(p);
    hide Reachable, Continues, Helps, Can, Starved, Stuck;
    var m, f := Solo(Starved(p)), Starved(p).e.down;
    forall path: seq<Session>, i: nat | Continues(p, cap, path, m) && i < |path|
      ensures 1 in path[i].ends && Parked(path[i].ends[1], Down)
    {
      WedgedForGood(p, cap, path, m, i, 1, f);
    }
  }

  // ----- Exactly when -----

  /** With a window a 32-bit grant can name and a threshold and chunk of at least one, some run
      deadlocks, and some run deadlocks for good, if and only if the chunk exceeds
      `window - threshold + 1`.  That a chunk is within the window is not enough. */
  lemma NoDeadlockIff(p: Params, cap: nat)
    requires 1 <= p.threshold && 1 <= p.chunk && p.window < U32_RANGE && cap > 0
    ensures p.threshold + p.chunk <= p.window + 1 <==> forall m, id, d :: !Deadlocked(p, cap, m, id, d)
    ensures p.threshold + p.chunk <= p.window + 1 <==> forall m, id, d :: !Hopeless(p, cap, m, id, d)
  {
    if p.threshold + p.chunk <= p.window + 1 {
      forall m, id, d ensures !Deadlocked(p, cap, m, id, d) {
        if Deadlocked(p, cap, m, id, d) {
          NeverDeadlocked(p, cap, m, id, d);
        }
      }
    } else {
      StarvedIsHopeless(p, cap);
      hide Reachable, Stuck, Helps, Can, Continues;
      assert Deadlocked(p, cap, Solo(Starved(p)), 1, Down);
    }
  }

  lemma NeverDeadlocked(p: Params, cap: nat, m: Session, id: nat, d: Dir)
    requires p.Sane() && Reachable(p, cap, m) && id in m.ends && Stuck(m.ends[id], d)
    ensures exists st :: Can(p, m, st) && Helps(m, st, id, d)
  {
    hide Reaches, Mux.Inv, Stuck, Can, Helps;
    var run :| IsRun(p, cap, run) && run[|run| - 1] == m;
    RunInv(p, cap, run, |run| - 1);
    HelpIsEnabled(p, cap, m, id, d);
  }

  /** The two binaries never deadlock. */
  lemma ConfiguredNeverDeadlocks(m: Session, id: nat, d: Dir)
    ensures !Deadlocked(X2RP, MAX_ACTIVE_STREAMS, m, id, d)
  {
    hide Deadlocked;
    NoDeadlockIff(X2RP, MAX_ACTIVE_STREAMS);
  }
}
