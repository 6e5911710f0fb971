/** Flow control cannot deadlock.  While a sender is parked on credit and both ends keep
    the stream, some delivery, drain or grant step is enabled; each such step lowers a
    lexicographic rank, and no step of any tunnel raises it while the sender stays parked. */
module Progress {
  import opened FlowControl
  import opened Tunnel
  import opened TunnelInvariant
  import opened Mux

  datatype Dir = Down | Up

  predicate Moving(rx: RxPc) { rx == Receiving || rx == Writing || rx == Granting }

  /** Both ends know the stream and the receiving pump is at work. */
  predicate Live(e: Ends, d: Dir) {
    && e.srv.registered && e.srv.task == Splicing && e.con.task == Piping
    && match d
       case Down => e.con.entry && Moving(e.srv.rx)
       case Up => e.con.entry && e.con.reqOpen && Moving(e.con.rx)
  }

  /** The sender holds a chunk its credit does not cover. */
  predicate Parked(e: Ends, d: Dir) {
    match d
    case Down => e.con.tx == Waiting && e.down.credit < |e.down.held|
    case Up => e.srv.tx == Waiting && e.up.credit < |e.up.held|
  }

  predicate Stuck(e: Ends, d: Dir) { Live(e, d) && Parked(e, d) }

  function WorkLeft(s: Stream, d: Dir): nat {
    match d
    case Down => Rank(s.e.down, Wire(s.toS), Granted(s.toC))
    case Up => Rank(s.e.up, Wire(s.toC), Granted(s.toS))
  }

  /** A drain or grant step of the receiving pump. */
  predicate Drains(a: RxAct) {
    a.TakeChunk? || a.WriteSome? || a.Count? || a == SendUpdate(true)
  }

  lemma DrainLowersRank(p: Params, tx: TxPc, rx: RxPc, f: Flow, data: seq<Msg>, grants: seq<Msg>,
                        open: bool, aborts: bool, a: RxAct)
    requires p.Sane() && Direction(p, tx, rx, f, data, grants) && RxCan(rx, f, open, a) && Drains(a)
    ensures var o := RxStep(p, rx, f, open, aborts, a);
      Rank(o.f, Wire(data), Granted(grants + o.out)) < Rank(f, Wire(data), Granted(grants))
  {
    hide FlowControl.BytesKept, FlowControl.CreditKept, Wire;
    var o := RxStep(p, rx, f, open, aborts, a);
    Appended(grants, o.out);
    if a.TakeChunk? { assert IsChunk(p, f.queue[0]); }
    if a.Count? { DrainInv(p, f, Wire(data), Granted(grants)); }
  }

  lemma DataLowersRank(p: Params, tx: TxPc, rx: RxPc, f: Flow, data: seq<Msg>, grants: seq<Msg>)
    requires Direction(p, tx, rx, f, data, grants) && data != [] && data[0].Data?
    ensures Rank(Accept(f, data[0].payload), Wire(data[1..]), Granted(grants)) < Rank(f, Wire(data), Granted(grants))
  {
    hide FlowControl.BytesKept, FlowControl.CreditKept, FlowControl.Inv;
    assert Sound(p, data[0]);
    CatSnoc(f.queue, data[0].payload);
  }

  lemma GrantLowersRank(p: Params, tx: TxPc, rx: RxPc, f: Flow, data: seq<Msg>, grants: seq<Msg>)
    requires Direction(p, tx, rx, f, data, grants) && grants != [] && grants[0].WindowUpdate? && Carries(p, grants)
    ensures Rank(Grant(p, f, grants[0].bytes), Wire(data), Granted(grants[1..])) < Rank(f, Wire(data), Granted(grants))
  {
    hide FlowControl.BytesKept, FlowControl.CreditKept, FlowControl.Inv;
    assert Sound(p, grants[0]);
  }

  /** The steps of a tunnel that bring a parked sender closer to its credit. */
  predicate HelpsTunnel(s: Stream, st: Tunnel.Step, d: Dir) {
    match st
    case AtServer => s.toS != [] && (if d == Down then s.toS[0].Data? else s.toS[0].WindowUpdate?)
    case AtConnector(_) => s.toC != [] && (if d == Down then s.toC[0].WindowUpdate? else s.toC[0].Data?)
    case Do(Download(a)) => d == Down && Drains(a)
    case Do(Forward(a)) => d == Up && Drains(a)
    case Do(_) => false
  }

  /** A helping step lowers the work left; any other leaves it as it was. */
  predicate Ranked(s: Stream, n: Stream, st: Tunnel.Step, d: Dir) {
    if HelpsTunnel(s, st, d) then WorkLeft(n, d) < WorkLeft(s, d) else WorkLeft(n, d) == WorkLeft(s, d)
  }

  lemma ServerReadRank(p: Params, s: Stream, d: Dir)
    requires Flows(p, s) && s.toS != []
    requires Stuck(s.e, d) && Stuck(AfterServer(p, s).e, d)
    ensures Ranked(s, AfterServer(p, s), AtServer, d)
  {
    hide FlowControl.Inv, TxOk, RxOk, Rank;
    var v, c, m := s.e.srv, s.e.con, s.toS[0];
    if m.Data? {
      DataArrives(p, c.tx, v.rx, s.e.down, s.toS, s.toC);
      DataLowersRank(p, c.tx, v.rx, s.e.down, s.toS, s.toC);
    } else {
      assert [] + Wire(s.toS[1..]) == Wire(s.toS[1..]);
    }
    if m.WindowUpdate? {
      GrantLowersRank(p, v.tx, c.rx, s.e.up, s.toC, s.toS);
    }
  }

  lemma ConnectorReadRank(p: Params, s: Stream, accept: bool, d: Dir)
    requires Flows(p, s) && s.toC != []
    requires Stuck(s.e, d) && Stuck(AfterConnector(p, s, accept).e, d)
    ensures Ranked(s, AfterConnector(p, s, accept), AtConnector(accept), d)
  {
    hide FlowControl.Inv, TxOk, RxOk, Rank;
    var v, c, m := s.e.srv, s.e.con, s.toC[0];
    if m.Data? {
      DataLowersRank(p, v.tx, c.rx, s.e.up, s.toC, s.toS);
    } else {
      assert [] + Wire(s.toC[1..]) == Wire(s.toC[1..]);
    }
    if m.WindowUpdate? {
      GrantLowersRank(p, c.tx, v.rx, s.e.down, s.toS, s.toC);
    }
  }

  lemma DownloadRank(p: Params, s: Stream, x: RxAct, d: Dir)
    requires p.Sane() && Flows(p, s) && Enabled(p, s.e, Download(x))
    requires Stuck(s.e, d) && Stuck(AfterAct(p, s, Download(x)).e, d)
    ensures Ranked(s, AfterAct(p, s, Download(x)), Do(Download(x)), d)
  {
    hide Direction, FlowControl.Cat, Rank;
    var v, c := s.e.srv, s.e.con;
    assert s.toS + [] == s.toS;
    if d == Down {
      DrainLowersRank(p, c.tx, v.rx, s.e.down, s.toS, s.toC, v.registered, true, x);
    } else {
      Appended(s.toC, Local(p, s.e, Download(x)).c);
    }
  }

  lemma ForwardRank(p: Params, s: Stream, x: RxAct, d: Dir)
    requires p.Sane() && Flows(p, s) && Enabled(p, s.e, Forward(x))
    requires Stuck(s.e, d) && Stuck(AfterAct(p, s, Forward(x)).e, d)
    ensures Ranked(s, AfterAct(p, s, Forward(x)), Do(Forward(x)), d)
  {
    hide Direction, FlowControl.Cat, Rank;
    var v, c := s.e.srv, s.e.con;
    assert s.toC + [] == s.toC;
    if d == Up {
      DrainLowersRank(p, v.tx, c.rx, s.e.up, s.toC, s.toS, c.reqOpen, false, x);
    } else {
      Appended(s.toS, Local(p, s.e, Forward(x)).s);
    }
  }

  lemma ServerActRank(p: Params, s: Stream, a: Act, d: Dir)
    requires Enabled(p, s.e, a) && (a.Upload? || a.Bridge?)
    requires Stuck(s.e, d) && Stuck(AfterAct(p, s, a).e, d)
    ensures Ranked(s, AfterAct(p, s, a), Do(a), d)
  {
    hide FlowControl.Cat, Rank, Wire, Granted;
    Appended(s.toC, Local(p, s.e, a).c);
    assert s.toS + [] == s.toS;
  }

  lemma ConnectorActRank(p: Params, s: Stream, a: Act, d: Dir)
    requires Enabled(p, s.e, a) && (a.Respond? || a.Dial?)
    requires Stuck(s.e, d) && Stuck(AfterAct(p, s, a).e, d)
    ensures Ranked(s, AfterAct(p, s, a), Do(a), d)
  {
    hide FlowControl.Cat, Rank, Wire, Granted;
    Appended(s.toS, Local(p, s.e, a).s);
    assert s.toC + [] == s.toC;
  }

  lemma TunnelRank(p: Params, s: Stream, st: Tunnel.Step, d: Dir)
    requires p.Sane() && TunnelInvariant.Inv(p, s) && CanStep(p, s, st)
    requires Stuck(s.e, d) && Stuck(Next(p, s, st).e, d)
    ensures Ranked(s, Next(p, s, st), st, d)
  {
    hide Flows, Control, Enabled, AfterAct, AfterServer, AfterConnector, Stuck, Ranked;
    match st
    case AtServer => ServerReadRank(p, s, d);
    case AtConnector(accept) => ConnectorReadRank(p, s, accept, d);
    case Do(Download(x)) => DownloadRank(p, s, x, d);
    case Do(Forward(x)) => ForwardRank(p, s, x, d);
    case Do(Upload(_)) => ServerActRank(p, s, st.a, d);
    case Do(Bridge(_)) => ServerActRank(p, s, st.a, d);
    case Do(a) => ConnectorActRank(p, s, a, d);
  }

  // ----- The shared links -----

  /** A chunk (or, with `grant`, a grant) of tunnel `id`. */
  predicate Hit(t: Tagged, id: nat, grant: bool) {
    t.id == id && (if grant then t.m.WindowUpdate? else t.m.Data?)
  }

  predicate Holds(q: seq<Tagged>, id: nat, grant: bool) {
    q != [] && (Hit(q[0], id, grant) || Holds(q[1..], id, grant))
  }

  /** How many messages stand before the first hit. */
  function Before(q: seq<Tagged>, id: nat, grant: bool): nat {
    if !Holds(q, id, grant) || Hit(q[0], id, grant) then 0 else 1 + Before(q[1..], id, grant)
  }

  lemma {:induction false} NoHits(q: seq<Tagged>, id: nat)
    ensures !Holds(q, id, false) ==> Wire(Only(q, id)) == []
    ensures !Holds(q, id, true) ==> Granted(Only(q, id)) == 0
  {
    if q != [] {
      NoHits(q[1..], id);
      if q[0].id == id {
        assert Only(q, id)[1..] == Only(q[1..], id);
      }
    }
  }

  lemma {:induction false} BeforeAppend(q: seq<Tagged>, tail: seq<Tagged>, id: nat, grant: bool)
    requires |tail| <= 1 && (tail != [] ==> !Hit(tail[0], id, grant))
    ensures Holds(q + tail, id, grant) == Holds(q, id, grant)
    ensures Before(q + tail, id, grant) == Before(q, id, grant)
  {
    if q == [] {
      assert q + tail == tail;
    } else {
      BeforeAppend(q[1..], tail, id, grant);
      assert (q + tail)[1..] == q[1..] + tail;
    }
  }

  function Ahead(m: Session, id: nat, d: Dir): nat {
    Before(m.toS, id, d == Up) + Before(m.toC, id, d == Down)
  }

  /** The deliveries and drain steps of a session that help tunnel `id`. */
  predicate Helps(m: Session, st: SessionStep, id: nat, d: Dir) {
    match st
    case Open(_) => false
    case ServerReads => Holds(m.toS, id, d == Up)
    case ConnectorReads => Holds(m.toC, id, d == Down)
    case Task(j, a) => j == id && id in m.ends && HelpsTunnel(View(m, id), Do(a), d)
  }

  predicate Below(m: Session, n: Session, id: nat, d: Dir)
    requires id in m.ends && id in n.ends
  {
    || WorkLeft(View(n, id), d) < WorkLeft(View(m, id), d)
    || (WorkLeft(View(n, id), d) == WorkLeft(View(m, id), d) && Ahead(n, id, d) < Ahead(m, id, d))
  }

  predicate Level(m: Session, n: Session, id: nat, d: Dir)
    requires id in m.ends && id in n.ends
  {
    WorkLeft(View(n, id), d) == WorkLeft(View(m, id), d) && Ahead(n, id, d) == Ahead(m, id, d)
  }

  /** A parked sender says nothing, and what its peer's pump says is a helping step. */
  lemma SilentActs(p: Params, s: Stream, a: Act, d: Dir)
    requires Stuck(s.e, d) && Enabled(p, s.e, a) && !HelpsTunnel(s, Do(a), d)
    ensures var o := Local(p, s.e, a);
      && |o.c| <= 1 && (o.c != [] ==> if d == Down then !o.c[0].WindowUpdate? else !o.c[0].Data?)
      && |o.s| <= 1 && (o.s != [] ==> if d == Down then !o.s[0].Data? else !o.s[0].WindowUpdate?)
  {
    hide FlowControl.Cat;
  }

  lemma TaskRank(p: Params, cap: nat, m: Session, n: Session, j: nat, a: Act, id: nat, d: Dir)
    requires p.Sane() && Mux.Inv(p, cap, m) && Can(p, m, Task(j, a)) && n == Mux.Step(p, cap, m, Task(j, a))
    requires id in m.ends && id in n.ends && Stuck(m.ends[id], d) && Stuck(n.ends[id], d)
    ensures
      if Helps(m, Task(j, a), id, d) then Below(m, n, id, d) else Level(m, n, id, d)
  {
    hide TunnelInvariant.Inv, Local, Enabled, AfterAct, WorkLeft, Stuck, HelpsTunnel, Only, Holds, Before;
    var o := Local(p, m.ends[j], a);
    TaskProjects(p, cap, m, j, a, id);
    if j == id { TunnelRank(p, View(m, id), Do(a), d); }
    if !Helps(m, Task(j, a), id, d) {
      OneWord(p, m.ends[j], a);
      if j == id { SilentActs(p, View(m, id), a, d); }
      BeforeAppend(m.toC, Tag(j, o.c), id, d == Down);
      BeforeAppend(m.toS, Tag(j, o.s), id, d == Up);
    }
  }

  lemma OneWord(p: Params, e: Ends, a: Act)
    requires Enabled(p, e, a)
    ensures |Local(p, e, a).c| <= 1 && |Local(p, e, a).s| <= 1
  {}

  lemma ServerReadsRank(p: Params, cap: nat, m: Session, n: Session, id: nat, d: Dir)
    requires p.Sane() && Mux.Inv(p, cap, m) && Can(p, m, ServerReads) && n == Mux.Step(p, cap, m, ServerReads)
    requires id in m.ends && id in n.ends && Stuck(m.ends[id], d) && Stuck(n.ends[id], d)
    ensures if Helps(m, ServerReads, id, d) then Below(m, n, id, d) else Level(m, n, id, d)
  {
    hide TunnelInvariant.Inv, ServerGets, AfterServer, WorkLeft, Only, Stuck;
    ServerReadsProjects(p, cap, m, id);
    if m.toS[0].id == id {
      TunnelRank(p, View(m, id), AtServer, d);
      HeadOfView(m.toS, id);
    }
  }

  lemma ConnectorReadsRank(p: Params, cap: nat, m: Session, n: Session, id: nat, d: Dir)
    requires p.Sane() && Mux.Inv(p, cap, m) && Can(p, m, ConnectorReads) && n == Mux.Step(p, cap, m, ConnectorReads)
    requires id in m.ends && id in n.ends && Stuck(m.ends[id], d) && Stuck(n.ends[id], d)
    ensures if Helps(m, ConnectorReads, id, d) then Below(m, n, id, d) else Level(m, n, id, d)
  {
    hide TunnelInvariant.Inv, ConnectorGets, AfterConnector, WorkLeft, Only;
    OpeningOf(p, View(m, id));
    ConnectorReadsProjects(p, cap, m, id);
    if m.toC[0].id == id {
      TunnelRank(p, View(m, id), StepOf(cap, m, ConnectorReads, id).value, d);
      HeadOfView(m.toC, id);
    }
  }

  lemma HeadOfView(q: seq<Tagged>, id: nat)
    requires q != [] && q[0].id == id
    ensures Only(q, id) != [] && Only(q, id)[0] == q[0].m
  {}

  /** Every step of the session, of this tunnel or another, either lowers the rank of a
      parked direction (if it helps) or leaves it alone, as long as the sender stays parked
      on a live stream. */
  lemma RankNeverRises(p: Params, cap: nat, m: Session, n: Session, st: SessionStep, id: nat, d: Dir)
    requires p.Sane() && Mux.Inv(p, cap, m) && Can(p, m, st) && n == Mux.Step(p, cap, m, st)
    requires id in m.ends && id in n.ends && Stuck(m.ends[id], d) && Stuck(n.ends[id], d)
    ensures
      if Helps(m, st, id, d) then Below(m, n, id, d) else Level(m, n, id, d)
  {
    hide Mux.Inv, Stuck, WorkLeft, Local;
    match st
    case Open(_) =>
    case Task(j, a) => TaskRank(p, cap, m, n, j, a, id, d);
    case ServerReads => ServerReadsRank(p, cap, m, n, id, d);
    case ConnectorReads => ConnectorReadsRank(p, cap, m, n, id, d);
  }

  // ----- Some helping step is always enabled -----

  /** A drain step the receiving pump can take. */
  function PumpStep(rx: RxPc, f: Flow): RxAct {
    if rx == Receiving then TakeChunk
    else if rx == Granting then SendUpdate(true)
    else if f.cur != [] then WriteSome(1) else Count
  }

  function Helper(m: Session, id: nat, d: Dir): SessionStep
    requires id in m.ends
  {
    if Holds(m.toS, id, d == Up) then ServerReads
    else if Holds(m.toC, id, d == Down) then ConnectorReads
    else Task(id, PumpAct(m.ends[id], d))
  }

  /** With both links clear, a parked sender's peer still has something to drain or grant:
      at rest fewer than `threshold` bytes are ungranted, and any chunk fits in the rest. */
  lemma PumpHasWork(p: Params, tx: TxPc, rx: RxPc, f: Flow, data: seq<Msg>, grants: seq<Msg>, open: bool)
    requires p.Sane() && Direction(p, tx, rx, f, data, grants) && Wire(data) == [] && Granted(grants) == 0
    requires Moving(rx) && tx == Waiting && f.credit < |f.held| && f.leak == 0
    ensures RxCan(rx, f, open, PumpStep(rx, f)) && Drains(PumpStep(rx, f))
  {
    hide FlowControl.Inv, Wire, Granted;
    if rx == Receiving && f.queue == [] {
      QuietHasCredit(p, f, Wire(data), Granted(grants));
    }
  }

  function PumpAct(e: Ends, d: Dir): Act {
    if d == Down then Download(PumpStep(e.srv.rx, e.down)) else Forward(PumpStep(e.con.rx, e.up))
  }

  lemma PumpCanHelp(p: Params, s: Stream, d: Dir)
    requires p.Sane() && TunnelInvariant.Inv(p, s) && Stuck(s.e, d)
    requires if d == Down then Wire(s.toS) == [] && Granted(s.toC) == 0 else Wire(s.toC) == [] && Granted(s.toS) == 0
    ensures Enabled(p, s.e, PumpAct(s.e, d)) && HelpsTunnel(s, Do(PumpAct(s.e, d)), d)
  {
    hide Direction, Opening, Handshake, ResponseEof, RequestEof, Wire, Granted, FlowControl.Cat;
    hide RxCan, PumpStep, Drains;
    match d
    case Down => PumpHasWork(p, s.e.con.tx, s.e.srv.rx, s.e.down, s.toS, s.toC, s.e.srv.registered);
    case Up => PumpHasWork(p, s.e.srv.tx, s.e.con.rx, s.e.up, s.toC, s.toS, s.e.con.reqOpen);
  }

  /** No deadlock: while a sender is parked on a live stream, a helping step is enabled. */
  lemma HelpIsEnabled(p: Params, cap: nat, m: Session, id: nat, d: Dir)
    requires p.Sane() && Mux.Inv(p, cap, m) && id in m.ends && Stuck(m.ends[id], d)
    ensures Can(p, m, Helper(m, id, d)) && Helps(m, Helper(m, id, d), id, d)
  {
    hide TunnelInvariant.Inv, Stuck, Enabled, HelpsTunnel, PumpStep, Wire, Granted, Only;
    NoHits(m.toS, id);
    NoHits(m.toC, id);
    if !Holds(m.toS, id, d == Up) && !Holds(m.toC, id, d == Down) {
      PumpCanHelp(p, View(m, id), d);
    }
  }

  /** A schedule of helping steps from `m`. */
  ghost predicate Schedule(p: Params, cap: nat, m: Session, steps: seq<SessionStep>, id: nat, d: Dir, n: Session)
    decreases steps
  {
    if steps == [] then n == m
    else Can(p, m, steps[0]) && Helps(m, steps[0], id, d)
         && Schedule(p, cap, Mux.Step(p, cap, m, steps[0]), steps[1..], id, d, n)
  }

  lemma StaysKnown(p: Params, cap: nat, m: Session, st: SessionStep, id: nat)
    requires Can(p, m, st) && id in m.ends
    ensures id in Mux.Step(p, cap, m, st).ends
  {
    hide Local, ServerGets, ConnectorGets;
  }

  /** Progress: helping steps alone bring any parked direction, in finitely many steps, to
      where its sender can proceed or its stream is no longer live. */
  lemma {:induction false} SenderIsFreed(p: Params, cap: nat, m: Session, id: nat, d: Dir)
    returns (steps: seq<SessionStep>, n: Session)
    requires p.Sane() && Mux.Inv(p, cap, m) && id in m.ends
    ensures Schedule(p, cap, m, steps, id, d, n)
    ensures id in n.ends && !Stuck(n.ends[id], d)
    decreases WorkLeft(View(m, id), d), Ahead(m, id, d)
  {
    hide Mux.Inv, Mux.Step, Can, Stuck, WorkLeft, Ahead, Helps, Helper;
    if !Stuck(m.ends[id], d) {
      return [], m;
    }
    var st := Helper(m, id, d);
    HelpIsEnabled(p, cap, m, id, d);
    var m' := Mux.Step(p, cap, m, st);
    Mux.StepInv(p, cap, m, st);
    StaysKnown(p, cap, m, st, id);
    if !Stuck(m'.ends[id], d) {
      return [st], m';
    }
    RankNeverRises(p, cap, m, m', st, id, d);
    var rest, end := SenderIsFreed(p, cap, m', id, d);
    steps, n := [st] + rest, end;
    assert steps[1..] == rest;
  }

  // ----- The end of a direction -----

  /** The end of the bytes has arrived and the receiving pump is still at work. */
  predicate Closing(e: Ends, d: Dir) {
    match d
    case Down => e.srv.task == Splicing && e.srv.removal == ByClose && Moving(e.srv.rx)
    case Up => e.con.task == Piping && e.con.fin && Moving(e.con.rx)
  }

  /** Everything that was read on one side has been written on the other. */
  predicate Complete(e: Ends, d: Dir) {
    match d
    case Down => e.srv.rx == Drained && e.down.sink == e.down.src
    case Up => e.con.rx == Drained && e.up.sink == e.up.src
  }

  /** The queue was drained to its end. */
  predicate Ended(e: Ends, d: Dir) {
    if d == Down then e.srv.rx == Drained && e.srv.removal == ByClose else e.con.rx == Drained && e.con.fin
  }

  function EndStep(rx: RxPc, f: Flow): RxAct {
    if rx == Receiving && f.queue == [] then QueueEnd else PumpStep(rx, f)
  }

  function EndAct(e: Ends, d: Dir): Act {
    if d == Down then Download(EndStep(e.srv.rx, e.down)) else Forward(EndStep(e.con.rx, e.up))
  }

  function Source(e: Ends, d: Dir): Bytes { if d == Down then e.down.src else e.up.src }

  lemma EndIsEnabled(p: Params, s: Stream, d: Dir)
    requires TunnelInvariant.Inv(p, s) && Closing(s.e, d)
    ensures Enabled(p, s.e, EndAct(s.e, d))
  {
    hide Direction, Opening, NoLeak, ResponseEof, Wire, FlowControl.Cat;
  }

  /** One more step of the pump: closer to the end, or at it. */
  lemma EndAdvances(p: Params, s: Stream, d: Dir)
    requires p.Sane() && TunnelInvariant.Inv(p, s) && Closing(s.e, d) && Enabled(p, s.e, EndAct(s.e, d))
    ensures var n := AfterAct(p, s, EndAct(s.e, d));
      && Source(n.e, d) == Source(s.e, d)
      && (if Closing(n.e, d) then WorkLeft(n, d) < WorkLeft(s, d)
          else Ended(n.e, d))
  {
    hide Direction, Rank, FlowControl.Cat, Control, Wire, Granted;
    var v, c := s.e.srv, s.e.con;
    var a := if d == Down then EndStep(v.rx, s.e.down) else EndStep(c.rx, s.e.up);
    assert s.toS + [] == s.toS && s.toC + [] == s.toC;
    if Drains(a) {
      match d
      case Down => DrainLowersRank(p, c.tx, v.rx, s.e.down, s.toS, s.toC, v.registered, true, a);
      case Up => DrainLowersRank(p, v.tx, c.rx, s.e.up, s.toC, s.toS, c.reqOpen, false, a);
    }
  }

  lemma EndedIsComplete(p: Params, s: Stream, d: Dir)
    requires TunnelInvariant.Inv(p, s) && Ended(s.e, d)
    ensures Complete(s.e, d)
  {
    hide TunnelInvariant.Inv;
    match d
    case Down => ResponseComplete(p, s);
    case Up => RequestComplete(p, s);
  }

  /** Steps of tunnel `id` alone. */
  ghost predicate Plays(p: Params, cap: nat, m: Session, acts: seq<Act>, id: nat, n: Session)
    decreases acts
  {
    if acts == [] then n == m
    else Can(p, m, Task(id, acts[0])) && Plays(p, cap, Mux.Step(p, cap, m, Task(id, acts[0])), acts[1..], id, n)
  }

  /** Delivery is not left hanging: once the end of a direction has arrived, finitely many
      steps of its own pump, all of them enabled, write everything that was read. */
  lemma {:induction false} EndDelivers(p: Params, cap: nat, m: Session, id: nat, d: Dir)
    returns (acts: seq<Act>, n: Session)
    requires p.Sane() && Mux.Inv(p, cap, m) && id in m.ends && Closing(m.ends[id], d)
    ensures Plays(p, cap, m, acts, id, n)
    ensures id in n.ends && Complete(n.ends[id], d) && Source(n.ends[id], d) == Source(m.ends[id], d)
    decreases WorkLeft(View(m, id), d)
  {
    hide TunnelInvariant.Inv, Enabled, Local, AfterAct, Closing, WorkLeft, EndAct, Source, Complete, Only;
    var s, a := View(m, id), EndAct(m.ends[id], d);
    EndIsEnabled(p, s, d);
    assert a != Dial(Reap) by { NotReap(m.ends[id], d); }
    EndAdvances(p, s, d);
    var m' := Mux.Step(p, cap, m, Task(id, a));
    Mux.StepInv(p, cap, m, Task(id, a));
    TaskProjects(p, cap, m, id, a, id);
    if Closing(m'.ends[id], d) {
      var rest;
      rest, n := EndDelivers(p, cap, m', id, d);
      acts := [a] + rest;
      assert acts[1..] == rest;
    } else {
      acts, n := [a], m';
      EndedIsComplete(p, View(m', id), d);
    }
  }

  lemma NotReap(e: Ends, d: Dir)
    ensures EndAct(e, d) != Dial(Reap)
  {}
}
