/** The inductive invariant of one tunnel, kept by every step of either end. */
module TunnelInvariant {
  import opened FlowControl
  import opened Tunnel

  predicate TxOk(pc: TxPc, f: Flow) {
    match pc
    case TxOff => f.held == [] && !f.paid
    case Reading => f.held == [] && !f.paid
    case Ending => f.held == [] && !f.paid
    case Aborting => f.held == [] && !f.paid
    case Waiting => |f.held| >= 1 && !f.paid
    case Sending => |f.held| >= 1 && f.paid
    case TxStopped => true
  }

  predicate RxOk(pc: RxPc, f: Flow) {
    match pc
    case RxOff => f.curLen == 0 && f.drained == 0 && f.owed == 0
    case Receiving => f.curLen == 0 && f.owed == 0
    case Writing => f.curLen >= 1 && f.owed == 0
    case Granting => f.curLen == 0 && f.owed >= 1
    case Drained => f.curLen == 0 && f.queue == []
    case Failed => true
    case Broken => true
  }

  predicate Sound(p: Params, m: Msg) {
    (m.Data? ==> IsChunk(p, m.payload)) && (m.WindowUpdate? ==> 1 <= m.bytes <= p.window)
  }

  predicate Carries(p: Params, q: seq<Msg>) {
    forall i :: 0 <= i < |q| ==> Sound(p, q[i])
  }

  predicate Spliced(v: Server) { v.rx != RxOff }
  predicate Piped(c: Connector) { c.rx != RxOff }

  /** One direction: bytes and credit accounted for across the two ends and the links. */
  predicate Direction(p: Params, tx: TxPc, rx: RxPc, f: Flow, data: seq<Msg>, grants: seq<Msg>) {
    && FlowControl.Inv(p, f, Wire(data), Granted(grants))
    && Carries(p, data) && TxOk(tx, f) && RxOk(rx, f)
  }

  predicate Flows(p: Params, s: Stream) {
    && Direction(p, s.e.con.tx, s.e.srv.rx, s.e.down, s.toS, s.toC)
    && Direction(p, s.e.srv.tx, s.e.con.rx, s.e.up, s.toC, s.toS)
    && s.e.srv.outstanding == |Cat(s.e.down.queue)| + s.e.down.curLen
  }

  /** Connect is the first word on the link, said once; nothing answers before it arrives. */
  predicate Opening(s: Stream) {
    var v, c := s.e.srv, s.e.con;
    && (Connect in s.toC ==> c.task == Absent)
    && (c.task == Absent ==> s.toS == [] && !c.entry)
    && (c.task == Absent && s.toC != [] ==> s.toC[0] == Connect && Connect !in s.toC[1..])
    && (v.task == Connecting ==> s.toC == [] && c.task == Absent)
    && (c.task == Absent && (v.task == Awaiting || v.task == GivingUp || v.task == Resetting) ==> s.toC != [])
  }

  /** The server splices only on a ConnectOk, which the connector sends only once its
      backend is up; before that no byte moves. */
  predicate Handshake(s: Stream) {
    var v, c := s.e.srv, s.e.con;
    && (!Piped(c) ==> ConnectOk !in s.toS && v.reply != ReplyOk
                      && c.tx == TxOff && s.e.down.src == [] && !c.closed && c.task != Piping)
    && (Piped(c) ==> c.task == Piping || c.task == Finished)
    && (!Spliced(v) ==> v.tx == TxOff && s.e.up.src == [] && !v.upClosed && v.task != Splicing)
    && (Spliced(v) ==> v.reply == ReplyOk && (v.task == Splicing || v.task == Over))
    && (v.pending ==> v.reply == NoReply)
    && (v.registered <==> v.removal == NotRemoved)
    && (v.task == Over || v.task == Resetting ==> !v.registered)
    && (c.reqOpen ==> c.entry)
    && (c.entry ==> c.task != Absent && c.task != Refused)
    && (c.entry && !c.reqOpen ==> c.fin)
    && (c.spawnedErr ==> c.task == Refused)
  }

  /** Nothing is dropped while both ends still know the stream, and the server never sees
      its window exceeded. */
  predicate NoLeak(s: Stream) {
    var v, c := s.e.srv, s.e.con;
    && (v.registered ==> s.e.down.lost == [])
    && (c.reqOpen || c.task == Absent ==> s.e.up.lost == [])
    && (v.registered && (c.entry || c.task == Absent) ==> s.e.down.leak == 0)
    && (v.registered && (c.entry || c.task == Absent) ==> s.e.up.leak == 0)
    && !v.spawnedReset && v.removal != ByViolation && v.removal != ByDeadQueue
  }

  /** Response EOF is the connector's last word. */
  predicate ResponseEof(s: Stream) {
    var v, c := s.e.srv, s.e.con;
    && (Close in s.toS ==> c.closed)
    && (forall i :: 0 <= i < |s.toS| - 1 ==> s.toS[i] != Close)
    && (c.closed ==> c.task == Finished && s.e.down.held == []
                     && (s.toS == [] || s.toS[|s.toS| - 1] == Close))
    && (v.removal == ByClose ==> c.closed && s.toS == [] && s.e.down.lost == [])
    && (v.rx == Drained ==> !v.registered)
  }

  /** No request bytes follow the request EOF. */
  predicate RequestEof(s: Stream) {
    var v, c := s.e.srv, s.e.con;
    && (v.upClosed ==> v.tx == TxStopped && s.e.up.held == [])
    && (Close in s.toC ==> v.upClosed)
    && (forall i, j :: 0 <= i < j < |s.toC| && s.toC[i] == Close ==> !s.toC[j].Data?)
    && (c.fin ==> v.upClosed && !c.reqOpen && Wire(s.toC) == [] && s.e.up.lost == [])
    && (c.rx == Drained ==> !c.reqOpen)
  }

  /** Everything but the two flows. */
  predicate Control(s: Stream) {
    Opening(s) && Handshake(s) && NoLeak(s) && ResponseEof(s) && RequestEof(s)
  }

  /** A stream out of the server's map is torn down, and a connect is decided by its answer;
      only a shutdown may leave one pending behind. */
  predicate TornDown(v: Server) {
    && (v.pending <==> v.reply == NoReply)
    && (v.registered <==> !v.creditClosed)
    && (v.pending && !v.registered ==> v.removal == ByShutdown)
  }

  /** What was said is still on the link or has taken effect: an end of bytes, an answer, a
      Reset. */
  predicate Heeded(s: Stream) {
    var v, c := s.e.srv, s.e.con;
    && (c.closed && v.registered ==> Close in s.toS)
    && (v.upClosed && c.reqOpen ==> Close in s.toC)
    && (c.answered && v.pending ==> ConnectOk in s.toS || ConnectErr in s.toS)
    && (v.resetSent ==> Reset in s.toC || (!c.entry && c.task != Absent))
  }

  /** Only the server resets, and then only a stream it has removed or whose client is gone. */
  predicate Resets(s: Stream) {
    var v, c := s.e.srv, s.e.con;
    && Reset !in s.toS && c.tx != Aborting && c.rx != Failed
    && (Reset in s.toC ==> v.resetSent)
    && (v.resetSent && v.registered ==> v.rx == Broken)
  }

  predicate Inv(p: Params, s: Stream) {
    Flows(p, s) && Control(s) && TornDown(s.e.srv) && Heeded(s) && Resets(s)
  }

  lemma OpenedInv(p: Params)
    requires p.Sane()
    ensures Inv(p, Stream(Opened(p), [], []))
  {}

  // ----- Auxiliary facts -----

  /** Before anything is read, every part of a direction is empty. */
  lemma NothingRead(p: Params, f: Flow, wire: Bytes, grants: nat)
    requires FlowControl.Inv(p, f, wire, grants) && f.src == []
    ensures f.queue == [] && wire == [] && f.held == [] && f.cur == [] && f.lost == []
  {
    assert |f.src| == |f.sink| + (|f.cur| + (|Cat(f.queue)| + (|f.lost| + (|wire| + |f.held|))));
    assert f.queue != [] ==> IsChunk(p, f.queue[0]);
  }

  // ----- One direction, step by step -----

  lemma Appended(q: seq<Msg>, out: seq<Msg>)
    requires |out| <= 1
    ensures out == [] ==> q + out == q
    ensures out != [] ==> Wire(q + out) == Wire(q) + PayloadOf(out[0])
                          && Granted(q + out) == Granted(q) + GrantOf(out[0])
    ensures out != [] && !out[0].Data? ==> Wire(q + out) == Wire(q)
  {
    if out != [] {
      WireSnoc(q, out[0]);
      GrantedSnoc(q, out[0]);
      assert out == [out[0]];
    } else {
      assert q + out == q;
    }
  }

  /** Messages of the other kinds do not touch a direction. */
  lemma Unrelated(p: Params, tx: TxPc, rx: RxPc, f: Flow, data: seq<Msg>, grants: seq<Msg>, d: seq<Msg>, g: seq<Msg>)
    requires Direction(p, tx, rx, f, data, grants)
    requires |d| <= 1 && (d != [] ==> !d[0].Data? && Sound(p, d[0]))
    requires |g| <= 1 && (g != [] ==> !g[0].WindowUpdate?)
    ensures Direction(p, tx, rx, f, data + d, grants + g)
  {
    hide FlowControl.Inv, Wire, Granted, TxOk, RxOk;
    Appended(data, d);
    Appended(grants, g);
  }

  lemma Skipped(p: Params, tx: TxPc, rx: RxPc, f: Flow, data: seq<Msg>, grants: seq<Msg>)
    requires Direction(p, tx, rx, f, data, grants)
    ensures data != [] && !data[0].Data? ==> Direction(p, tx, rx, f, data[1..], grants)
    ensures grants != [] && !grants[0].WindowUpdate? ==> Direction(p, tx, rx, f, data, grants[1..])
  {
    hide FlowControl.Inv;
    if data != [] && !data[0].Data? {
      assert [] + Wire(data[1..]) == Wire(data[1..]);
    }
  }

  lemma TxFlow(p: Params, tx: TxPc, f: Flow, wire: Bytes, g: nat, closed: bool, a: TxAct)
    requires TxCan(p, tx, f, closed, a) && TxOk(tx, f) && FlowControl.Inv(p, f, wire, g)
    ensures var o := TxStep(p, tx, f, closed, a);
      && TxOk(o.pc, o.f) && |o.out| <= 1
      && FlowControl.Inv(p, o.f, if o.out == [] then wire else wire + PayloadOf(o.out[0]), g)
      && (o.out != [] ==> !o.out[0].WindowUpdate? && Sound(p, o.out[0]))
      && o.f == f.(src := o.f.src, held := o.f.held, paid := o.f.paid, credit := o.f.credit)
  {
    hide FlowControl.BytesKept, FlowControl.CreditKept;
    assert wire + [] == wire;
    match a
    case ReadChunk(b) => ReadInv(p, f, b, wire, g);
    case TakeCredit => AcquireInv(p, f, wire, g);
    case SendData(_) => EmitInv(p, f, wire, g);
    case _ =>
  }

  /** A sending pump's step. */
  lemma TxKeeps(p: Params, tx: TxPc, rx: RxPc, f: Flow, data: seq<Msg>, grants: seq<Msg>, closed: bool, a: TxAct)
    requires Direction(p, tx, rx, f, data, grants) && TxCan(p, tx, f, closed, a)
    ensures var o := TxStep(p, tx, f, closed, a);
      && |o.out| <= 1 && (o.out != [] ==> !o.out[0].WindowUpdate?)
      && Direction(p, o.pc, rx, o.f, data + o.out, grants)
      && o.f == f.(src := o.f.src, held := o.f.held, paid := o.f.paid, credit := o.f.credit)
  {
    hide FlowControl.Inv, TxStep, TxOk, TxCan, FlowControl.Cat;
    TxFlow(p, tx, f, Wire(data), Granted(grants), closed, a);
    Appended(data, TxStep(p, tx, f, closed, a).out);
  }

  lemma RxFlow(p: Params, rx: RxPc, f: Flow, wire: Bytes, g: nat, open: bool, aborts: bool, a: RxAct)
    requires p.Sane() && RxCan(rx, f, open, a) && RxOk(rx, f) && FlowControl.Inv(p, f, wire, g)
    ensures var o := RxStep(p, rx, f, open, aborts, a);
      && RxOk(o.pc, o.f) && |o.out| <= 1
      && FlowControl.Inv(p, o.f, wire, if o.out == [] then g else g + GrantOf(o.out[0]))
      && (o.out != [] ==> !o.out[0].Data? && Sound(p, o.out[0]))
      && |Cat(o.f.queue)| + o.f.curLen + (if a.Count? then f.curLen else 0) == |Cat(f.queue)| + f.curLen
      && o.f == f.(queue := o.f.queue, cur := o.f.cur, curLen := o.f.curLen, drained := o.f.drained,
                   owed := o.f.owed, sink := o.f.sink)
  {
    hide FlowControl.BytesKept, FlowControl.CreditKept;
    match a
    case TakeChunk => PopInv(p, f, wire, g);
    case WriteSome(k) => WriteInv(p, f, k, wire, g);
    case Count => DrainInv(p, f, wire, g);
    case SendUpdate(_) => SendGrantInv(p, f, wire, g); WithinWindow(p, f, wire, g);
    case _ =>
  }

  /** A receiving pump's step. */
  lemma RxKeeps(p: Params, tx: TxPc, rx: RxPc, f: Flow, data: seq<Msg>, grants: seq<Msg>,
                open: bool, aborts: bool, a: RxAct)
    requires p.Sane() && Direction(p, tx, rx, f, data, grants) && RxCan(rx, f, open, a)
    ensures var o := RxStep(p, rx, f, open, aborts, a);
      && |o.out| <= 1 && (o.out != [] ==> !o.out[0].Data? && Sound(p, o.out[0]))
      && Direction(p, tx, o.pc, o.f, data, grants + o.out)
      && |Cat(o.f.queue)| + o.f.curLen + (if a.Count? then f.curLen else 0) == |Cat(f.queue)| + f.curLen
      && o.f == f.(queue := o.f.queue, cur := o.f.cur, curLen := o.f.curLen, drained := o.f.drained,
                   owed := o.f.owed, sink := o.f.sink)
  {
    hide FlowControl.Inv, RxStep, RxOk, RxCan, FlowControl.Cat;
    RxFlow(p, rx, f, Wire(data), Granted(grants), open, aborts, a);
    Appended(grants, RxStep(p, rx, f, open, aborts, a).out);
  }

  /** A chunk arrives and is queued, or is lost. */
  lemma DataArrives(p: Params, tx: TxPc, rx: RxPc, f: Flow, data: seq<Msg>, grants: seq<Msg>)
    requires Direction(p, tx, rx, f, data, grants) && data != [] && data[0].Data?
    ensures Direction(p, tx, rx, Lose(f, data[0].payload), data[1..], grants)
    ensures f.lost == [] && rx != Drained ==> Direction(p, tx, rx, Accept(f, data[0].payload), data[1..], grants)
    ensures |Cat(f.queue)| + f.curLen + |data[0].payload| <= p.window
    ensures |Cat(Accept(f, data[0].payload).queue)| == |Cat(f.queue)| + |data[0].payload|
  {
    hide FlowControl.Inv;
    var c, rest, g := data[0].payload, data[1..], Granted(grants);
    assert Sound(p, data[0]);
    CatSnoc(f.queue, c);
    WithinWindow(p, f, Wire(data), g);
    LoseInv(p, f, c, Wire(rest), g);
    if f.lost == [] { AcceptInv(p, f, c, Wire(rest), g); }
  }

  /** A grant arrives and raises the credit in full, or is lost. */
  lemma GrantArrives(p: Params, tx: TxPc, rx: RxPc, f: Flow, data: seq<Msg>, grants: seq<Msg>)
    requires Direction(p, tx, rx, f, data, grants) && grants != [] && grants[0].WindowUpdate?
    ensures Direction(p, tx, rx, LoseGrant(f, grants[0].bytes), data, grants[1..])
    ensures Direction(p, tx, rx, Grant(p, f, grants[0].bytes), data, grants[1..])
    ensures Grant(p, f, grants[0].bytes).leak == f.leak
    ensures Grant(p, f, grants[0].bytes).credit == f.credit + grants[0].bytes
  {
    hide FlowControl.Inv;
    GrantInv(p, f, Wire(data), Granted(grants), grants[0].bytes);
    LoseGrantInv(p, f, Wire(data), Granted(grants), grants[0].bytes);
  }

  // ----- Messages to the server -----

  lemma ServerGetsFlows(p: Params, s: Stream)
    requires Flows(p, s) && s.toS != []
    requires s.e.srv.registered ==> s.e.down.lost == [] && s.e.srv.task != Over && s.e.srv.rx != Drained
    ensures Flows(p, AfterServer(p, s))
    ensures s.toS[0].Data? && s.e.srv.registered ==> s.e.srv.outstanding + |s.toS[0].payload| <= p.window
    ensures s.e.srv.registered ==> AfterServer(p, s).e.up.leak == s.e.up.leak
  {
    hide Direction, FlowControl.Cat;
    var m, v, c := s.toS[0], s.e.srv, s.e.con;
    if m.Data? {
      DataArrives(p, c.tx, v.rx, s.e.down, s.toS, s.toC);
    } else {
      Skipped(p, c.tx, v.rx, s.e.down, s.toS, s.toC);
    }
    if m.WindowUpdate? {
      GrantArrives(p, v.tx, c.rx, s.e.up, s.toC, s.toS);
    } else {
      Skipped(p, v.tx, c.rx, s.e.up, s.toC, s.toS);
    }
  }

  /** A message moves no pump of the server; it can unregister the stream and answer a
      pending connect. */
  lemma ServerGetsFrame(p: Params, e: Ends, m: Msg)
    ensures var n := ServerGets(p, e, m);
      && n.con == e.con && n.down.src == e.down.src && n.up.src == e.up.src
      && n.srv.task == e.srv.task && n.srv.tx == e.srv.tx && n.srv.rx == e.srv.rx
      && n.srv.upClosed == e.srv.upClosed
      && (n.srv.registered ==> e.srv.registered && n.srv.removal == e.srv.removal)
      && (!n.srv.registered ==> (!e.srv.registered && n.srv.removal == e.srv.removal) || n.srv.removal != NotRemoved)
      && (n.srv.pending ==> e.srv.pending)
      && (n.srv.reply == e.srv.reply || (e.srv.pending && !n.srv.pending))
      && (n.srv.reply == ReplyOk ==> e.srv.reply == ReplyOk || m == ConnectOk)
  {
    hide RemoveStream, Resolve, FlowControl.Raised;
    RemoveFrame(e.srv, ByClose);
    RemoveFrame(e.srv, ByReset);
    ResolveFrame(e.srv, ReplyOk);
    ResolveFrame(e.srv, ReplyErr);
    if m.Data? {
      var v := e.srv.(outstanding := e.srv.outstanding + |m.payload|);
      RemoveFrame(v, ByViolation);
      RemoveFrame(v, ByDeadQueue);
    }
  }

  lemma RemoveFrame(v: Server, why: Removal)
    requires why != NotRemoved
    ensures var n := RemoveStream(v, why);
      && n.task == v.task && n.tx == v.tx && n.rx == v.rx && n.upClosed == v.upClosed
      && !n.registered && (v.registered ==> n.removal == why) && (!v.registered ==> n == v)
      && (n.pending ==> v.pending) && (n.reply == v.reply || (v.pending && !n.pending && n.reply == ReplyErr))
  {}

  lemma ResolveFrame(v: Server, r: Reply)
    ensures var n := Resolve(v, r);
      && n.task == v.task && n.tx == v.tx && n.rx == v.rx && n.upClosed == v.upClosed
      && n.registered == v.registered && n.removal == v.removal
      && !n.pending && n.reply == if v.pending then r else v.reply
  {}

  lemma ServerGetsHandshake(p: Params, s: Stream)
    requires s.toS != [] && Opening(s) && Handshake(s)
    ensures Opening(AfterServer(p, s)) && Handshake(AfterServer(p, s))
  {
    hide ServerGets;
    var n := AfterServer(p, s);
    ServerGetsFrame(p, s.e, s.toS[0]);
    assert s.e.con.task != Absent;
    assert s.toS[0] in s.toS;
    assert ConnectOk in n.toS ==> ConnectOk in s.toS;
  }

  lemma ServerGetsNoLeak(p: Params, s: Stream)
    requires s.toS != [] && Control(s)
    requires s.toS[0].Data? && s.e.srv.registered ==> s.e.srv.outstanding + |s.toS[0].payload| <= p.window
    requires s.e.srv.registered ==> AfterServer(p, s).e.up.leak == s.e.up.leak
    ensures NoLeak(AfterServer(p, s))
  {
    hide FlowControl.Cat, FlowControl.Raised, RequestEof, ResponseEof, Opening;
  }

  lemma ServerGetsEof(p: Params, s: Stream)
    requires s.toS != [] && Control(s)
    requires s.toS[0].Data? && s.e.srv.registered ==> s.e.srv.outstanding + |s.toS[0].payload| <= p.window
    ensures ResponseEof(AfterServer(p, s)) && RequestEof(AfterServer(p, s))
  {
    hide ResponseEof, RequestEof, AfterServer;
    ServerGetsResponseEof(p, s);
    ServerGetsRequestEof(p, s);
  }

  lemma ServerGetsResponseEof(p: Params, s: Stream)
    requires s.toS != [] && Control(s)
    requires s.toS[0].Data? && s.e.srv.registered ==> s.e.srv.outstanding + |s.toS[0].payload| <= p.window
    ensures ResponseEof(AfterServer(p, s))
  {
    hide Wire, FlowControl.Cat, Opening, RequestEof;
    var n := AfterServer(p, s);
    assert forall i :: 0 <= i < |n.toS| ==> n.toS[i] == s.toS[i + 1];
  }

  lemma ServerGetsRequestEof(p: Params, s: Stream)
    requires s.toS != [] && Control(s)
    ensures RequestEof(AfterServer(p, s))
  {
    ServerGetsFrame(p, s.e, s.toS[0]);
    ServerGetsUp(p, s.e, s.toS[0]);
    hide Wire, FlowControl.Cat, Opening, Handshake, ResponseEof, NoLeak, ServerGets;
  }

  /** Only a grant reaches the request's flow, and it moves no bytes. */
  lemma ServerGetsUp(p: Params, e: Ends, m: Msg)
    ensures var n := ServerGets(p, e, m);
      n.up == e.up.(credit := n.up.credit, leak := n.up.leak) && (!m.Data? ==> n.down == e.down)
  {
    hide RemoveStream, Resolve, FlowControl.Raised;
  }

  lemma AtServerInv(p: Params, s: Stream)
    requires Inv(p, s) && s.toS != []
    ensures Inv(p, AfterServer(p, s))
  {
    hide Flows;
    ServerGetsFlows(p, s);
    ServerGetsHandshake(p, s);
    ServerGetsNoLeak(p, s);
    ServerGetsEof(p, s);
    ServerHeeds(p, s);
  }

  /** A Close or a Reset ends the stream, an answer settles the connect. */
  lemma ServerGetsSettles(p: Params, e: Ends, m: Msg)
    requires TornDown(e.srv)
    ensures var n := ServerGets(p, e, m);
      && TornDown(n.srv) && n.srv.resetSent == e.srv.resetSent
      && (m == Close || m == Reset ==> !n.srv.registered)
      && (m == ConnectOk || m == ConnectErr ==> !n.srv.pending)
  {
    hide FlowControl.Cat, FlowControl.Raised, Accept, Lose;
  }

  lemma ServerHeeds(p: Params, s: Stream)
    requires s.toS != [] && TornDown(s.e.srv) && Heeded(s) && Resets(s)
    ensures TornDown(AfterServer(p, s).e.srv) && Heeded(AfterServer(p, s)) && Resets(AfterServer(p, s))
  {
    hide ServerGets, TornDown;
    var n := AfterServer(p, s);
    ServerGetsFrame(p, s.e, s.toS[0]);
    ServerGetsSettles(p, s.e, s.toS[0]);
    assert forall m :: m in s.toS ==> m == s.toS[0] || m in n.toS;
  }

  // ----- Messages to the connector -----

  lemma ConnectorGetsFlows(p: Params, s: Stream, accept: bool)
    requires Flows(p, s) && s.toC != []
    requires s.e.con.reqOpen ==> s.e.up.lost == [] && s.e.con.rx != Drained
    requires s.toC[0].Connect? ==> s.e.con.rx == RxOff && s.e.con.tx == TxOff
    ensures Flows(p, AfterConnector(p, s, accept))
    ensures s.e.con.entry ==> AfterConnector(p, s, accept).e.down.leak == s.e.down.leak
  {
    hide Direction, FlowControl.Cat;
    var m, v, c := s.toC[0], s.e.srv, s.e.con;
    if m.Data? {
      DataArrives(p, v.tx, c.rx, s.e.up, s.toC, s.toS);
    } else {
      Skipped(p, v.tx, c.rx, s.e.up, s.toC, s.toS);
    }
    if m.WindowUpdate? {
      GrantArrives(p, c.tx, v.rx, s.e.down, s.toS, s.toC);
    } else {
      Skipped(p, c.tx, v.rx, s.e.down, s.toS, s.toC);
    }
  }

  lemma ConnectorGetsOpening(p: Params, s: Stream, accept: bool)
    requires s.toC != [] && Control(s)
    ensures Opening(AfterConnector(p, s, accept))
  {
    hide Wire, FlowControl.Cat, FlowControl.Raised, NoLeak, ResponseEof, RequestEof;
    assert s.toC[0] in s.toC;
    assert forall m :: m in s.toC[1..] ==> m in s.toC;
  }

  lemma ConnectorGetsHandshake(p: Params, s: Stream, accept: bool)
    requires s.toC != [] && Control(s)
    ensures Handshake(AfterConnector(p, s, accept))
  {
    hide Wire, FlowControl.Cat, FlowControl.Raised, NoLeak, ResponseEof, RequestEof;
    assert s.toC[0] in s.toC;
  }

  lemma ConnectorGetsNoLeak(p: Params, s: Stream, accept: bool)
    requires s.toC != [] && Control(s)
    requires s.e.con.entry ==> AfterConnector(p, s, accept).e.down.leak == s.e.down.leak
    requires s.toC[0].Data? && s.e.con.entry ==> s.e.con.reqOpen
    ensures NoLeak(AfterConnector(p, s, accept))
  {
    hide Wire, FlowControl.Cat, FlowControl.Raised, ResponseEof, RequestEof;
    assert s.toC[0] in s.toC;
  }

  lemma ConnectorGetsResponseEof(p: Params, s: Stream, accept: bool)
    requires s.toC != [] && Control(s)
    ensures ResponseEof(AfterConnector(p, s, accept))
  {
    hide Wire, FlowControl.Cat, FlowControl.Raised, RequestEof, NoLeak;
    assert s.toC[0] in s.toC;
  }

  lemma ConnectorGetsRequestEof(p: Params, s: Stream, accept: bool)
    requires Flows(p, s) && s.toC != [] && Control(s)
    ensures RequestEof(AfterConnector(p, s, accept))
  {
    hide FlowControl.Inv, FlowControl.Cat, FlowControl.Raised, ResponseEof;
    var n := AfterConnector(p, s, accept);
    assert s.toC[0] in s.toC;
    assert forall i :: 0 <= i < |n.toC| ==> n.toC[i] == s.toC[i + 1];
    if s.toC[0] == Close { NoDataNoWire(n.toC); }
    assert s.toC[0].Data? ==> Wire(s.toC) != [];
  }

  /** No Data follows the request EOF, so none finds the stream half-closed. */
  lemma NoLateData(p: Params, s: Stream)
    requires Inv(p, s) && s.toC != [] && s.toC[0].Data? && s.e.con.entry
    ensures s.e.con.reqOpen
  {
    hide FlowControl.Inv, TxOk, RxOk, Opening, NoLeak, ResponseEof;
    assert Sound(p, s.toC[0]);
    assert Wire(s.toC) == s.toC[0].payload + Wire(s.toC[1..]);
  }

  lemma AtConnectorInv(p: Params, s: Stream, accept: bool)
    requires Inv(p, s) && s.toC != []
    ensures Inv(p, AfterConnector(p, s, accept))
  {
    hide Flows;
    assert s.toC[0] in s.toC;
    ConnectorGetsFlows(p, s, accept);
    ConnectorGetsOpening(p, s, accept);
    ConnectorGetsHandshake(p, s, accept);
    if s.toC[0].Data? && s.e.con.entry { NoLateData(p, s); }
    ConnectorGetsNoLeak(p, s, accept);
    ConnectorGetsResponseEof(p, s, accept);
    ConnectorGetsRequestEof(p, s, accept);
    ConnectorHeeds(p, s, accept);
  }

  /** A Close ends the request and a Reset the stream; only a Connect opens one. */
  lemma ConnectorGetsSettles(p: Params, e: Ends, m: Msg, accept: bool)
    ensures var n := ConnectorGets(p, e, m, accept);
      && n.srv == e.srv && n.con.answered == e.con.answered
      && (m == Close && e.con.entry ==> !n.con.reqOpen) && (m == Reset ==> !n.con.entry && !n.con.reqOpen)
      && (m != Connect ==> n.con.task == e.con.task && n.con.tx == e.con.tx && n.con.rx == e.con.rx
                           && n.con.closed == e.con.closed
                           && (n.con.entry ==> e.con.entry) && (n.con.reqOpen ==> e.con.reqOpen))
      && (m == Connect ==> n.con.task != Absent && (n.con.tx == e.con.tx || n.con.tx == TxOff)
                           && (n.con.rx == e.con.rx || n.con.rx == RxOff) && (n.con.closed ==> e.con.closed))
  {
    hide FlowControl.Cat, FlowControl.Raised, Accept, Lose;
  }

  lemma ConnectorHeeds(p: Params, s: Stream, accept: bool)
    requires s.toC != [] && Opening(s) && Handshake(s) && Heeded(s) && Resets(s)
    ensures Heeded(AfterConnector(p, s, accept)) && Resets(AfterConnector(p, s, accept))
  {
    hide ConnectorGets;
    var n := AfterConnector(p, s, accept);
    ConnectorGetsSettles(p, s.e, s.toC[0], accept);
    assert s.toC[0] in s.toC;
    assert forall m :: m in s.toC ==> m == s.toC[0] || m in n.toC;
    if s.toC[0] == Connect { assert !s.e.srv.upClosed; }
  }

  // ----- Steps of the pumps -----

  lemma UploadFlows(p: Params, s: Stream, u: TxAct)
    requires Flows(p, s) && Enabled(p, s.e, Upload(u))
    ensures Flows(p, AfterAct(p, s, Upload(u)))
  {
    hide Direction, FlowControl.Cat, TxStep, TxCan;
    var v, c := s.e.srv, s.e.con;
    TxKeeps(p, v.tx, c.rx, s.e.up, s.toC, s.toS, v.creditClosed, u);
    var out := TxStep(p, v.tx, s.e.up, v.creditClosed, u).out;
    Unrelated(p, c.tx, v.rx, s.e.down, s.toS, s.toC, [], out);
    assert s.toS + [] == s.toS;
  }

  lemma UploadControl(p: Params, s: Stream, u: TxAct)
    requires Control(s) && Enabled(p, s.e, Upload(u)) && TxOk(s.e.srv.tx, s.e.up)
    ensures Control(AfterAct(p, s, Upload(u)))
  {
    hide Enabled, AfterAct, Opening, Handshake, NoLeak, ResponseEof, RequestEof;
    UploadHandshake(p, s, u);
    UploadEof(p, s, u);
  }

  lemma UploadHandshake(p: Params, s: Stream, u: TxAct)
    requires Control(s) && Enabled(p, s.e, Upload(u))
    ensures var n := AfterAct(p, s, Upload(u)); Opening(n) && Handshake(n) && NoLeak(n)
  {
    hide Wire, FlowControl.Cat, ResponseEof, RequestEof;
    var n := AfterAct(p, s, Upload(u));
    assert n.toS == s.toS;
    assert Opening(n) && Handshake(n);
  }

  lemma UploadEof(p: Params, s: Stream, u: TxAct)
    requires Control(s) && Enabled(p, s.e, Upload(u)) && TxOk(s.e.srv.tx, s.e.up)
    ensures var n := AfterAct(p, s, Upload(u)); ResponseEof(n) && RequestEof(n)
  {
    hide Enabled, AfterAct, Opening, Handshake, NoLeak, ResponseEof, RequestEof, TxOk;
    UploadResponseEof(p, s, u);
    UploadRequestEof(p, s, u);
  }

  lemma UploadResponseEof(p: Params, s: Stream, u: TxAct)
    requires Control(s) && Enabled(p, s.e, Upload(u))
    ensures ResponseEof(AfterAct(p, s, Upload(u)))
  {
    hide Wire, FlowControl.Cat, NoLeak, Opening, RequestEof;
    assert AfterAct(p, s, Upload(u)).toS == s.toS;
  }

  lemma UploadRequestEof(p: Params, s: Stream, u: TxAct)
    requires Control(s) && Enabled(p, s.e, Upload(u)) && TxOk(s.e.srv.tx, s.e.up)
    ensures RequestEof(AfterAct(p, s, Upload(u)))
  {
    hide Wire, FlowControl.Cat, NoLeak, Opening, ResponseEof;
    var n, out := AfterAct(p, s, Upload(u)), Local(p, s.e, Upload(u)).c;
    assert u.ReadChunk? || u.SendClose? ==> s.e.up.held == [];
    if out == [] {
      assert n.toC == s.toC;
    } else {
      assert !s.e.srv.upClosed && Close !in s.toC;
      Appended(s.toC, out);
    }
  }

  lemma DownloadFlows(p: Params, s: Stream, d: RxAct)
    requires p.Sane() && Flows(p, s) && Enabled(p, s.e, Download(d))
    ensures Flows(p, AfterAct(p, s, Download(d)))
  {
    hide Direction, FlowControl.Cat, RxStep, RxCan;
    var v, c := s.e.srv, s.e.con;
    RxKeeps(p, c.tx, v.rx, s.e.down, s.toS, s.toC, v.registered, true, d);
    var out := RxStep(p, v.rx, s.e.down, v.registered, true, d).out;
    Unrelated(p, v.tx, c.rx, s.e.up, s.toC, s.toS, out, []);
    assert s.toS + [] == s.toS;
  }

  lemma DownloadHandshake(p: Params, s: Stream, d: RxAct)
    requires Control(s) && Enabled(p, s.e, Download(d))
    ensures var n := AfterAct(p, s, Download(d)); Opening(n) && Handshake(n) && NoLeak(n)
  {
    hide FlowControl.Cat, Granted, Wire, ResponseEof, RequestEof;
    var n := AfterAct(p, s, Download(d));
    assert n.toS == s.toS;
    assert Connect in n.toC <==> Connect in s.toC;
    assert Opening(n);
  }

  lemma DownloadEof(p: Params, s: Stream, d: RxAct)
    requires Control(s) && Enabled(p, s.e, Download(d))
    ensures var n := AfterAct(p, s, Download(d)); ResponseEof(n) && RequestEof(n)
  {
    hide FlowControl.Cat, Granted, Opening, NoLeak;
    var n := AfterAct(p, s, Download(d));
    assert n.toS == s.toS;
    assert ResponseEof(n);
    assert Wire(n.toC) == Wire(s.toC) by { Appended(s.toC, Local(p, s.e, Download(d)).c); }
  }

  lemma DownloadControl(p: Params, s: Stream, d: RxAct)
    requires Control(s) && Enabled(p, s.e, Download(d))
    ensures Control(AfterAct(p, s, Download(d)))
  {
    hide Enabled, AfterAct, Opening, Handshake, NoLeak, ResponseEof, RequestEof;
    DownloadHandshake(p, s, d);
    DownloadEof(p, s, d);
  }

  lemma RespondFlows(p: Params, s: Stream, r: TxAct)
    requires Flows(p, s) && Enabled(p, s.e, Respond(r))
    ensures Flows(p, AfterAct(p, s, Respond(r)))
  {
    hide Direction, FlowControl.Cat, TxStep, TxCan;
    var v, c := s.e.srv, s.e.con;
    TxKeeps(p, c.tx, v.rx, s.e.down, s.toS, s.toC, false, r);
    var out := TxStep(p, c.tx, s.e.down, false, r).out;
    Unrelated(p, v.tx, c.rx, s.e.up, s.toC, s.toS, [], out);
    assert s.toC + [] == s.toC;
  }

  lemma RespondControl(p: Params, s: Stream, r: TxAct)
    requires Control(s) && Enabled(p, s.e, Respond(r)) && TxOk(s.e.con.tx, s.e.down)
    ensures Control(AfterAct(p, s, Respond(r)))
  {
    hide Enabled, AfterAct, Opening, Handshake, NoLeak, ResponseEof, RequestEof;
    RespondHandshake(p, s, r);
    RespondEof(p, s, r);
  }

  lemma RespondHandshake(p: Params, s: Stream, r: TxAct)
    requires Control(s) && Enabled(p, s.e, Respond(r))
    ensures var n := AfterAct(p, s, Respond(r)); Opening(n) && Handshake(n) && NoLeak(n)
  {
    hide Wire, FlowControl.Cat, ResponseEof, RequestEof;
    var n := AfterAct(p, s, Respond(r));
    assert n.toC == s.toC;
    assert Opening(n) && Handshake(n);
  }

  lemma RespondEof(p: Params, s: Stream, r: TxAct)
    requires Control(s) && Enabled(p, s.e, Respond(r)) && TxOk(s.e.con.tx, s.e.down)
    ensures var n := AfterAct(p, s, Respond(r)); ResponseEof(n) && RequestEof(n)
  {
    hide Wire, FlowControl.Cat, Opening, NoLeak;
    var n := AfterAct(p, s, Respond(r));
    assert n.toC == s.toC;
    assert r.ReadChunk? || r.SendClose? ==> s.e.down.held == [];
    assert RequestEof(n);
  }

  lemma ForwardFlows(p: Params, s: Stream, w: RxAct)
    requires p.Sane() && Flows(p, s) && Enabled(p, s.e, Forward(w))
    ensures Flows(p, AfterAct(p, s, Forward(w)))
  {
    hide Direction, FlowControl.Cat, RxStep, RxCan;
    var v, c := s.e.srv, s.e.con;
    RxKeeps(p, v.tx, c.rx, s.e.up, s.toC, s.toS, c.reqOpen, false, w);
    var out := RxStep(p, c.rx, s.e.up, c.reqOpen, false, w).out;
    Unrelated(p, c.tx, v.rx, s.e.down, s.toS, s.toC, out, []);
    assert s.toC + [] == s.toC;
  }

  lemma ForwardControl(p: Params, s: Stream, w: RxAct)
    requires Control(s) && Enabled(p, s.e, Forward(w))
    ensures Control(AfterAct(p, s, Forward(w)))
  {
    hide Enabled, AfterAct, Opening, Handshake, NoLeak, ResponseEof, RequestEof;
    ForwardHandshake(p, s, w);
    ForwardEof(p, s, w);
  }

  lemma ForwardHandshake(p: Params, s: Stream, w: RxAct)
    requires Control(s) && Enabled(p, s.e, Forward(w))
    ensures var n := AfterAct(p, s, Forward(w)); Opening(n) && Handshake(n) && NoLeak(n)
  {
    hide Wire, FlowControl.Cat, ResponseEof, RequestEof;
    var n := AfterAct(p, s, Forward(w));
    assert n.toC == s.toC;
    assert Opening(n) && Handshake(n);
  }

  lemma ForwardEof(p: Params, s: Stream, w: RxAct)
    requires Control(s) && Enabled(p, s.e, Forward(w))
    ensures var n := AfterAct(p, s, Forward(w)); ResponseEof(n) && RequestEof(n)
  {
    hide Wire, FlowControl.Cat, Opening, NoLeak;
    var n := AfterAct(p, s, Forward(w));
    assert n.toC == s.toC;
    assert RequestEof(n);
  }

  // ----- Steps outside the pumps -----

  lemma BridgeFlows(p: Params, s: Stream, b: BridgeAct)
    requires Flows(p, s) && Handshake(s) && Enabled(p, s.e, Bridge(b))
    ensures Flows(p, AfterAct(p, s, Bridge(b)))
  {
    hide FlowControl.Inv, FlowControl.Cat, Wire, Granted, Carries;
    var v, c := s.e.srv, s.e.con;
    var (v', out) := BridgeStep(v, b);
    assert Direction(p, c.tx, v'.rx, s.e.down, s.toS, s.toC);
    assert Direction(p, v'.tx, c.rx, s.e.up, s.toC, s.toS);
    Unrelated(p, c.tx, v'.rx, s.e.down, s.toS, s.toC, [], out);
    Unrelated(p, v'.tx, c.rx, s.e.up, s.toC, s.toS, out, []);
    assert s.toS + [] == s.toS;
  }

  lemma BridgeOpening(p: Params, s: Stream, b: BridgeAct)
    requires Control(s) && Enabled(p, s.e, Bridge(b))
    ensures Opening(AfterAct(p, s, Bridge(b)))
  {
    hide ResponseEof, RequestEof;
    var n := AfterAct(p, s, Bridge(b));
    assert n.toS == s.toS;
    if b.EmitConnect? {
      assert n.toC == [Connect];
    } else if b == EmitReset(true) || b == EmitViolationReset {
      assert n.toC == s.toC + [Reset];
      assert s.toC != [] ==> n.toC[1..] == s.toC[1..] + [Reset];
    } else {
      assert n.toC == s.toC;
    }
  }

  lemma BridgeNoLeak(p: Params, s: Stream, b: BridgeAct)
    requires Control(s) && Enabled(p, s.e, Bridge(b))
    ensures NoLeak(AfterAct(p, s, Bridge(b)))
  {
    hide ResponseEof, RequestEof;
  }

  lemma BridgeHandshake(p: Params, s: Stream, b: BridgeAct)
    requires Control(s) && Enabled(p, s.e, Bridge(b))
    ensures Handshake(AfterAct(p, s, Bridge(b)))
  {
    hide ResponseEof, RequestEof, NoLeak, Opening;
    assert AfterAct(p, s, Bridge(b)).toS == s.toS;
  }

  lemma BridgeEof(p: Params, s: Stream, b: BridgeAct)
    requires Control(s) && Enabled(p, s.e, Bridge(b))
    ensures ResponseEof(AfterAct(p, s, Bridge(b))) && RequestEof(AfterAct(p, s, Bridge(b)))
  {
    hide Enabled, AfterAct, Opening, Handshake, NoLeak, ResponseEof, RequestEof;
    BridgeResponseEof(p, s, b);
    BridgeRequestEof(p, s, b);
  }

  lemma BridgeResponseEof(p: Params, s: Stream, b: BridgeAct)
    requires Control(s) && Enabled(p, s.e, Bridge(b))
    ensures ResponseEof(AfterAct(p, s, Bridge(b)))
  {
    hide Wire, Opening, NoLeak, RequestEof;
    assert AfterAct(p, s, Bridge(b)).toS == s.toS;
  }

  lemma BridgeRequestEof(p: Params, s: Stream, b: BridgeAct)
    requires Control(s) && Enabled(p, s.e, Bridge(b))
    ensures RequestEof(AfterAct(p, s, Bridge(b)))
  {
    hide AfterAct, Opening, Handshake, NoLeak, ResponseEof, RequestEof;
    if Local(p, s.e, Bridge(b)).c == [] { BridgeSilent(p, s, b); } else { BridgeSpeaks(p, s, b); }
  }

  lemma BridgeSilent(p: Params, s: Stream, b: BridgeAct)
    requires Control(s) && Enabled(p, s.e, Bridge(b)) && Local(p, s.e, Bridge(b)).c == []
    ensures RequestEof(AfterAct(p, s, Bridge(b)))
  {
    hide Wire, Opening, NoLeak, ResponseEof;
    assert AfterAct(p, s, Bridge(b)).toC == s.toC;
  }

  lemma BridgeSpeaks(p: Params, s: Stream, b: BridgeAct)
    requires Control(s) && Enabled(p, s.e, Bridge(b)) && Local(p, s.e, Bridge(b)).c != []
    ensures RequestEof(AfterAct(p, s, Bridge(b)))
  {
    hide Wire, Opening, NoLeak, ResponseEof;
    var out := Local(p, s.e, Bridge(b)).c;
    Appended(s.toC, out);
    assert AfterAct(p, s, Bridge(b)).toC == s.toC + [out[0]] && !out[0].Data? && out[0] != Close;
  }

  lemma DialFlows(p: Params, s: Stream, d: DialAct)
    requires Flows(p, s) && Handshake(s) && Enabled(p, s.e, Dial(d)) && !d.DialData?
    ensures Flows(p, AfterAct(p, s, Dial(d)))
  {
    hide FlowControl.Inv, FlowControl.Cat, Wire, Granted, Carries;
    var v, c := s.e.srv, s.e.con;
    var (c', out) := DialStep(c, s.e.up.queue != [], d);
    assert Direction(p, c'.tx, v.rx, s.e.down, s.toS, s.toC);
    assert Direction(p, v.tx, c'.rx, s.e.up, s.toC, s.toS);
    Unrelated(p, c'.tx, v.rx, s.e.down, s.toS, s.toC, out, []);
    Unrelated(p, v.tx, c'.rx, s.e.up, s.toC, s.toS, [], out);
    assert s.toC + [] == s.toC;
  }

  lemma DialHandshake(p: Params, s: Stream, d: DialAct)
    requires Control(s) && Enabled(p, s.e, Dial(d)) && !d.DialData?
    ensures Handshake(AfterAct(p, s, Dial(d)))
  {
    hide Wire, FlowControl.Cat, ResponseEof, RequestEof, NoLeak, Opening;
    var n := AfterAct(p, s, Dial(d));
    assert n.toC == s.toC;
    assert ConnectOk in n.toS <==> ConnectOk in s.toS || d == EmitOk(true);
  }

  lemma DialNoLeak(p: Params, s: Stream, d: DialAct)
    requires Control(s) && Enabled(p, s.e, Dial(d)) && !d.DialData?
    ensures NoLeak(AfterAct(p, s, Dial(d)))
  {
    hide Wire, FlowControl.Cat, ResponseEof, RequestEof;
  }

  lemma DialOpening(p: Params, s: Stream, d: DialAct)
    requires Control(s) && Enabled(p, s.e, Dial(d)) && !d.DialData?
    ensures Opening(AfterAct(p, s, Dial(d)))
  {
    hide Wire, FlowControl.Cat, ResponseEof, RequestEof, NoLeak;
    assert AfterAct(p, s, Dial(d)).toC == s.toC;
  }

  lemma DialEof(p: Params, s: Stream, d: DialAct)
    requires Control(s) && Enabled(p, s.e, Dial(d)) && !d.DialData?
    ensures var n := AfterAct(p, s, Dial(d)); ResponseEof(n) && RequestEof(n)
  {
    hide Wire, FlowControl.Cat, Opening, NoLeak;
    var n := AfterAct(p, s, Dial(d));
    assert n.toC == s.toC;
    assert ResponseEof(n);
  }

  lemma DialControl(p: Params, s: Stream, d: DialAct)
    requires Control(s) && Enabled(p, s.e, Dial(d)) && !d.DialData?
    ensures Control(AfterAct(p, s, Dial(d)))
  {
    hide Enabled, AfterAct, Opening, Handshake, NoLeak, ResponseEof, RequestEof;
    DialOpening(p, s, d);
    DialHandshake(p, s, d);
    DialNoLeak(p, s, d);
    DialEof(p, s, d);
  }

  /** The branch that would discard upload bytes while the backend is still being dialled
      is never taken. */
  lemma NoDataWhileDialing(p: Params, s: Stream)
    requires Inv(p, s)
    ensures !Enabled(p, s.e, Dial(DialData))
  {
    if s.e.con.task == Dialing {
      NothingRead(p, s.e.up, Wire(s.toC), Granted(s.toS));
    }
  }

  lemma BridgeHeeded(p: Params, s: Stream, b: BridgeAct)
    requires Handshake(s) && !s.e.srv.spawnedReset && TornDown(s.e.srv) && Heeded(s) && Resets(s)
    requires Enabled(p, s.e, Bridge(b))
    ensures var n := AfterAct(p, s, Bridge(b)); TornDown(n.e.srv) && Heeded(n) && Resets(n)
  {
    hide FlowControl.Cat;
    assert AfterAct(p, s, Bridge(b)).toS == s.toS;
  }

  lemma UploadHeeded(p: Params, s: Stream, u: TxAct)
    requires Handshake(s) && !s.e.srv.spawnedReset && TornDown(s.e.srv) && Heeded(s) && Resets(s)
    requires Enabled(p, s.e, Upload(u))
    ensures var n := AfterAct(p, s, Upload(u)); TornDown(n.e.srv) && Heeded(n) && Resets(n)
  {
    hide FlowControl.Cat;
    assert AfterAct(p, s, Upload(u)).toS == s.toS;
  }

  lemma DownloadHeeded(p: Params, s: Stream, d: RxAct)
    requires Handshake(s) && !s.e.srv.spawnedReset && TornDown(s.e.srv) && Heeded(s) && Resets(s)
    requires Enabled(p, s.e, Download(d))
    ensures var n := AfterAct(p, s, Download(d)); TornDown(n.e.srv) && Heeded(n) && Resets(n)
  {
    hide FlowControl.Cat;
    assert AfterAct(p, s, Download(d)).toS == s.toS;
  }

  lemma DialHeeded(p: Params, s: Stream, d: DialAct)
    requires Handshake(s) && TornDown(s.e.srv) && Heeded(s) && Resets(s) && Enabled(p, s.e, Dial(d))
    ensures var n := AfterAct(p, s, Dial(d)); TornDown(n.e.srv) && Heeded(n) && Resets(n)
  {
    hide FlowControl.Cat;
    assert AfterAct(p, s, Dial(d)).toC == s.toC;
  }

  lemma RespondHeeded(p: Params, s: Stream, r: TxAct)
    requires Handshake(s) && TornDown(s.e.srv) && Heeded(s) && Resets(s) && Enabled(p, s.e, Respond(r))
    ensures var n := AfterAct(p, s, Respond(r)); TornDown(n.e.srv) && Heeded(n) && Resets(n)
  {
    hide FlowControl.Cat;
    assert AfterAct(p, s, Respond(r)).toC == s.toC;
  }

  lemma ForwardHeeded(p: Params, s: Stream, w: RxAct)
    requires Handshake(s) && TornDown(s.e.srv) && Heeded(s) && Resets(s) && Enabled(p, s.e, Forward(w))
    ensures var n := AfterAct(p, s, Forward(w)); TornDown(n.e.srv) && Heeded(n) && Resets(n)
  {
    hide FlowControl.Cat;
    assert AfterAct(p, s, Forward(w)).toC == s.toC;
  }

  lemma ActHeeded(p: Params, s: Stream, a: Act)
    requires Handshake(s) && !s.e.srv.spawnedReset && TornDown(s.e.srv) && Heeded(s) && Resets(s) && Enabled(p, s.e, a)
    ensures var n := AfterAct(p, s, a); TornDown(n.e.srv) && Heeded(n) && Resets(n)
  {
    hide Handshake, TornDown, Heeded, Resets, Enabled, AfterAct;
    match a
    case Bridge(b) => BridgeHeeded(p, s, b);
    case Dial(d) => DialHeeded(p, s, d);
    case Upload(u) => UploadHeeded(p, s, u);
    case Download(d) => DownloadHeeded(p, s, d);
    case Respond(r) => RespondHeeded(p, s, r);
    case Forward(w) => ForwardHeeded(p, s, w);
  }

  lemma NeverSpawned(s: Stream)
    requires NoLeak(s)
    ensures !s.e.srv.spawnedReset
  {}

  lemma ActInv(p: Params, s: Stream, a: Act)
    requires p.Sane() && Inv(p, s) && Enabled(p, s.e, a)
    ensures Inv(p, AfterAct(p, s, a))
  {
    hide FlowControl.Inv, Enabled, AfterAct, Opening, Handshake, NoLeak, ResponseEof, RequestEof;
    NoDataWhileDialing(p, s);
    NeverSpawned(s);
    ActHeeded(p, s, a);
    match a
    case Bridge(b) =>
      BridgeFlows(p, s, b);
      BridgeOpening(p, s, b);
      BridgeNoLeak(p, s, b);
      BridgeHandshake(p, s, b);
      BridgeEof(p, s, b);
    case Dial(d) => DialFlows(p, s, d); DialControl(p, s, d);
    case Upload(u) => UploadFlows(p, s, u); UploadControl(p, s, u);
    case Download(d) => DownloadFlows(p, s, d); DownloadControl(p, s, d);
    case Respond(r) => RespondFlows(p, s, r); RespondControl(p, s, r);
    case Forward(w) => ForwardFlows(p, s, w); ForwardControl(p, s, w);
  }

  /** Every step of either end, every message, every failure keeps the invariant. */
  lemma StepInv(p: Params, s: Stream, st: Step)
    requires p.Sane() && Inv(p, s) && CanStep(p, s, st)
    ensures Inv(p, Next(p, s, st))
  {
    hide Inv;
    match st
    case AtServer => AtServerInv(p, s);
    case AtConnector(accept) => AtConnectorInv(p, s, accept);
    case Do(a) => ActInv(p, s, a);
  }

  /** Ended by the connector's Close and drained: every byte of the response was written. */
  lemma ResponseComplete(p: Params, s: Stream)
    requires Inv(p, s) && s.e.srv.removal == ByClose && s.e.srv.rx == Drained
    ensures s.e.down.sink == s.e.down.src && s.e.con.task == Finished
  {
    hide FlowControl.BytesKept, FlowControl.CreditKept, Opening, Handshake, RequestEof;
    SinkIsComplete(p, s.e.down, Wire(s.toS), Granted(s.toC));
  }

  /** Request EOF arrived and the queue was drained: every byte of the request was written. */
  lemma RequestComplete(p: Params, s: Stream)
    requires Inv(p, s) && s.e.con.fin && s.e.con.rx == Drained
    ensures s.e.up.sink == s.e.up.src
  {
    hide FlowControl.BytesKept, FlowControl.CreditKept, Opening, Handshake, ResponseEof;
    SinkIsComplete(p, s.e.up, Wire(s.toC), Granted(s.toS));
  }
}
