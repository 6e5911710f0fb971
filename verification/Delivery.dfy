/** What every run of a session guarantees to the tunnels it carries. */
module Delivery {
  import opened FlowControl
  import opened Tunnel
  import opened TunnelInvariant
  import opened Mux

  ghost predicate Reaches(p: Params, cap: nat, m: Session, n: Session) {
    exists st :: Can(p, m, st) && n == Mux.Step(p, cap, m, st)
  }

  /** A run: from the empty session, one step at a time. */
  ghost predicate IsRun(p: Params, cap: nat, run: seq<Session>) {
    && run != [] && run[0] == Mux.Init()
    && forall i :: 0 < i < |run| ==> Reaches(p, cap, run[i - 1], run[i])
  }

  lemma InitInv(p: Params, cap: nat)
    ensures Mux.Inv(p, cap, Mux.Init())
  {
    assert Entries(Mux.Init().ends) == {};
  }

  /** Every state of every run satisfies the session invariant. */
  lemma {:induction false} RunInv(p: Params, cap: nat, run: seq<Session>, i: nat)
    requires p.Sane() && IsRun(p, cap, run) && i < |run|
    ensures Mux.Inv(p, cap, run[i])
  {
    hide Mux.Inv, Mux.Step, Can;
    if i == 0 {
      InitInv(p, cap);
    } else {
      RunInv(p, cap, run, i - 1);
      assert Reaches(p, cap, run[i - 1], run[i]);
      var st :| Can(p, run[i - 1], st) && run[i] == Mux.Step(p, cap, run[i - 1], st);
      Mux.StepInv(p, cap, run[i - 1], st);
    }
  }

  // ----- No byte lost or reordered -----

  /** At every moment of every run, in both directions of every tunnel, the bytes written
      out are an in-order prefix of the bytes read in. */
  lemma BytesInOrder(p: Params, cap: nat, run: seq<Session>, i: nat, id: nat)
    requires p.Sane() && IsRun(p, cap, run) && i < |run| && id in run[i].ends
    ensures run[i].ends[id].down.sink <= run[i].ends[id].down.src
    ensures run[i].ends[id].up.sink <= run[i].ends[id].up.src
  {
    hide FlowControl.Inv, IsRun, Control;
    RunInv(p, cap, run, i);
    var s := View(run[i], id);
    SinkIsPrefix(p, s.e.down, Wire(s.toS), Granted(s.toC));
    SinkIsPrefix(p, s.e.up, Wire(s.toC), Granted(s.toS));
  }

  /** A tunnel whose stream was ended by the connector's Close, and whose download ran to
      the end of its queue, has given the client every byte read from the backend. */
  lemma ResponseDelivered(p: Params, cap: nat, run: seq<Session>, i: nat, id: nat)
    requires p.Sane() && IsRun(p, cap, run) && i < |run| && id in run[i].ends
    requires run[i].ends[id].srv.removal == ByClose && run[i].ends[id].srv.rx == Drained
    ensures run[i].ends[id].down.sink == run[i].ends[id].down.src
    ensures run[i].ends[id].con.task == Finished
  {
    hide IsRun, TunnelInvariant.Inv;
    RunInv(p, cap, run, i);
    ResponseComplete(p, View(run[i], id));
  }

  /** A request whose EOF reached the connector's open stream, and whose upload pump ran to
      the end of its queue, has given the backend every byte read from the client. */
  lemma RequestDelivered(p: Params, cap: nat, run: seq<Session>, i: nat, id: nat)
    requires p.Sane() && IsRun(p, cap, run) && i < |run| && id in run[i].ends
    requires run[i].ends[id].con.fin && run[i].ends[id].con.rx == Drained
    ensures run[i].ends[id].up.sink == run[i].ends[id].up.src
  {
    hide IsRun, TunnelInvariant.Inv;
    RunInv(p, cap, run, i);
    RequestComplete(p, View(run[i], id));
  }

  /** The connector's branch that drops upload bytes arriving before its backend is up is
      never taken: while it dials, its queue is empty and no Data is on the way. */
  lemma NoEarlyUpload(p: Params, cap: nat, run: seq<Session>, i: nat, id: nat)
    requires p.Sane() && IsRun(p, cap, run) && i < |run| && id in run[i].ends
    requires run[i].ends[id].con.task == Dialing
    ensures run[i].ends[id].up.queue == [] && run[i].ends[id].up.src == [] && Wire(View(run[i], id).toC) == []
  {
    hide IsRun, FlowControl.CreditKept, NoLeak, ResponseEof, RequestEof;
    RunInv(p, cap, run, i);
    var s := View(run[i], id);
    assert TunnelInvariant.Inv(p, s);
    NothingRead(p, s.e.up, Wire(s.toC), Granted(s.toS));
  }

  // ----- Credit -----

  /** The whole window: credit, acquired bytes, Data in transit, received and undrained bytes,
      the drained counter, and grants pending or in transit. */
  function Accounted(f: Flow, data: seq<Msg>, grants: seq<Msg>): nat {
    f.credit + Paid(f) + |Wire(data)| + |Cat(f.queue)| + f.curLen + f.drained + f.owed + Granted(grants)
  }

  /** While both ends know the stream, or Connect is still on its way, each direction's window is
      accounted for to the byte; a half-closed stream is no exception. */
  lemma CreditConserved(p: Params, cap: nat, run: seq<Session>, i: nat, id: nat)
    requires p.Sane() && IsRun(p, cap, run) && i < |run| && id in run[i].ends
    requires run[i].ends[id].srv.registered && (run[i].ends[id].con.entry || run[i].ends[id].con.task == Absent)
    ensures var s := View(run[i], id);
      p.window == Accounted(s.e.down, s.toS, s.toC) == Accounted(s.e.up, s.toC, s.toS)
  {
    hide IsRun, FlowControl.BytesKept, Opening, Handshake, ResponseEof, RequestEof, Wire, Granted, Cat;
    RunInv(p, cap, run, i);
    var s := View(run[i], id);
    assert TunnelInvariant.Inv(p, s);
  }

  /** An honest peer is never reset for flow control: the server's counter stays within the
      window and never underflows, its Data handler, taken as one step, finds neither the window
      exceeded nor a registered stream's queue dead, and neither queue outgrows a window. */
  lemma WindowNeverExceeded(p: Params, cap: nat, run: seq<Session>, i: nat, id: nat)
    requires p.Sane() && IsRun(p, cap, run) && i < |run| && id in run[i].ends
    ensures var e := run[i].ends[id];
      && 0 <= e.srv.outstanding <= p.window
      && e.srv.removal != ByViolation && e.srv.removal != ByDeadQueue && !e.srv.spawnedReset
      && |Cat(e.down.queue)| + e.down.curLen <= p.window
      && |Cat(e.up.queue)| + e.up.curLen <= p.window
      && e.down.credit <= p.window && e.up.credit <= p.window
  {
    hide IsRun, FlowControl.Inv, Opening, Handshake, ResponseEof, RequestEof, Wire, Granted, Cat;
    RunInv(p, cap, run, i);
    var s := View(run[i], id);
    assert TunnelInvariant.Inv(p, s);
    WithinWindow(p, s.e.down, Wire(s.toS), Granted(s.toC));
    WithinWindow(p, s.e.up, Wire(s.toC), Granted(s.toS));
  }

  /** A grant is added to the sender's credit in full: the ceiling never cuts one. */
  lemma GrantsAreExact(p: Params, cap: nat, run: seq<Session>, i: nat, id: nat)
    requires p.Sane() && IsRun(p, cap, run) && i < |run| && id in run[i].ends
    ensures var s := View(run[i], id);
      && (s.toS != [] && s.toS[0].WindowUpdate? && s.e.srv.registered ==>
            AfterServer(p, s).e.up.credit == s.e.up.credit + s.toS[0].bytes)
      && (s.toC != [] && s.toC[0].WindowUpdate? && s.e.con.entry ==>
            AfterConnector(p, s, true).e.down.credit == s.e.down.credit + s.toC[0].bytes)
  {
    hide IsRun, Control, Direction;
    RunInv(p, cap, run, i);
    var s := View(run[i], id);
    assert TunnelInvariant.Inv(p, s);
    if s.toS != [] && s.toS[0].WindowUpdate? {
      GrantArrives(p, s.e.srv.tx, s.e.con.rx, s.e.up, s.toC, s.toS);
    }
    if s.toC != [] && s.toC[0].WindowUpdate? {
      GrantArrives(p, s.e.con.tx, s.e.srv.rx, s.e.down, s.toS, s.toC);
    }
  }

  // ----- Words are heeded -----

  /** An end of bytes that was sent is on the link or has taken effect: the response's has taken
      the stream out of the server's map, the request's has closed the connector's queue. */
  lemma EofTakesEffect(p: Params, cap: nat, run: seq<Session>, i: nat, id: nat)
    requires p.Sane() && IsRun(p, cap, run) && i < |run| && id in run[i].ends
    ensures var s := View(run[i], id);
      && (s.e.con.closed ==> Close in s.toS || !s.e.srv.registered)
      && (s.e.srv.upClosed ==> Close in s.toC || !s.e.con.reqOpen)
  {
    hide IsRun, Flows, Control, Only;
    RunInv(p, cap, run, i);
    assert TunnelInvariant.Inv(p, View(run[i], id));
  }

  /** A ConnectOk or ConnectErr that was sent is on the link or has decided the connect, and a
      connect is decided exactly when its bridge has an answer. */
  lemma AnswerTakesEffect(p: Params, cap: nat, run: seq<Session>, i: nat, id: nat)
    requires p.Sane() && IsRun(p, cap, run) && i < |run| && id in run[i].ends
    ensures var s := View(run[i], id);
      && (s.e.con.answered ==> ConnectOk in s.toS || ConnectErr in s.toS || !s.e.srv.pending)
      && (s.e.srv.pending <==> s.e.srv.reply == NoReply)
  {
    hide IsRun, Flows, Control, Only;
    RunInv(p, cap, run, i);
    assert TunnelInvariant.Inv(p, View(run[i], id));
  }

  /** A Reset that was sent is on the link or the connector has dropped the stream for good. */
  lemma ResetTakesEffect(p: Params, cap: nat, run: seq<Session>, i: nat, id: nat)
    requires p.Sane() && IsRun(p, cap, run) && i < |run| && id in run[i].ends && run[i].ends[id].srv.resetSent
    ensures var s := View(run[i], id); Reset in s.toC || (!s.e.con.entry && !s.e.con.reqOpen && s.e.con.task != Absent)
  {
    hide IsRun, Flows, Opening, NoLeak, ResponseEof, RequestEof, Only;
    RunInv(p, cap, run, i);
    assert TunnelInvariant.Inv(p, View(run[i], id));
  }

  /** A stream out of the server's map has its credit closed, so its upload cannot stay parked,
      and no connect pending unless a shutdown swept it. */
  lemma RemovedIsTornDown(p: Params, cap: nat, run: seq<Session>, i: nat, id: nat)
    requires p.Sane() && IsRun(p, cap, run) && i < |run| && id in run[i].ends && !run[i].ends[id].srv.registered
    ensures var v := run[i].ends[id].srv;
      && v.creditClosed && (v.pending ==> v.removal == ByShutdown)
      && (v.task == Splicing && v.tx == Waiting ==>
            && Enabled(p, run[i].ends[id], Upload(Refusal))
            && Local(p, run[i].ends[id], Upload(Refusal)).e.srv.tx == TxStopped)
  {
    hide IsRun, Flows, Control, Only;
    RunInv(p, cap, run, i);
    assert TunnelInvariant.Inv(p, View(run[i], id));
  }

  // ----- Histories -----

  /** What has happened stays: bytes read and written are only appended to, a connect's
      outcome and a removal's cause are decided once, and a task that is over stays over. */
  predicate Since(e: Ends, n: Ends) {
    && e.down.src <= n.down.src && e.down.sink <= n.down.sink
    && e.up.src <= n.up.src && e.up.sink <= n.up.sink
    && (e.srv.reply != NoReply ==> n.srv.reply == e.srv.reply)
    && (e.srv.removal != NotRemoved ==> n.srv.removal == e.srv.removal)
    && (e.srv.task == Over ==> n.srv.task == Over)
    && (e.con.task == Finished ==> n.con.task == Finished)
    && (e.con.closed ==> n.con.closed && n.down.src == e.down.src)
  }

  lemma ServerGetsSince(p: Params, s: Stream)
    requires s.toS != [] && Handshake(s)
    ensures Since(s.e, AfterServer(p, s).e)
  {
    hide Cat, FlowControl.Raised;
  }

  lemma ConnectorGetsSince(p: Params, s: Stream, accept: bool)
    requires s.toC != [] && Opening(s) && Handshake(s)
    ensures Since(s.e, AfterConnector(p, s, accept).e)
  {
    hide Cat, FlowControl.Raised;
    assert s.toC[0] in s.toC;
  }

  lemma PumpsAppend(p: Params, tx: TxPc, rx: RxPc, f: Flow, closed: bool, aborts: bool, u: TxAct, d: RxAct)
    ensures TxCan(p, tx, f, closed, u) ==>
      var g := TxStep(p, tx, f, closed, u).f; f.src <= g.src && g.sink == f.sink
    ensures RxCan(rx, f, !closed, d) ==>
      var g := RxStep(p, rx, f, !closed, aborts, d).f; f.sink <= g.sink && g.src == f.src
  {
    hide Cat;
  }

  lemma ServerActSince(p: Params, s: Stream, a: Act)
    requires Handshake(s) && (s.e.con.closed ==> s.e.con.task == Finished) && Enabled(p, s.e, a)
    requires a.Upload? || a.Download? || a.Bridge?
    ensures Since(s.e, AfterAct(p, s, a).e)
  {
    hide Cat, TxStep, RxStep, TxCan, RxCan;
    var v := s.e.srv;
    match a
    case Upload(u) => PumpsAppend(p, v.tx, v.rx, s.e.up, v.creditClosed, true, u, TakeChunk);
    case Download(d) => PumpsAppend(p, v.tx, v.rx, s.e.down, !v.registered, true, ReadEof, d);
    case Bridge(_) =>
  }

  lemma ConnectorActSince(p: Params, s: Stream, a: Act)
    requires Handshake(s) && (s.e.con.closed ==> s.e.con.task == Finished) && Enabled(p, s.e, a)
    requires a.Respond? || a.Forward? || a.Dial?
    ensures Since(s.e, AfterAct(p, s, a).e)
  {
    hide Cat, TxStep, RxStep, TxCan, RxCan;
    var c := s.e.con;
    match a
    case Respond(r) => PumpsAppend(p, c.tx, c.rx, s.e.down, false, true, r, TakeChunk);
    case Forward(w) => PumpsAppend(p, c.tx, c.rx, s.e.up, !c.reqOpen, false, ReadEof, w);
    case Dial(_) =>
  }

  lemma TunnelSince(p: Params, s: Stream, st: Tunnel.Step)
    requires TunnelInvariant.Inv(p, s) && CanStep(p, s, st)
    ensures Since(s.e, Tunnel.Next(p, s, st).e)
  {
    hide Flows, Opening, Handshake, NoLeak, RequestEof, AfterServer, AfterConnector, AfterAct, Enabled, Since;
    match st
    case AtServer => ServerGetsSince(p, s);
    case AtConnector(accept) => ConnectorGetsSince(p, s, accept);
    case Do(a) =>
      if a.Upload? || a.Download? || a.Bridge? { ServerActSince(p, s, a); } else { ConnectorActSince(p, s, a); }
  }

  lemma StepSince(p: Params, cap: nat, m: Session, st: SessionStep, id: nat)
    requires Mux.Inv(p, cap, m) && Can(p, m, st) && id in m.ends
    ensures id in Mux.Step(p, cap, m, st).ends && Since(m.ends[id], Mux.Step(p, cap, m, st).ends[id])
  {
    hide TunnelInvariant.Inv, CanStep, Tunnel.Next, Since, Local, ServerGets, ConnectorGets, Enabled;
    var s := View(m, id);
    OpeningOf(p, s);
    SessionRefinesTunnel(p, cap, m, st, id);
    match StepOf(cap, m, st, id)
    case Some(st') => TunnelSince(p, s, st');
    case None => SinceRefl(m.ends[id]);
  }

  lemma SinceRefl(a: Ends)
    ensures Since(a, a)
  {}

  lemma SinceTrans(a: Ends, b: Ends, c: Ends)
    requires Since(a, b) && Since(b, c)
    ensures Since(a, c)
  {}

  /** Over every run, the past of a tunnel is never rewritten. */
  lemma {:induction false} HistoriesGrow(p: Params, cap: nat, run: seq<Session>, i: nat, j: nat, id: nat)
    requires p.Sane() && IsRun(p, cap, run) && i <= j < |run| && id in run[i].ends
    ensures id in run[j].ends && Since(run[i].ends[id], run[j].ends[id])
    decreases j
  {
    hide Mux.Inv, Can, Mux.Step, Since;
    if i == j {
      SinceRefl(run[i].ends[id]);
    } else {
      HistoriesGrow(p, cap, run, i, j - 1, id);
      RunInv(p, cap, run, j - 1);
      assert Reaches(p, cap, run[j - 1], run[j]);
      var st :| Can(p, run[j - 1], st) && run[j] == Mux.Step(p, cap, run[j - 1], st);
      StepSince(p, cap, run[j - 1], st, id);
      SinceTrans(run[i].ends[id], run[j - 1].ends[id], run[j].ends[id]);
    }
  }
}
