/** A live tunnel can always be brought to its end: from any reachable state in which a side is
    reading and its peer is at work, if the side heard end of file now, a schedule of enabled
    steps writes out everything that was ever read. */
module Completion {
  import opened FlowControl
  import opened Tunnel
  import opened TunnelInvariant
  import opened Mux
  import opened Progress

  /** `steps` lead from `m` to `n`. */
  ghost predicate Leads(p: Params, cap: nat, m: Session, steps: seq<SessionStep>, n: Session)
    decreases steps
  {
    if steps == [] then n == m
    else Can(p, m, steps[0]) && Leads(p, cap, Mux.Step(p, cap, m, steps[0]), steps[1..], n)
  }

  lemma Then(p: Params, cap: nat, m: Session, st: SessionStep, rest: seq<SessionStep>, n: Session)
    requires Can(p, m, st) && Leads(p, cap, Mux.Step(p, cap, m, st), rest, n)
    ensures Leads(p, cap, m, [st] + rest, n)
  {
    assert ([st] + rest)[1..] == rest;
  }

  lemma {:induction false} Chained(
    p: Params, cap: nat, m: Session, a: seq<SessionStep>, k: Session, b: seq<SessionStep>, n: Session)
    requires Leads(p, cap, m, a, k) && Leads(p, cap, k, b, n)
    ensures Leads(p, cap, m, a + b, n)
    decreases a
  {
    if a == [] {
      assert a + b == b;
    } else {
      Chained(p, cap, Mux.Step(p, cap, m, a[0]), a[1..], k, b, n);
      assert (a + b)[0] == a[0] && (a + b)[1..] == a[1..] + b;
    }
  }

  lemma {:induction false} Played(p: Params, cap: nat, m: Session, acts: seq<Act>, id: nat, n: Session)
    returns (steps: seq<SessionStep>)
    requires Plays(p, cap, m, acts, id, n)
    ensures Leads(p, cap, m, steps, n)
    decreases acts
  {
    steps := [];
    if acts != [] {
      var st := Task(id, acts[0]);
      var rest := Played(p, cap, Mux.Step(p, cap, m, st), acts[1..], id, n);
      Then(p, cap, m, st, rest, n);
      steps := [st] + rest;
    }
  }

  // ----- One task step, as the tunnel sees it -----

  lemma TaskTaken(p: Params, cap: nat, m: Session, id: nat, a: Act) returns (n: Session)
    requires p.Sane() && Mux.Inv(p, cap, m) && id in m.ends && Enabled(p, m.ends[id], a) && a != Dial(Reap)
    ensures Can(p, m, Task(id, a)) && n == Mux.Step(p, cap, m, Task(id, a)) && Mux.Inv(p, cap, n)
    ensures id in n.ends && View(n, id) == AfterAct(p, View(m, id), a)
  {
    hide Mux.Inv, Enabled, Local, AfterAct, Only;
    n := Mux.Step(p, cap, m, Task(id, a));
    Mux.StepInv(p, cap, m, Task(id, a));
    TaskProjects(p, cap, m, id, a, id);
  }

  // ----- The response -----

  /** The connector has sent the end of the response and the server is still at work. */
  predicate ResponseSent(e: Ends) {
    e.con.closed && e.srv.registered && e.srv.task == Splicing && Moving(e.srv.rx)
  }

  lemma ResponseHeard(p: Params, s: Stream)
    requires TunnelInvariant.Inv(p, s) && s.toS != [] && ResponseSent(s.e) && TunnelInvariant.Inv(p, AfterServer(p, s))
    ensures var n := AfterServer(p, s).e;
      n.down.src == s.e.down.src && (ResponseSent(n) || Closing(n, Down))
  {
    hide Flows, Opening, Handshake, RequestEof, FlowControl.Cat, FlowControl.Raised;
    assert s.toS[0] in s.toS;
  }

  /** Reading on, the server comes to the end of the response. */
  lemma {:induction false} ServerReadsOn(p: Params, cap: nat, m: Session, id: nat)
    returns (steps: seq<SessionStep>, n: Session)
    requires p.Sane() && Mux.Inv(p, cap, m) && id in m.ends && ResponseSent(m.ends[id])
    ensures Leads(p, cap, m, steps, n) && Mux.Inv(p, cap, n)
    ensures id in n.ends && Closing(n.ends[id], Down) && n.ends[id].down.src == m.ends[id].down.src
    decreases |m.toS|
  {
    hide TunnelInvariant.Inv, ServerGets, Closing, Only;
    var s := View(m, id);
    EofOnLink(p, s);
    OnlyEmpty(m.toS, id);
    var m' := Mux.Step(p, cap, m, ServerReads);
    Mux.StepInv(p, cap, m, ServerReads);
    ServerReadsProjects(p, cap, m, id);
    if m.toS[0].id == id { ResponseHeard(p, s); }
    if Closing(m'.ends[id], Down) {
      steps, n := [ServerReads], m';
    } else {
      var rest;
      rest, n := ServerReadsOn(p, cap, m', id);
      Then(p, cap, m, ServerReads, rest, n);
      steps := [ServerReads] + rest;
    }
  }

  lemma EofOnLink(p: Params, s: Stream)
    requires TunnelInvariant.Inv(p, s)
    ensures s.e.con.closed && s.e.srv.registered ==> Close in s.toS
    ensures s.e.srv.upClosed && s.e.con.reqOpen ==> Close in s.toC
  {}

  lemma OnlyEmpty(q: seq<Tagged>, id: nat)
    ensures q == [] ==> Only(q, id) == []
  {}

  lemma ResponseEnds(p: Params, s: Stream)
    requires Enabled(p, s.e, Respond(ReadEof)) && s.e.srv.registered && s.e.srv.task == Splicing && Moving(s.e.srv.rx)
    ensures var s1 := AfterAct(p, s, Respond(ReadEof));
      && Enabled(p, s1.e, Respond(SendClose(true)))
      && var s2 := AfterAct(p, s1, Respond(SendClose(true)));
         ResponseSent(s2.e) && s2.e.down.src == s.e.down.src
  {
    hide FlowControl.Cat;
  }

  /** A response can always be finished. */
  lemma ResponseCanFinish(p: Params, cap: nat, m: Session, id: nat) returns (steps: seq<SessionStep>, n: Session)
    requires p.Sane() && Mux.Inv(p, cap, m) && id in m.ends
    requires var e := m.ends[id];
      e.con.task == Piping && e.con.tx == Reading && e.srv.registered && e.srv.task == Splicing && Moving(e.srv.rx)
    ensures Leads(p, cap, m, steps, n) && steps != [] && steps[0] == Task(id, Respond(ReadEof))
    ensures id in n.ends && Complete(n.ends[id], Down) && n.ends[id].down.sink == m.ends[id].down.src
  {
    hide Mux.Inv, Mux.Step, Local, AfterAct, Closing;
    var eof, close := Task(id, Respond(ReadEof)), Task(id, Respond(SendClose(true)));
    ResponseEnds(p, View(m, id));
    var m1 := TaskTaken(p, cap, m, id, Respond(ReadEof));
    var m2 := TaskTaken(p, cap, m1, id, Respond(SendClose(true)));
    var heard, k := ServerReadsOn(p, cap, m2, id);
    var acts;
    acts, n := EndDelivers(p, cap, k, id, Down);
    var last := Played(p, cap, k, acts, id, n);
    Chained(p, cap, m2, heard, k, last, n);
    Then(p, cap, m1, close, heard + last, n);
    Then(p, cap, m, eof, [close] + (heard + last), n);
    steps := [eof] + ([close] + (heard + last));
  }

  // ----- The request -----

  /** The server has sent the end of the request and the connector is still at work. */
  predicate RequestSent(e: Ends) {
    && e.srv.upClosed && e.srv.registered && e.srv.rx != Broken
    && e.con.entry && e.con.reqOpen && e.con.task == Piping && Moving(e.con.rx)
  }

  lemma RequestHeard(p: Params, s: Stream, accept: bool)
    requires TunnelInvariant.Inv(p, s) && s.toC != [] && RequestSent(s.e)
    ensures var n := AfterConnector(p, s, accept).e;
      n.up.src == s.e.up.src && (RequestSent(n) || Closing(n, Up))
  {
    hide Flows, NoLeak, ResponseEof, RequestEof, FlowControl.Cat, FlowControl.Raised;
    assert s.toC[0] in s.toC;
  }

  lemma {:induction false} ConnectorReadsOn(p: Params, cap: nat, m: Session, id: nat)
    returns (steps: seq<SessionStep>, n: Session)
    requires p.Sane() && Mux.Inv(p, cap, m) && id in m.ends && RequestSent(m.ends[id])
    ensures Leads(p, cap, m, steps, n) && Mux.Inv(p, cap, n)
    ensures id in n.ends && Closing(n.ends[id], Up) && n.ends[id].up.src == m.ends[id].up.src
    decreases |m.toC|
  {
    hide TunnelInvariant.Inv, ConnectorGets, AfterConnector, Closing, Only, Entries;
    var s := View(m, id);
    EofOnLink(p, s);
    OnlyEmpty(m.toC, id);
    OpeningOf(p, s);
    var m' := Mux.Step(p, cap, m, ConnectorReads);
    Mux.StepInv(p, cap, m, ConnectorReads);
    ConnectorReadsProjects(p, cap, m, id);
    StaysKnown(p, cap, m, ConnectorReads, id);
    if m.toC[0].id == id {
      RequestHeard(p, s, |Entries(if m.toC[0].m.Connect? then Retain(m.ends) else m.ends)| < cap);
    }
    if Closing(m'.ends[id], Up) {
      steps, n := [ConnectorReads], m';
    } else {
      var rest;
      rest, n := ConnectorReadsOn(p, cap, m', id);
      Then(p, cap, m, ConnectorReads, rest, n);
      steps := [ConnectorReads] + rest;
    }
  }

  lemma RequestEnds(p: Params, s: Stream)
    requires Enabled(p, s.e, Upload(ReadEof)) && s.e.srv.rx != Broken && s.e.srv.registered
    requires s.e.con.entry && s.e.con.reqOpen && s.e.con.task == Piping && Moving(s.e.con.rx)
    ensures var s1 := AfterAct(p, s, Upload(ReadEof));
      && Enabled(p, s1.e, Upload(SendClose(true)))
      && var s2 := AfterAct(p, s1, Upload(SendClose(true)));
         RequestSent(s2.e) && s2.e.up.src == s.e.up.src
  {
    hide FlowControl.Cat;
  }

  /** A request can always be finished. */
  lemma RequestCanFinish(p: Params, cap: nat, m: Session, id: nat) returns (steps: seq<SessionStep>, n: Session)
    requires p.Sane() && Mux.Inv(p, cap, m) && id in m.ends && Live(m.ends[id], Up)
    requires m.ends[id].srv.tx == Reading && m.ends[id].srv.rx != Broken
    ensures Leads(p, cap, m, steps, n) && steps != [] && steps[0] == Task(id, Upload(ReadEof))
    ensures id in n.ends && Complete(n.ends[id], Up) && n.ends[id].up.sink == m.ends[id].up.src
  {
    hide Mux.Inv, Mux.Step, Local, AfterAct, Closing;
    var eof, close := Task(id, Upload(ReadEof)), Task(id, Upload(SendClose(true)));
    RequestEnds(p, View(m, id));
    var m1 := TaskTaken(p, cap, m, id, Upload(ReadEof));
    var m2 := TaskTaken(p, cap, m1, id, Upload(SendClose(true)));
    var heard, k := ConnectorReadsOn(p, cap, m2, id);
    var acts;
    acts, n := EndDelivers(p, cap, k, id, Up);
    var last := Played(p, cap, k, acts, id, n);
    Chained(p, cap, m2, heard, k, last, n);
    Then(p, cap, m1, close, heard + last, n);
    Then(p, cap, m, eof, [close] + (heard + last), n);
    steps := [eof] + ([close] + (heard + last));
  }

  // ----- Aborts -----

  /** A client whose socket fails is not taken for one that has finished: a read error sends a
      Reset and removes the stream, a write error sends a Reset. */
  lemma ClientErrorResets(p: Params, s: Stream)
    ensures Enabled(p, s.e, Upload(ReadError)) ==>
      var s1 := AfterAct(p, s, Upload(ReadError));
      && Enabled(p, s1.e, Upload(SendAbort(true)))
      && var s2 := AfterAct(p, s1, Upload(SendAbort(true)));
         Reset in s2.toC && s2.e.srv.resetSent && !s2.e.srv.registered && s2.e.srv.upClosed == s.e.srv.upClosed
    ensures Enabled(p, s.e, Download(WriteError)) ==>
      var s1 := AfterAct(p, s, Download(WriteError));
      && Enabled(p, s1.e, Download(SendReset(true)))
      && var s2 := AfterAct(p, s1, Download(SendReset(true)));
         && Reset in s2.toC && s2.e.srv.resetSent && Enabled(p, s2.e, Bridge(DownloadOver))
         && !AfterAct(p, s2, Bridge(DownloadOver)).e.srv.registered
  {
    hide FlowControl.Cat;
  }

  /** A bridge that gives up on a connect removes the stream and sends a Reset, so that a connect
      that lands later leaves no backend open. */
  lemma GiveUpResets(p: Params, s: Stream)
    requires s.e.srv.task == GivingUp
    ensures var s1 := AfterAct(p, s, Bridge(GiveUp));
      && !s1.e.srv.registered && Enabled(p, s1.e, Bridge(EmitReset(true)))
      && var s2 := AfterAct(p, s1, Bridge(EmitReset(true)));
         Reset in s2.toC && s2.e.srv.resetSent && s2.e.srv.task == Over && !s2.e.srv.registered
  {}

  /** The answer decides: an Ok splices, an error or a timeout gives up. */
  lemma AnswerDecides(p: Params, s: Stream)
    requires s.e.srv.task == Awaiting
    ensures s.e.srv.reply == ReplyOk ==>
      && Enabled(p, s.e, Bridge(TakeReply))
      && var v := AfterAct(p, s, Bridge(TakeReply)).e.srv; v.task == Splicing && v.tx == Reading && v.rx == Receiving
    ensures s.e.srv.reply == ReplyErr ==>
      Enabled(p, s.e, Bridge(TakeReply)) && AfterAct(p, s, Bridge(TakeReply)).e.srv.task == GivingUp
    ensures AfterAct(p, s, Bridge(ReplyTimeout)).e.srv.task == GivingUp
  {}

  /** A dial that succeeds is answered with ConnectOk, and the pumps start. */
  lemma DialSucceeds(p: Params, s: Stream)
    requires Enabled(p, s.e, Dial(DialOk))
    ensures var s1 := AfterAct(p, s, Dial(DialOk));
      && Enabled(p, s1.e, Dial(EmitOk(true)))
      && var s2 := AfterAct(p, s1, Dial(EmitOk(true)));
         && ConnectOk in s2.toS && s2.e.con.answered && s2.e.con.task == Piping
         && s2.e.con.tx == Reading && s2.e.con.rx == Receiving
  {
    hide FlowControl.Cat;
  }

  /** One that fails or is abandoned is answered with ConnectErr. */
  lemma DialFails(p: Params, s: Stream, d: DialAct)
    requires (d == DialError || d == DialAbandoned) && Enabled(p, s.e, Dial(d))
    ensures ErrSent(p, AfterAct(p, s, Dial(d)))
  {
    hide FlowControl.Cat;
  }

  /** So is a Connect that finds no slot. */
  lemma RefusalIsSent(p: Params, s: Stream)
    requires s.toC != [] && s.toC[0] == Connect
    ensures var s1 := AfterConnector(p, s, false);
      && Enabled(p, s1.e, Dial(EmitRefusal)) && s1.e.con.entry == s.e.con.entry
      && var s2 := AfterAct(p, s1, Dial(EmitRefusal)); ConnectErr in s2.toS && s2.e.con.answered
  {
    hide FlowControl.Cat;
  }

  ghost predicate ErrSent(p: Params, s: Stream) {
    && Enabled(p, s.e, Dial(EmitErr(true)))
    && var n := AfterAct(p, s, Dial(EmitErr(true)));
       ConnectErr in n.toS && n.e.con.answered && n.e.con.task == Finished
  }

  /** A peer that sends more than a window is cut off: the stream is removed, its bytes dropped,
      and a Reset goes out. */
  lemma ViolationResets(p: Params, s: Stream)
    requires s.toS != [] && s.toS[0].Data? && s.e.srv.registered
    requires s.e.srv.outstanding + |s.toS[0].payload| > p.window
    ensures var s1 := AfterServer(p, s);
      && !s1.e.srv.registered && s1.e.srv.creditClosed && s1.e.down.queue == s.e.down.queue
      && Enabled(p, s1.e, Bridge(EmitViolationReset))
      && var s2 := AfterAct(p, s1, Bridge(EmitViolationReset));
         Reset in s2.toC && s2.e.srv.resetSent && !s2.e.srv.registered
  {}

  /** The two halves of `shutdown` leave no connect pending, no stream in the map and no credit open. */
  lemma ShutdownEnds(p: Params, s: Stream)
    ensures var s1 := AfterAct(p, s, Bridge(ShutPending));
      && !s1.e.srv.pending && s1.e.srv.reply == (if s.e.srv.pending then ReplyErr else s.e.srv.reply)
      && var s2 := AfterAct(p, s1, Bridge(ShutStreams));
         && !s2.e.srv.pending && !s2.e.srv.registered && (s.e.srv.registered ==> s2.e.srv.creditClosed)
         && s2.toC == s.toC && s2.e.down == s.e.down && s2.e.up == s.e.up
  {}
}
