/** One WSS tunnel as a two-party protocol: the server's bridge task and reader, the
    connector's stream task and mux loop, and the messages of this tunnel on the two links.

    Every await point of the two tasks is a step of its own, so the four pumps, the two message
    handlers and session shutdown interleave freely between awaits.  A handler is one step here,
    and so are a removal and an upload's abort with its Reset; `Slots` takes `remove_stream` and
    `shutdown` apart into their single operations.  A timeout, a socket error and a failed send
    are steps that may happen at any moment; a send that is waiting for queue space is a send
    that has not happened yet. */
module Tunnel {
  import opened FlowControl

  datatype Msg =
    | Connect | ConnectOk | ConnectErr
    | Data(payload: Bytes) | Close | Reset | WindowUpdate(bytes: nat)

  // Sending pump: reading, waiting for credit, sending a paid chunk, announcing EOF, aborting.
  datatype TxPc = TxOff | Reading | Waiting | Sending | Ending | Aborting | TxStopped
  // Receiving pump; `Drained` ended at a closed, empty queue, `Broken` on any error.
  datatype RxPc = RxOff | Receiving | Writing | Granting | Failed | Drained | Broken

  datatype Reply = NoReply | ReplyOk | ReplyErr
  // What took the stream out of the server's map first.
  datatype Removal = NotRemoved | ByClose | ByReset | ByViolation | ByDeadQueue | ByTask | ByShutdown
  datatype ServerTask = Connecting | Awaiting | GivingUp | Resetting | Splicing | Over
  datatype ConnectorTask = Absent | Refused | Dialing | Okaying | Erring | Piping | Finished

  datatype Server = Server(
    task: ServerTask,
    registered: bool,      // in `streams`
    pending: bool,         // in `pending`
    reply: Reply,          // what went into the oneshot
    creditClosed: bool,
    tx: TxPc,              // upload
    rx: RxPc,              // download
    outstanding: int,      // recv_outstanding
    spawnedReset: bool,
    upClosed: bool,        // request EOF was sent
    removal: Removal,
    resetSent: bool)       // history: a Reset was sent

  datatype Connector = Connector(
    task: ConnectorTask,
    entry: bool,           // in `streams`
    reqOpen: bool,         // `request_tx` is Some
    tx: TxPc,              // download
    rx: RxPc,              // upload
    spawnedErr: bool,
    closed: bool,          // response EOF was sent
    fin: bool,             // request EOF arrived while open
    answered: bool)        // history: ConnectOk or ConnectErr was sent

  datatype Ends = Ends(srv: Server, con: Connector, up: Flow, down: Flow)
  datatype Stream = Stream(e: Ends, toC: seq<Msg>, toS: seq<Msg>)

  function Opened(p: Params): Ends {
    Ends(Server(Connecting, true, true, NoReply, false, TxOff, RxOff, 0, false, false, NotRemoved, false),
         Connector(Absent, false, false, TxOff, RxOff, false, false, false, false),
         FlowControl.Init(p), FlowControl.Init(p))
  }

  // ----- The message handlers -----

  /** `ConnectorManager::remove_stream`. */
  function RemoveStream(v: Server, why: Removal): Server {
    if !v.registered then v
    else v.(registered := false, creditClosed := true, removal := why,
            pending := false, reply := if v.pending then ReplyErr else v.reply)
  }

  function Resolve(v: Server, r: Reply): Server {
    if v.pending then v.(pending := false, reply := r) else v
  }

  /** `ConnectorManager::handle_message`. */
  function ServerGets(p: Params, e: Ends, m: Msg): Ends {
    match m
    case ConnectOk => e.(srv := Resolve(e.srv, ReplyOk))
    case ConnectErr => e.(srv := Resolve(e.srv, ReplyErr))
    case Data(c) =>
      if !e.srv.registered then e.(down := Lose(e.down, c))
      else
        var after := e.srv.outstanding + |c|;
        var v := e.srv.(outstanding := after);
        if after > p.window then
          e.(srv := RemoveStream(v, ByViolation).(spawnedReset := true), down := Lose(e.down, c))
        else if v.task == Over then
          e.(srv := RemoveStream(v, ByDeadQueue), down := Lose(e.down, c))
        else e.(srv := v, down := Accept(e.down, c))
    case WindowUpdate(n) =>
      if e.srv.registered then e.(up := Grant(p, e.up, n)) else e.(up := LoseGrant(e.up, n))
    case Close => e.(srv := RemoveStream(e.srv, ByClose))
    case Reset => e.(srv := RemoveStream(e.srv, ByReset))
    case Connect => e
  }

  /** `SessionManager::handle_message`; `accept` says a Connect found a free slot. */
  function ConnectorGets(p: Params, e: Ends, m: Msg, accept: bool): Ends {
    var c := e.con;
    match m
    case Connect =>
      if accept then e.(con := Connector(Dialing, true, true, TxOff, RxOff, c.spawnedErr, false, false, c.answered))
      else e.(con := c.(task := Refused, spawnedErr := true))
    case Data(d) =>
      if !(c.entry && c.reqOpen) then e.(up := Lose(e.up, d))
      else if c.task == Finished then
        e.(con := c.(entry := false, reqOpen := false), up := Lose(e.up, d))
      else e.(up := Accept(e.up, d))
    case Close =>
      if c.entry then e.(con := c.(reqOpen := false, fin := c.fin || c.reqOpen)) else e
    case Reset => e.(con := c.(entry := false, reqOpen := false))
    case WindowUpdate(n) =>
      if c.entry then e.(down := Grant(p, e.down, n)) else e.(down := LoseGrant(e.down, n))
    case ConnectOk => e
    case ConnectErr => e
  }

  // ----- The two kinds of pump -----

  /** A sending pump: read, wait for credit, send.  `sent` is false where a send fails
      because the session is gone. */
  datatype TxAct =
    | ReadChunk(b: Bytes) | ReadEof | ReadError
    | TakeCredit | Refusal
    | SendData(sent: bool) | SendClose(sent: bool) | SendAbort(sent: bool)

  datatype TxOut = TxOut(pc: TxPc, f: Flow, out: seq<Msg>)

  predicate TxCan(p: Params, pc: TxPc, f: Flow, closed: bool, a: TxAct) {
    match a
    case ReadChunk(b) => pc == Reading && IsChunk(p, b)
    case ReadEof => pc == Reading
    case ReadError => pc == Reading
    // close() may land between the closed check and the credit update, so both outcomes
    // of an acquire are possible on a closed credit; `CreditRefinement` proves the fit.
    case TakeCredit => pc == Waiting && |f.held| <= f.credit
    case Refusal => pc == Waiting && closed
    case SendData(_) => pc == Sending
    case SendClose(_) => pc == Ending
    case SendAbort(_) => pc == Aborting
  }

  function TxStep(p: Params, pc: TxPc, f: Flow, closed: bool, a: TxAct): TxOut
    requires TxCan(p, pc, f, closed, a)
  {
    match a
    case ReadChunk(b) => TxOut(Waiting, Read(f, b), [])
    case ReadEof => TxOut(Ending, f, [])
    case ReadError => TxOut(Aborting, f, [])
    case TakeCredit => TxOut(Sending, Acquire(f), [])
    case Refusal => TxOut(TxStopped, f, [])
    case SendData(sent) => if sent then TxOut(Reading, Emit(f), [Data(f.held)]) else TxOut(TxStopped, f, [])
    case SendClose(sent) => TxOut(TxStopped, f, if sent then [Close] else [])
    case SendAbort(sent) => TxOut(TxStopped, f, if sent then [Reset] else [])
  }

  /** A receiving pump: take a chunk, write it out, grant drained bytes back.  `open` says
      the queue still has a sender; `aborts` that a write error is reported by a Reset. */
  datatype RxAct =
    | TakeChunk | WriteSome(k: nat) | WriteError | Count
    | SendUpdate(sent: bool) | QueueEnd | SendReset(sent: bool)

  datatype RxOut = RxOut(pc: RxPc, f: Flow, out: seq<Msg>)

  predicate RxCan(pc: RxPc, f: Flow, open: bool, a: RxAct) {
    match a
    case TakeChunk => pc == Receiving && f.queue != []
    case WriteSome(k) => pc == Writing && 1 <= k <= |f.cur|
    case WriteError => pc == Writing
    case Count => pc == Writing && f.cur == []
    case SendUpdate(_) => pc == Granting
    case QueueEnd => pc == Receiving && f.queue == [] && !open
    case SendReset(_) => pc == Failed
  }

  function RxStep(p: Params, pc: RxPc, f: Flow, open: bool, aborts: bool, a: RxAct): RxOut
    requires RxCan(pc, f, open, a)
  {
    match a
    case TakeChunk => RxOut(Writing, Pop(f), [])
    case WriteSome(k) => RxOut(Writing, Write(f, k), [])
    case WriteError => RxOut(if aborts then Failed else Broken, f, [])
    case Count => RxOut(if f.drained + f.curLen >= p.threshold then Granting else Receiving, Drain(p, f), [])
    case SendUpdate(sent) =>
      if sent then RxOut(Receiving, SendGrant(f), [WindowUpdate(f.owed)]) else RxOut(Broken, f, [])
    case QueueEnd => RxOut(Drained, f, [])
    case SendReset(sent) => RxOut(Broken, f, if sent then [Reset] else [])
  }

  // ----- The steps of the two tasks -----

  /** The server's bridge outside its pumps, and session shutdown. */
  datatype BridgeAct =
    | EmitConnect | ConnectUnsent | TakeReply | ReplyTimeout | GiveUp | EmitReset(sent: bool)
    | DownloadOver | EmitViolationReset | ShutPending | ShutStreams

  /** The connector's task outside its pumps, slot reuse, task abort and session end. */
  datatype DialAct =
    | DialData | DialAbandoned | DialOk | DialError | EmitOk(sent: bool) | EmitErr(sent: bool) | EmitRefusal
    | Reap | Kill | Drop

  datatype Act =
    | Bridge(b: BridgeAct) | Dial(d: DialAct)
    | Upload(u: TxAct)          // server: client to link
    | Download(d': RxAct)       // server: link to client
    | Respond(r: TxAct)         // connector: backend to link
    | Forward(w: RxAct)         // connector: link to backend

  predicate BridgeCan(v: Server, a: BridgeAct) {
    match a
    case EmitConnect => v.task == Connecting
    case ConnectUnsent => v.task == Connecting
    case TakeReply => v.task == Awaiting && v.reply != NoReply
    case ReplyTimeout => v.task == Awaiting
    case GiveUp => v.task == GivingUp
    case EmitReset(_) => v.task == Resetting
    case DownloadOver => v.task == Splicing && (v.rx == Drained || v.rx == Broken)
    case EmitViolationReset => v.spawnedReset
    case ShutPending => true
    case ShutStreams => true
  }

  function BridgeStep(v: Server, a: BridgeAct): (Server, seq<Msg>)
    requires BridgeCan(v, a)
  {
    match a
    case EmitConnect => (v.(task := Awaiting), [Connect])
    case ConnectUnsent => (RemoveStream(v, ByTask).(task := Over), [])
    case TakeReply =>
      if v.reply == ReplyOk then (v.(task := Splicing, tx := Reading, rx := Receiving), [])
      else (v.(task := GivingUp), [])
    case ReplyTimeout => (v.(task := GivingUp), [])
    case GiveUp => (RemoveStream(v, ByTask).(task := Resetting), [])
    case EmitReset(sent) => (v.(task := Over, resetSent := v.resetSent || sent), if sent then [Reset] else [])
    // The stream ends with the download; an upload still running is dropped.
    case DownloadOver => (RemoveStream(v, ByTask).(task := Over, tx := TxStopped), [])
    case EmitViolationReset => (v.(spawnedReset := false, resetSent := true), [Reset])
    case ShutPending => (Resolve(v, ReplyErr), [])
    case ShutStreams =>
      (if v.registered then v.(registered := false, creditClosed := true, removal := ByShutdown) else v, [])
  }

  predicate DialCan(c: Connector, queued: bool, a: DialAct) {
    match a
    case DialData => c.task == Dialing && queued
    case DialAbandoned => c.task == Dialing && !queued && !c.reqOpen
    case DialOk => c.task == Dialing
    case DialError => c.task == Dialing
    case EmitOk(_) => c.task == Okaying
    case EmitErr(_) => c.task == Erring
    case EmitRefusal => c.spawnedErr
    case Reap => c.entry && c.task == Finished
    // Dropping the map entry aborts the task, which may run on until its next await.
    case Kill => !c.entry && (c.task == Dialing || c.task == Okaying || c.task == Erring || c.task == Piping)
    case Drop => c.entry
  }

  function DialStep(c: Connector, queued: bool, a: DialAct): (Connector, seq<Msg>)
    requires DialCan(c, queued, a)
  {
    match a
    case DialData => (c, [])
    case DialAbandoned => (c.(task := Erring), [])
    case DialOk => (c.(task := Okaying), [])
    case DialError => (c.(task := Erring), [])
    case EmitOk(sent) =>
      if sent then (c.(task := Piping, tx := Reading, rx := Receiving, answered := true), [ConnectOk])
      else (c.(task := Finished), [])
    case EmitErr(sent) =>
      (c.(task := Finished, answered := c.answered || sent), if sent then [ConnectErr] else [])
    case EmitRefusal => (c.(spawnedErr := false, answered := true), [ConnectErr])
    case Reap => (c.(entry := false, reqOpen := false), [])
    case Kill => (c.(task := Finished), [])
    case Drop => (c.(entry := false, reqOpen := false), [])
  }

  predicate Enabled(p: Params, e: Ends, a: Act) {
    match a
    case Bridge(b) => BridgeCan(e.srv, b)
    case Dial(d) => DialCan(e.con, e.up.queue != [], d)
    case Upload(u) => e.srv.task == Splicing && TxCan(p, e.srv.tx, e.up, e.srv.creditClosed, u)
    case Download(d) => e.srv.task == Splicing && RxCan(e.srv.rx, e.down, e.srv.registered, d)
    // A read error is an EOF to the connector, and nothing closes its credit.
    case Respond(r) => e.con.task == Piping && !r.ReadError? && TxCan(p, e.con.tx, e.down, false, r)
    case Forward(w) => e.con.task == Piping && RxCan(e.con.rx, e.up, e.con.reqOpen, w)
  }

  datatype Out = Out(e: Ends, c: seq<Msg>, s: seq<Msg>)

  function Local(p: Params, e: Ends, a: Act): Out
    requires Enabled(p, e, a)
  {
    match a
    case Bridge(b) =>
      var (v, out) := BridgeStep(e.srv, b);
      Out(e.(srv := v), out, [])
    case Dial(d) =>
      var (c, out) := DialStep(e.con, e.up.queue != [], d);
      var up := if d.DialData? then e.up.(queue := e.up.queue[1..]) else e.up;
      Out(e.(con := c, up := up), [], out)
    case Upload(u) =>
      var o := TxStep(p, e.srv.tx, e.up, e.srv.creditClosed, u);
      var v := if u.SendAbort? then RemoveStream(e.srv, ByTask) else e.srv;
      var v' := v.(tx := o.pc, upClosed := v.upClosed || u == SendClose(true),
                   resetSent := v.resetSent || u == SendAbort(true));
      Out(e.(srv := v', up := o.f), o.out, [])
    case Download(d) =>
      var o := RxStep(p, e.srv.rx, e.down, e.srv.registered, true, d);
      var outstanding := if d.Count? then e.srv.outstanding - e.down.curLen else e.srv.outstanding;
      var v := e.srv.(rx := o.pc, outstanding := outstanding, resetSent := e.srv.resetSent || d == SendReset(true));
      Out(e.(srv := v, down := o.f), o.out, [])
    case Respond(r) =>
      var o := TxStep(p, e.con.tx, e.down, false, r);
      // The response ends the task, and its upload pump with it.
      var c := e.con.(tx := o.pc, task := if o.pc == TxStopped then Finished else Piping,
                      closed := e.con.closed || r == SendClose(true));
      Out(e.(con := c, down := o.f), [], o.out)
    case Forward(w) =>
      var o := RxStep(p, e.con.rx, e.up, e.con.reqOpen, false, w);
      Out(e.(con := e.con.(rx := o.pc), up := o.f), [], o.out)
  }

  // ----- The step relation -----

  /** The next message reaches an end, or an end takes a step of its own. */
  datatype Step = AtServer | AtConnector(accept: bool) | Do(a: Act)

  predicate CanStep(p: Params, s: Stream, st: Step) {
    match st
    case AtServer => s.toS != []
    case AtConnector(_) => s.toC != []
    case Do(a) => Enabled(p, s.e, a)
  }

  /** The server's reader handles the next message. */
  function AfterServer(p: Params, s: Stream): Stream
    requires s.toS != []
  {
    Stream(ServerGets(p, s.e, s.toS[0]), s.toC, s.toS[1..])
  }

  /** The connector's mux loop handles the next message. */
  function AfterConnector(p: Params, s: Stream, accept: bool): Stream
    requires s.toC != []
  {
    Stream(ConnectorGets(p, s.e, s.toC[0], accept), s.toC[1..], s.toS)
  }

  function AfterAct(p: Params, s: Stream, a: Act): Stream
    requires Enabled(p, s.e, a)
  {
    var o := Local(p, s.e, a);
    Stream(o.e, s.toC + o.c, s.toS + o.s)
  }

  function Next(p: Params, s: Stream, st: Step): Stream
    requires CanStep(p, s, st)
  {
    match st
    case AtServer => AfterServer(p, s)
    case AtConnector(accept) => AfterConnector(p, s, accept)
    case Do(a) => AfterAct(p, s, a)
  }

  // ----- What the links carry -----

  function PayloadOf(m: Msg): Bytes {
    if m.Data? then m.payload else []
  }

  function GrantOf(m: Msg): nat {
    if m.WindowUpdate? then m.bytes else 0
  }

  function Wire(q: seq<Msg>): Bytes {
    if q == [] then [] else PayloadOf(q[0]) + Wire(q[1..])
  }

  function Granted(q: seq<Msg>): nat {
    if q == [] then 0 else GrantOf(q[0]) + Granted(q[1..])
  }

  lemma {:induction false} WireSnoc(q: seq<Msg>, m: Msg)
    ensures Wire(q + [m]) == Wire(q) + PayloadOf(m)
  {
    hide PayloadOf;
    if q == [] {
      assert q + [m] == [m];
    } else {
      WireSnoc(q[1..], m);
      assert (q + [m])[1..] == q[1..] + [m];
    }
  }

  lemma {:induction false} GrantedSnoc(q: seq<Msg>, m: Msg)
    ensures Granted(q + [m]) == Granted(q) + GrantOf(m)
  {
    hide GrantOf;
    if q == [] {
      assert q + [m] == [m];
    } else {
      GrantedSnoc(q[1..], m);
      assert (q + [m])[1..] == q[1..] + [m];
    }
  }

  lemma {:induction false} NoDataNoWire(q: seq<Msg>)
    requires forall i :: 0 <= i < |q| ==> !q[i].Data?
    ensures Wire(q) == []
  {
    if q != [] { NoDataNoWire(q[1..]); }
  }
}
