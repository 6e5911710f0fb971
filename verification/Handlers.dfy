/** The two message handlers as the programs run them: maps and shared cells updated in
    place.  Each call is the corresponding step of the tunnel protocol on the stream it
    names and leaves every other stream alone. */
module Handlers {
  import opened Wrappers
  import opened FlowControl
  import opened Tunnel
  import opened Mux

  /** What a stream's task and the map share: it outlives the map entry. */
  datatype ServerCell = ServerCell(
    queue: seq<Bytes>,    // to_socket
    listening: bool,      // the queue's receiver still exists
    credit: nat, closed: bool,
    outstanding: int,
    reply: Reply)

  predicate ServerMirrors(registered: bool, waiting: bool, c: ServerCell, e: Ends) {
    && e.srv.registered == registered && e.srv.pending == waiting
    && e.srv.reply == c.reply && e.srv.creditClosed == c.closed && e.srv.outstanding == c.outstanding
    && (e.srv.task == Over <==> !c.listening)
    && e.down.queue == c.queue && e.up.credit == c.credit
  }

  /** The bytes of a Data message are counted whatever becomes of them. */
  function CountedEnds(e: Ends, payload: Bytes): Ends {
    e.(srv := e.srv.(outstanding := e.srv.outstanding + |payload|))
  }

  lemma CountMirrors(registered: bool, waiting: bool, c: ServerCell, e: Ends, payload: Bytes)
    requires ServerMirrors(registered, waiting, c, e)
    ensures ServerMirrors(registered, waiting, c.(outstanding := c.outstanding + |payload|), CountedEnds(e, payload))
  {}

  /** The three outcomes of the Data arm on a registered stream. */
  lemma DataMirrors(p: Params, registered: bool, waiting: bool, c: ServerCell, e: Ends, payload: Bytes)
    requires e.srv.registered
    requires var k := CountedEnds(e, payload);
      if k.srv.outstanding > p.window then
        var gone := k.(srv := Tunnel.RemoveStream(k.srv, ByViolation), down := Lose(k.down, payload));
        ServerMirrors(registered, waiting, c, gone)
      else if k.srv.task == Over then
        var gone := k.(srv := Tunnel.RemoveStream(k.srv, ByDeadQueue), down := Lose(k.down, payload));
        ServerMirrors(registered, waiting, c, gone)
      else ServerMirrors(registered, waiting, c, k.(down := Accept(k.down, payload)))
    ensures ServerMirrors(registered, waiting, c, ServerGets(p, e, Data(payload)))
  {}

  function Least(a: nat, b: nat): nat { if a <= b then a else b }

  class ConnectorManager {
    const p: Params
    var streams: set<nat>
    var pending: set<nat>
    var cells: map<nat, ServerCell>
    var activeStreams: nat
    var spawned: seq<Tagged>       // messages handed to a task of their own

    constructor (p: Params)
      ensures Valid() && this.p == p && activeStreams == 0
      ensures streams == {} && pending == {} && cells == map[] && spawned == []
    {
      this.p := p;
      streams, pending, cells, activeStreams, spawned := {}, {}, map[], 0, [];
    }

    predicate Valid()
      reads this
    {
      streams <= cells.Keys && pending <= cells.Keys
    }

    /** The server's half of tunnel state `e` is what the manager holds for `id`. */
    ghost predicate Holds(id: nat, e: Ends)
      reads this
    {
      id in cells && ServerMirrors(id in streams, id in pending, cells[id], e)
    }

    method TryReserve() returns (ok: bool)
      modifies this`activeStreams
      ensures ok <==> old(activeStreams) < MAX_ACTIVE_STREAMS
      ensures activeStreams == old(activeStreams) + (if ok then 1 else 0)
    {
      ok := activeStreams < MAX_ACTIVE_STREAMS;
      if ok { activeStreams := activeStreams + 1; }
    }

    method Release()
      modifies this`activeStreams
      ensures activeStreams == if old(activeStreams) == 0 then 0 else old(activeStreams) - 1
    {
      if activeStreams > 0 { activeStreams := activeStreams - 1; }
    }

    /** A bridge registers its stream before it sends Connect. */
    method Register(id: nat)
      requires Valid() && id !in cells
      modifies this`streams, this`pending, this`cells
      ensures Valid() && Holds(id, Opened(p))
      ensures id in streams && id in pending && cells[id] == ServerCell([], true, p.window, false, 0, NoReply)
      ensures streams - {id} == old(streams) - {id} && pending - {id} == old(pending) - {id}
      ensures cells - {id} == old(cells) - {id}
    {
      pending := pending + {id};
      cells := cells[id := ServerCell([], true, p.window, false, 0, NoReply)];
      streams := streams + {id};
    }

    /** `bridge` up to the spawned task's registration: refused at the cap, else a slot is taken
        and the stream opened. */
    method OpenTunnel(id: nat) returns (ok: bool)
      requires Valid() && id !in cells
      modifies this`activeStreams, this`streams, this`pending, this`cells
      ensures Valid() && (ok <==> old(activeStreams) < MAX_ACTIVE_STREAMS)
      ensures activeStreams == old(activeStreams) + (if ok then 1 else 0)
      ensures old(activeStreams) <= MAX_ACTIVE_STREAMS ==> activeStreams <= MAX_ACTIVE_STREAMS
      ensures ok ==> Holds(id, Opened(p)) && id in streams && id in pending
      ensures !ok ==> cells == old(cells) && streams == old(streams) && pending == old(pending)
      ensures streams - {id} == old(streams) - {id} && pending - {id} == old(pending) - {id}
      ensures cells - {id} == old(cells) - {id}
    {
      ok := TryReserve();
      if ok { Register(id); }
    }

    method Answer(id: nat, reply: Reply)
      requires id in cells
      modifies this`pending, this`cells
      ensures pending == old(pending) - {id}
      ensures cells == if id in old(pending) then old(cells)[id := old(cells)[id].(reply := reply)] else old(cells)
    {
      if id in pending {
        pending := pending - {id};
        cells := cells[id := cells[id].(reply := reply)];
      }
    }

    /** Idempotent teardown of one stream: its slot is freed once, its upload is woken, and
        a still-pending connect fails. */
    method RemoveStream(id: nat, ghost e: Ends, ghost why: Removal)
      requires Valid() && Holds(id, e)
      modifies this`streams, this`pending, this`cells, this`activeStreams
      ensures Valid() && Holds(id, e.(srv := Tunnel.RemoveStream(e.srv, why)))
      ensures streams - {id} == old(streams) - {id} && pending - {id} == old(pending) - {id}
      ensures cells - {id} == old(cells) - {id}
      ensures cells.Keys == old(cells).Keys && id !in streams
      ensures id in old(streams) ==> id !in pending
      ensures cells[id] == if id !in old(streams) then old(cells)[id]
        else old(cells)[id].(closed := true, reply := if id in old(pending) then ReplyErr else old(cells)[id].reply)
      ensures activeStreams == if id in old(streams) && old(activeStreams) > 0
                               then old(activeStreams) - 1 else old(activeStreams)
    {
      if id !in streams {
        return;
      }
      streams := streams - {id};
      cells := cells[id := cells[id].(closed := true)];
      Release();
      Answer(id, ReplyErr);
      PendingMatters(e, why);
    }

    static lemma PendingMatters(e: Ends, why: Removal)
      requires e.srv.registered
      ensures Tunnel.RemoveStream(e.srv, why)
           == e.srv.(registered := false, creditClosed := true, removal := why, pending := false,
                     reply := if e.srv.pending then ReplyErr else e.srv.reply)
    {}

    /** `recv_outstanding.fetch_add`. */
    method Count(id: nat, payload: Bytes, ghost e: Ends) returns (after: int)
      requires Valid() && Holds(id, e) && id in streams
      modifies this`cells
      ensures Valid() && Holds(id, CountedEnds(e, payload)) && e.srv.registered
      ensures after == CountedEnds(e, payload).srv.outstanding == old(cells)[id].outstanding + |payload|
      ensures cells.Keys == old(cells).Keys && cells - {id} == old(cells) - {id}
      ensures cells[id].listening <==> e.srv.task != Over
    {
      after := cells[id].outstanding + |payload|;
      CountMirrors(id in streams, id in pending, cells[id], e, payload);
      cells := cells[id := cells[id].(outstanding := after)];
    }

    /** Counted bytes go to the stream's queue. */
    method Enqueue(id: nat, payload: Bytes, ghost e: Ends)
      requires Valid() && Holds(id, e) && id in streams && cells[id].listening
      modifies this`cells
      ensures Valid() && Holds(id, e.(down := Accept(e.down, payload)))
      ensures cells.Keys == old(cells).Keys && cells - {id} == old(cells) - {id}
    {
      cells := cells[id := cells[id].(queue := cells[id].queue + [payload])];
    }

    /** The stream is dropped, and its bytes with it. */
    method Discard(id: nat, payload: Bytes, ghost e: Ends, ghost why: Removal)
      requires Valid() && Holds(id, e) && id in streams
      modifies this`streams, this`pending, this`cells, this`activeStreams
      ensures Valid() && Holds(id, e.(srv := Tunnel.RemoveStream(e.srv, why), down := Lose(e.down, payload)))
      ensures streams - {id} == old(streams) - {id} && pending - {id} == old(pending) - {id}
      ensures cells - {id} == old(cells) - {id}
      ensures cells.Keys == old(cells).Keys && id !in streams
      ensures activeStreams == if old(activeStreams) > 0 then old(activeStreams) - 1 else old(activeStreams)
    {
      RemoveStream(id, e, why);
    }

    /** The Data arm: count the bytes, refuse past the window, queue otherwise. */
    method HandleData(id: nat, payload: Bytes, ghost e: Ends)
      requires Valid() && Holds(id, e)
      modifies this
      ensures Valid() && cells.Keys == old(cells).Keys
      ensures Holds(id, ServerGets(p, e, Data(payload)))
      ensures streams - {id} == old(streams) - {id} && pending - {id} == old(pending) - {id}
      ensures cells - {id} == old(cells) - {id}
      ensures activeStreams == if id in old(streams) && id !in streams && old(activeStreams) > 0
                               then old(activeStreams) - 1 else old(activeStreams)
      ensures spawned == old(spawned) + (if id in old(streams) && old(cells)[id].outstanding + |payload| > p.window
                                         then [Tagged(id, Reset)] else [])
    {
      if id !in streams {
        return;
      }
      var after := Count(id, payload, e);
      hide ServerMirrors;
      if after > p.window {
        Discard(id, payload, CountedEnds(e, payload), ByViolation);
        spawned := spawned + [Tagged(id, Reset)];
      } else if !cells[id].listening {
        Discard(id, payload, CountedEnds(e, payload), ByDeadQueue);
      } else {
        Enqueue(id, payload, CountedEnds(e, payload));
      }
      DataMirrors(p, id in streams, id in pending, cells[id], e, payload);
    }

    /** `handle_message`, for any message about any stream, known or not. */
    method HandleMessage(id: nat, m: Msg, ghost e: Ends)
      requires Valid() && (id in cells ==> Holds(id, e))
      modifies this
      ensures Valid() && cells.Keys == old(cells).Keys
      ensures id in cells ==> Holds(id, ServerGets(p, e, m))
      ensures streams - {id} == old(streams) - {id} && pending - {id} == old(pending) - {id}
      ensures cells - {id} == old(cells) - {id}
      ensures activeStreams == if id in old(streams) && id !in streams && old(activeStreams) > 0
                               then old(activeStreams) - 1 else old(activeStreams)
      ensures spawned == old(spawned) + (if m.Data? && id in old(streams)
                                            && old(cells)[id].outstanding + |m.payload| > p.window
                                         then [Tagged(id, Reset)] else [])
      // Close and Reset end a stream: out of the map, credit closed, a pending connect failed.
      ensures m == Close || m == Reset ==> id !in streams
      ensures (m == Close || m == Reset) && id in old(streams) ==> id !in pending && cells[id].closed
      ensures (m == Close || m == Reset) && id in old(streams) && id in old(pending) ==> cells[id].reply == ReplyErr
      // An answer decides a pending connect, once.
      ensures m == ConnectOk || m == ConnectErr ==> id !in pending
      ensures (m == ConnectOk || m == ConnectErr) && id in cells ==>
        cells[id] == old(cells)[id].(reply := if id !in old(pending) then old(cells)[id].reply
                                              else if m == ConnectOk then ReplyOk else ReplyErr)
      // A grant raises the credit, never past the window.
      ensures m.WindowUpdate? && id in old(streams) && old(cells)[id].credit <= p.window ==>
        cells[id].credit == Least(old(cells)[id].credit + m.bytes, p.window)
      // Data within the window goes to the end of a listening stream's queue.
      ensures m.Data? && id in old(streams) && old(cells)[id].outstanding + |m.payload| <= p.window ==>
        if old(cells)[id].listening
        then id in streams && cells[id].queue == old(cells)[id].queue + [m.payload]
             && cells[id].outstanding == old(cells)[id].outstanding + |m.payload|
        else id !in streams
      ensures m.Data? && id in old(streams) && old(cells)[id].outstanding + |m.payload| > p.window ==> id !in streams
    {
      if id !in cells {
        return;
      }
      match m {
        case ConnectOk => Answer(id, ReplyOk);
        case ConnectErr => Answer(id, ReplyErr);
        case Data(payload) => HandleData(id, payload, e);
        case WindowUpdate(n) =>
          if id in streams {
            cells := cells[id := cells[id].(credit := Raised(p, cells[id].credit, n))];
          }
        case Close => RemoveStream(id, e, ByClose);
        case Reset => RemoveStream(id, e, ByReset);
        case Connect =>
      }
    }

    /** `shutdown`: pending connects fail, every stream is dropped with its credit closed,
        and the slot counter is zeroed. */
    method Shutdown()
      requires Valid()
      modifies this`streams, this`pending, this`cells, this`activeStreams
      ensures Valid() && streams == {} && pending == {} && activeStreams == 0
      ensures cells.Keys == old(cells).Keys
      ensures forall id :: id in cells ==>
        cells[id] == old(cells)[id].(reply := if id in old(pending) then ReplyErr else old(cells)[id].reply,
                                     closed := old(cells)[id].closed || id in old(streams))
    {
      cells := map id | id in cells :: if id in pending then cells[id].(reply := ReplyErr) else cells[id];
      pending := {};
      cells := map id | id in cells :: if id in streams then cells[id].(closed := true) else cells[id];
      streams := {};
      activeStreams := 0;
    }
  }

  /** What the connector's task shares with the map. */
  datatype ConnectorCell = ConnectorCell(queue: seq<Bytes>, finished: bool, credit: nat)

  /** `StreamState`: whether `request_tx` is still Some. */
  datatype StreamState = StreamState(requestOpen: bool)

  predicate Mirrors(streams: map<nat, StreamState>, cells: map<nat, ConnectorCell>, id: nat, e: Ends) {
    && (e.con.task != Absent && e.con.task != Refused <==> id in cells)
    && (e.con.entry <==> id in streams)
    && (e.con.reqOpen <==> id in streams && streams[id].requestOpen)
    && (id in cells ==>
          && (e.con.task == Finished <==> cells[id].finished)
          && e.up.queue == cells[id].queue
          && e.down.credit == cells[id].credit)
  }

  /** The streams whose task still runs, without `id`. */
  function Running(streams: map<nat, StreamState>, cells: map<nat, ConnectorCell>, id: nat): (r: map<nat, StreamState>)
    requires streams.Keys <= cells.Keys
    ensures r.Keys <= streams.Keys && id !in r
  {
    map j | j in streams && !cells[j].finished && j != id :: streams[j]
  }

  /** Reaping is what `Retain` does to a tunnel other than `id`. */
  lemma RetainMirrors(streams: map<nat, StreamState>, cells: map<nat, ConnectorCell>, id: nat, ends: map<nat, Ends>,
                      j: nat)
    requires streams.Keys <= cells.Keys && id !in streams && j in ends && Mirrors(streams, cells, j, ends[j])
    ensures Mirrors(Running(streams, cells, id), cells, j, Retain(ends)[j])
  {}

  lemma MirrorsElsewhere(streams: map<nat, StreamState>, cells: map<nat, ConnectorCell>, id: nat, j: nat, e: Ends,
                         s: StreamState, c: ConnectorCell)
    requires j != id && Mirrors(streams, cells, j, e)
    ensures Mirrors(streams[id := s], cells[id := c], j, e)
  {}

  /** The session after the connector has read a Connect for `id`. */
  function Connected(p: Params, cap: nat, ends: map<nat, Ends>, id: nat): (r: map<nat, Ends>)
    requires id in ends
    ensures r.Keys == ends.Keys
  {
    var kept := Retain(ends);
    kept[id := ConnectorGets(p, kept[id], Connect, |Entries(kept)| < cap)]
  }

  lemma ConnectedIsStep(p: Params, cap: nat, m: Session, id: nat)
    requires id in m.ends && m.toC != [] && m.toC[0] == Tagged(id, Connect)
    ensures Can(p, m, ConnectorReads) && Mux.Step(p, cap, m, ConnectorReads).ends == Connected(p, cap, m.ends, id)
  {}

  predicate IsNew(p: Params, e: Ends) {
    e.con.task == Absent && e.up.queue == [] && e.down.credit == p.window
  }

  predicate MirrorsAll(streams: map<nat, StreamState>, cells: map<nat, ConnectorCell>, ends: map<nat, Ends>) {
    && streams.Keys <= cells.Keys && streams.Keys <= ends.Keys
    && forall j :: j in ends ==> Mirrors(streams, cells, j, ends[j])
  }

  lemma RunningIsRetained(streams: map<nat, StreamState>, cells: map<nat, ConnectorCell>, id: nat, ends: map<nat, Ends>)
    requires MirrorsAll(streams, cells, ends) && id !in streams
    ensures |Running(streams, cells, id)| == |Entries(Retain(ends))|
  {
    forall j | j in ends ensures j in Running(streams, cells, id) <==> j in Entries(Retain(ends)) {
      assert Mirrors(streams, cells, j, ends[j]);
    }
    assert Running(streams, cells, id).Keys == Entries(Retain(ends));
  }

  lemma OpenedMirrors(p: Params, streams: map<nat, StreamState>, cells: map<nat, ConnectorCell>, id: nat, e: Ends,
                      accept: bool)
    requires id !in streams && IsNew(p, e) && Mirrors(streams, cells, id, e)
    ensures accept ==> Mirrors(streams[id := StreamState(true)], cells[id := ConnectorCell([], false, p.window)], id,
                               ConnectorGets(p, e, Connect, true))
    ensures !accept ==> Mirrors(streams, cells, id, ConnectorGets(p, e, Connect, false))
  {}

  /** A Connect, as one tunnel of the session sees it. */
  lemma ConnectMirrorsAt(p: Params, cap: nat, streams: map<nat, StreamState>, cells: map<nat, ConnectorCell>, id: nat,
                         ends: map<nat, Ends>, j: nat)
    requires MirrorsAll(streams, cells, ends) && id in ends && IsNew(p, ends[id]) && id !in streams && j in ends
    ensures var kept, after := Running(streams, cells, id), Connected(p, cap, ends, id);
      if |kept| < cap
      then Mirrors(kept[id := StreamState(true)], cells[id := ConnectorCell([], false, p.window)], j, after[j])
      else Mirrors(kept, cells, j, after[j])
  {
    hide ConnectorGets, Mirrors, Running, Entries;
    RunningIsRetained(streams, cells, id, ends);
    var kept := Running(streams, cells, id);
    RetainMirrors(streams, cells, id, ends, j);
    if j == id {
      OpenedMirrors(p, kept, cells, id, Retain(ends)[id], |kept| < cap);
    } else {
      MirrorsElsewhere(kept, cells, id, j, Retain(ends)[j], StreamState(true), ConnectorCell([], false, p.window));
    }
  }

  /** Reaping and opening together are the session's step. */
  lemma ConnectMirrors(p: Params, cap: nat, streams: map<nat, StreamState>, cells: map<nat, ConnectorCell>, id: nat,
                       ends: map<nat, Ends>)
    requires MirrorsAll(streams, cells, ends) && id in ends && IsNew(p, ends[id])
    ensures var kept, after := Running(streams, cells, id), Connected(p, cap, ends, id);
      if |kept| < cap
      then MirrorsAll(kept[id := StreamState(true)], cells[id := ConnectorCell([], false, p.window)], after)
      else MirrorsAll(kept, cells, after)
  {
    assert Mirrors(streams, cells, id, ends[id]);
    hide Mirrors, Running, Connected;
    forall j | j in ends
      ensures var kept, after := Running(streams, cells, id), Connected(p, cap, ends, id);
        if |kept| < cap
        then Mirrors(kept[id := StreamState(true)], cells[id := ConnectorCell([], false, p.window)], j, after[j])
        else Mirrors(kept, cells, j, after[j])
    {
      ConnectMirrorsAt(p, cap, streams, cells, id, ends, j);
    }
  }

  lemma CutAfterSet<V>(m: map<nat, V>, id: nat, v: V)
    ensures m[id := v] - {id} == m - {id} && |m[id := v]| <= |m| + 1
  {
    assert m[id := v].Keys == m.Keys + {id};
  }

  lemma ResetMirrors(p: Params, streams: map<nat, StreamState>, cells: map<nat, ConnectorCell>, id: nat, e: Ends)
    requires Mirrors(streams, cells, id, e)
    ensures Mirrors(streams - {id}, cells, id, ConnectorGets(p, e, Reset, false))
    ensures (streams - {id}) - {id} == streams - {id}
  {}

  class SessionManager {
    const p: Params
    const cap: nat
    var streams: map<nat, StreamState>
    var cells: map<nat, ConnectorCell>
    var spawned: seq<Tagged>

    constructor (p: Params, cap: nat)
      ensures Valid() && this.p == p && this.cap == cap && streams == map[] && cells == map[] && spawned == []
    {
      this.p, this.cap := p, cap;
      streams, cells, spawned := map[], map[], [];
    }

    predicate Valid()
      reads this
    {
      streams.Keys <= cells.Keys && |streams| <= cap
    }

    /** The connector's half of tunnel state `e` is what the manager holds for `id`. */
    ghost predicate Holds(id: nat, e: Ends)
      reads this
    {
      Mirrors(streams, cells, id, e)
    }

    /** What `handle_connect` keeps: streams whose task still runs, without a duplicate of
        the one being opened. */
    function Kept(id: nat): (r: map<nat, StreamState>)
      requires Valid()
      reads this
      ensures r.Keys <= streams.Keys - {id} && |r| <= |streams|
      ensures forall j :: j in streams && j != id ==> (j in r <==> !cells[j].finished)
      ensures forall j :: j in r ==> r[j] == streams[j]
    {
      var r := Running(streams, cells, id);
      Fewer(r.Keys, streams.Keys);
      r
    }

    /** `handle_connect`: reap, drop a duplicate, refuse at the cap, else start a task with a
        full window.  On a fresh stream it is the session's step, for the streams it reaps as
        for the one it opens. */
    method HandleConnect(id: nat, ghost ends: map<nat, Ends>)
      requires Valid() && MirrorsAll(streams, cells, ends) && id in ends
      modifies this
      ensures Valid()
      ensures var kept := old(Kept(id));
        && streams == (if |kept| < cap then kept[id := StreamState(true)] else kept)
        && spawned == old(spawned) + (if |kept| < cap then [] else [Tagged(id, ConnectErr)])
        && cells - {id} == old(cells) - {id}
        && (|kept| < cap ==> id in cells && cells[id] == ConnectorCell([], false, p.window))
      // Finished tasks have given their slots back, running ones are untouched.
      ensures forall j :: j in streams ==> !cells[j].finished
      ensures forall j :: j in old(streams) && j != id && !old(cells)[j].finished ==>
        j in streams && streams[j] == old(streams)[j]
      ensures IsNew(p, ends[id]) ==> MirrorsAll(streams, cells, Connected(p, cap, ends, id))
    {
      hide Connected, Mirrors, Running;
      if IsNew(p, ends[id]) { ConnectMirrors(p, cap, streams, cells, id, ends); }
      streams := Kept(id);
      if |streams| >= cap {
        spawned := spawned + [Tagged(id, ConnectErr)];
        return;
      }
      CutAfterSet(cells, id, ConnectorCell([], false, p.window));
      CutAfterSet(streams, id, StreamState(true));
      cells := cells[id := ConnectorCell([], false, p.window)];
      streams := streams[id := StreamState(true)];
    }

    /** The Data arm: to the task's queue, or drop the stream of a task that is gone. */
    method HandleData(id: nat, payload: Bytes, ghost e: Ends)
      requires Valid() && Holds(id, e)
      modifies this`streams, this`cells
      ensures Valid() && Holds(id, ConnectorGets(p, e, Data(payload), false))
      ensures streams - {id} == old(streams) - {id} && cells - {id} == old(cells) - {id}
      ensures id in old(streams) && old(streams)[id].requestOpen ==>
        if old(cells)[id].finished then id !in streams
        else streams == old(streams) && cells[id] == old(cells)[id].(queue := old(cells)[id].queue + [payload])
    {
      if id in streams && streams[id].requestOpen {
        if cells[id].finished {
          Remove(id);
        } else {
          cells := cells[id := cells[id].(queue := cells[id].queue + [payload])];
        }
      }
    }

    /** The Close arm: request EOF. */
    method HandleClose(id: nat, ghost e: Ends)
      requires Valid() && Holds(id, e)
      modifies this`streams
      ensures Valid() && Holds(id, ConnectorGets(p, e, Close, false))
      ensures streams - {id} == old(streams) - {id} && streams.Keys == old(streams).Keys
      ensures id in streams ==> !streams[id].requestOpen
    {
      if id in streams {
        assert streams.Keys == streams[id := StreamState(false)].Keys;
        streams := streams[id := StreamState(false)];
      }
    }

    method HandleGrant(id: nat, n: nat, ghost e: Ends)
      requires Valid() && Holds(id, e)
      modifies this`cells
      ensures Valid() && Holds(id, ConnectorGets(p, e, WindowUpdate(n), false))
      ensures cells - {id} == old(cells) - {id}
      ensures id in streams && old(cells)[id].credit <= p.window ==>
        cells[id].credit == Least(old(cells)[id].credit + n, p.window)
    {
      if id in streams {
        cells := cells[id := cells[id].(credit := Raised(p, cells[id].credit, n))];
      }
    }

    method HandleReset(id: nat, ghost e: Ends)
      requires Valid() && Holds(id, e)
      modifies this`streams
      ensures Valid() && Holds(id, ConnectorGets(p, e, Reset, false))
      ensures streams == old(streams) - {id} && streams - {id} == old(streams) - {id}
    {
      ResetMirrors(p, streams, cells, id, e);
      hide Mirrors, ConnectorGets;
      Remove(id);
    }

    /** `handle_message` on any message but Connect, for any stream. */
    method HandleMessage(id: nat, m: Msg, ghost e: Ends)
      requires Valid() && Holds(id, e) && !m.Connect?
      modifies this`streams, this`cells
      ensures Valid() && Holds(id, ConnectorGets(p, e, m, false))
      ensures streams - {id} == old(streams) - {id} && cells - {id} == old(cells) - {id}
      // Close half-closes: the stream stays, its request queue is shut.
      ensures m == Close ==> streams.Keys == old(streams).Keys && cells == old(cells)
      ensures m == Close && id in streams ==> !streams[id].requestOpen
      // Reset drops the stream.
      ensures m == Reset ==> streams == old(streams) - {id} && cells == old(cells)
      // A grant raises the credit, never past the window.
      ensures m.WindowUpdate? ==> streams == old(streams)
      ensures m.WindowUpdate? && id in streams && old(cells)[id].credit <= p.window ==>
        cells[id].credit == Least(old(cells)[id].credit + m.bytes, p.window)
      // Data goes to the end of an open request queue; without a task to read it the stream goes.
      ensures m.Data? && id in old(streams) && old(streams)[id].requestOpen ==>
        if old(cells)[id].finished then id !in streams
        else streams == old(streams) && cells[id] == old(cells)[id].(queue := old(cells)[id].queue + [m.payload])
    {
      hide Holds;
      match m {
        case Data(payload) => HandleData(id, payload, e);
        case Close => HandleClose(id, e);
        case Reset => HandleReset(id, e);
        case WindowUpdate(n) => HandleGrant(id, n, e);
        case ConnectOk =>
        case ConnectErr =>
      }
    }

    method Remove(id: nat)
      requires Valid()
      modifies this`streams
      ensures Valid() && streams == old(streams) - {id}
    {
      Fewer((streams - {id}).Keys, streams.Keys);
      streams := streams - {id};
    }
  }
}
