/** Any number of tunnels over one session: two first-in-first-out links shared by all of
    them, and a cap on the connector's streams.  Every step of the session is, for each
    tunnel, a step of that tunnel's own protocol or none at all, so what holds of one
    tunnel holds of all of them whatever the others do. */
module Mux {
  import opened Wrappers
  import opened FlowControl
  import opened Tunnel
  import opened TunnelInvariant

  datatype Tagged = Tagged(id: nat, m: Msg)
  datatype Session = Session(ends: map<nat, Ends>, toC: seq<Tagged>, toS: seq<Tagged>)

  function Init(): Session { Session(map[], [], []) }

  function Tag(id: nat, ms: seq<Msg>): seq<Tagged> {
    seq(|ms|, i requires 0 <= i < |ms| => Tagged(id, ms[i]))
  }

  /** The connector's map of streams. */
  function Entries(ends: map<nat, Ends>): set<nat> {
    set id | id in ends && ends[id].con.entry
  }

  /** `retain` in `handle_connect`: finished tasks give their slots back. */
  function Retain(ends: map<nat, Ends>): map<nat, Ends> {
    map id | id in ends ::
      if ends[id].con.entry && ends[id].con.task == Finished
      then ends[id].(con := ends[id].con.(entry := false, reqOpen := false)) else ends[id]
  }

  datatype SessionStep =
    | Open(id: nat)                 // a bridge registers a fresh stream id
    | ServerReads                   // the server's read loop handles the next message
    | ConnectorReads                // the connector's mux loop handles the next message
    | Task(id: nat, a: Act)         // a task of tunnel `id` takes a step

  predicate Can(p: Params, m: Session, st: SessionStep) {
    match st
    case Open(id) => id !in m.ends
    case ServerReads => m.toS != [] && m.toS[0].id in m.ends
    case ConnectorReads => m.toC != [] && m.toC[0].id in m.ends
    case Task(id, a) => id in m.ends && Enabled(p, m.ends[id], a) && a != Dial(Reap)
  }

  function Step(p: Params, cap: nat, m: Session, st: SessionStep): Session
    requires Can(p, m, st)
  {
    match st
    case Open(id) => m.(ends := m.ends[id := Opened(p)])
    case ServerReads =>
      var t := m.toS[0];
      m.(ends := m.ends[t.id := ServerGets(p, m.ends[t.id], t.m)], toS := m.toS[1..])
    case ConnectorReads =>
      var t := m.toC[0];
      var ends := if t.m.Connect? then Retain(m.ends) else m.ends;
      var accept := |Entries(ends)| < cap;
      m.(ends := ends[t.id := ConnectorGets(p, ends[t.id], t.m, accept)], toC := m.toC[1..])
    case Task(id, a) =>
      var o := Local(p, m.ends[id], a);
      Session(m.ends[id := o.e], m.toC + Tag(id, o.c), m.toS + Tag(id, o.s))
  }

  // ----- What one tunnel sees of the session -----

  function Only(q: seq<Tagged>, id: nat): seq<Msg> {
    if q == [] then []
    else if q[0].id == id then [q[0].m] + Only(q[1..], id)
    else Only(q[1..], id)
  }

  function View(m: Session, id: nat): Stream
    requires id in m.ends
  {
    Stream(m.ends[id], Only(m.toC, id), Only(m.toS, id))
  }

  lemma {:induction false} OnlyConcat(a: seq<Tagged>, b: seq<Tagged>, id: nat)
    ensures Only(a + b, id) == Only(a, id) + Only(b, id)
  {
    if a == [] {
      assert a + b == b;
    } else {
      OnlyConcat(a[1..], b, id);
      assert (a + b)[1..] == a[1..] + b && (a + b)[0] == a[0];
      assert [a[0].m] + (Only(a[1..], id) + Only(b, id)) == ([a[0].m] + Only(a[1..], id)) + Only(b, id);
    }
  }

  lemma {:induction false} OnlyTag(id: nat, ms: seq<Msg>, other: nat)
    ensures Only(Tag(id, ms), other) == if other == id then ms else []
    decreases |ms|
  {
    if ms != [] {
      OnlyTag(id, ms[1..], other);
      assert Tag(id, ms)[1..] == Tag(id, ms[1..]);
      assert ms == [ms[0]] + ms[1..];
    }
  }

  lemma {:induction false} OnlyUnknown(q: seq<Tagged>, id: nat)
    requires forall i :: 0 <= i < |q| ==> q[i].id != id
    ensures Only(q, id) == []
  {
    if q != [] { OnlyUnknown(q[1..], id); }
  }

  lemma TaskProjects(p: Params, cap: nat, m: Session, id: nat, a: Act, j: nat)
    requires Can(p, m, Task(id, a)) && j in m.ends
    ensures View(Step(p, cap, m, Task(id, a)), j)
         == if j == id then Next(p, View(m, id), Do(a)) else View(m, j)
  {
    var o := Local(p, m.ends[id], a);
    OnlyConcat(m.toC, Tag(id, o.c), j);
    OnlyConcat(m.toS, Tag(id, o.s), j);
    OnlyTag(id, o.c, j);
    OnlyTag(id, o.s, j);
    assert Only(m.toC, j) + [] == Only(m.toC, j) && Only(m.toS, j) + [] == Only(m.toS, j);
  }

  lemma ServerReadsProjects(p: Params, cap: nat, m: Session, j: nat)
    requires Can(p, m, ServerReads) && j in m.ends
    ensures var n := View(Step(p, cap, m, ServerReads), j);
      if m.toS[0].id == j then View(m, j).toS != [] && n == AfterServer(p, View(m, j)) else n == View(m, j)
  {}

  lemma ConnectorReadsProjects(p: Params, cap: nat, m: Session, j: nat)
    requires Can(p, m, ConnectorReads) && j in m.ends && Opening(View(m, j))
    ensures var s, n := View(m, j), View(Step(p, cap, m, ConnectorReads), j);
      if m.toC[0].id == j then
        && s.toC != []
        && n == AfterConnector(p, s, |Entries(if m.toC[0].m.Connect? then Retain(m.ends) else m.ends)| < cap)
      else if m.toC[0].m.Connect? && s.e.con.entry && s.e.con.task == Finished then
        n == AfterAct(p, s, Dial(Reap))
      else n == s
  {
    hide ConnectorGets, FlowControl.Cat;
    var s := View(m, j);
    if m.toC[0].id == j && m.toC[0].m.Connect? {
      assert s.toC[0] in s.toC;
      assert Retain(m.ends)[j] == m.ends[j];
    }
    assert s.toC + [] == s.toC && s.toS + [] == s.toS;
  }

  lemma ConnectGets(p: Params, e: Ends, accept: bool)
    ensures var c := ConnectorGets(p, e, Connect, accept).con;
      if accept then c.entry && c.task == Dialing && c.reqOpen
      else c.entry == e.con.entry && c.task == Refused && c.spawnedErr
  {}

  /** A Connect is accepted exactly when fewer than `cap` tasks are still running; finished ones
      give their entries back first and nobody else is touched. */
  lemma ConnectAcceptedIff(p: Params, cap: nat, m: Session)
    requires Can(p, m, ConnectorReads) && m.toC[0].m == Connect && !m.ends[m.toC[0].id].con.entry
    ensures var id, n := m.toC[0].id, Step(p, cap, m, ConnectorReads);
      var running := set j | j in m.ends && m.ends[j].con.entry && m.ends[j].con.task != Finished;
      && n.ends.Keys == m.ends.Keys
      && (if |running| < cap then n.ends[id].con.entry && n.ends[id].con.task == Dialing && n.ends[id].con.reqOpen
          else !n.ends[id].con.entry && n.ends[id].con.task == Refused && n.ends[id].con.spawnedErr)
      && forall j :: j in m.ends && j != id ==>
           (n.ends[j].con.entry <==> j in running) && (j in running ==> n.ends[j] == m.ends[j])
  {
    ConnectGets(p, m.ends[m.toC[0].id], |Entries(Retain(m.ends))| < cap);
    hide ConnectorGets;
    var running := set j | j in m.ends && m.ends[j].con.entry && m.ends[j].con.task != Finished;
    assert Entries(Retain(m.ends)) == running;
    var id := m.toC[0].id;
    assert Retain(m.ends)[id] == m.ends[id];
    assert Retain(m.ends).Keys == m.ends.Keys;
  }

  /** The step tunnel `j` takes when the session takes `st`, if any. */
  function StepOf(cap: nat, m: Session, st: SessionStep, j: nat): Option<Tunnel.Step>
    requires (st == ServerReads ==> m.toS != []) && (st == ConnectorReads ==> m.toC != []) && j in m.ends
  {
    match st
    case Open(_) => None
    case ServerReads => if m.toS[0].id == j then Some(AtServer) else None
    case ConnectorReads =>
      var connect := m.toC[0].m.Connect?;
      if m.toC[0].id == j then Some(AtConnector(|Entries(if connect then Retain(m.ends) else m.ends)| < cap))
      else if connect && m.ends[j].con.entry && m.ends[j].con.task == Finished then Some(Do(Dial(Reap)))
      else None
    case Task(id, a) => if id == j then Some(Do(a)) else None
  }

  /** Refinement: whatever the session does, a tunnel takes one of its own steps or stands
      still. */
  lemma SessionRefinesTunnel(p: Params, cap: nat, m: Session, st: SessionStep, j: nat)
    requires Can(p, m, st) && j in m.ends && Opening(View(m, j))
    ensures var s, n := View(m, j), View(Step(p, cap, m, st), j);
      match StepOf(cap, m, st, j)
      case None => n == s
      case Some(st') => CanStep(p, s, st') && n == Next(p, s, st')
  {
    hide Local, ServerGets, ConnectorGets, Opening, Only, AfterServer, AfterConnector, AfterAct;
    match st
    case Open(_) =>
    case ServerReads => ServerReadsProjects(p, cap, m, j);
    case ConnectorReads => ConnectorReadsProjects(p, cap, m, j);
    case Task(id, a) => TaskProjects(p, cap, m, id, a, j);
  }

  // ----- The session invariant -----

  predicate Known(m: Session, q: seq<Tagged>) {
    forall i :: 0 <= i < |q| ==> q[i].id in m.ends
  }

  ghost predicate Inv(p: Params, cap: nat, m: Session) {
    && (forall id :: id in m.ends ==> TunnelInvariant.Inv(p, View(m, id)))
    && Known(m, m.toC) && Known(m, m.toS)
    && |Entries(m.ends)| <= cap
  }

  lemma EntriesAfterRead(p: Params, cap: nat, m: Session)
    requires Can(p, m, ConnectorReads) && |Entries(m.ends)| <= cap
    ensures |Entries(Step(p, cap, m, ConnectorReads).ends)| <= cap
  {
    hide ConnectorGets;
    var n, t := Step(p, cap, m, ConnectorReads), m.toC[0];
    var ends := if t.m.Connect? then Retain(m.ends) else m.ends;
    ConnectorEntry(p, ends[t.id], t.m, |Entries(ends)| < cap);
    Fewer(Entries(ends), Entries(m.ends));
    if t.m.Connect? && |Entries(ends)| < cap {
      assert Entries(n.ends) == Entries(ends) + {t.id};
    } else {
      Fewer(Entries(n.ends), Entries(ends));
    }
  }

  /** The connector never holds more streams than the cap. */
  lemma EntriesAfter(p: Params, cap: nat, m: Session, st: SessionStep)
    requires Can(p, m, st) && |Entries(m.ends)| <= cap
    ensures |Entries(Step(p, cap, m, st).ends)| <= cap
  {
    hide ServerGets, ConnectorGets, Local;
    var n := Step(p, cap, m, st);
    match st
    case Open(id) => assert Entries(n.ends) == Entries(m.ends);
    case ServerReads =>
      ServerGetsFrame(p, m.ends[m.toS[0].id], m.toS[0].m);
      assert Entries(n.ends) == Entries(m.ends);
    case ConnectorReads => EntriesAfterRead(p, cap, m);
    case Task(id, a) =>
      LocalEntry(p, m.ends[id], a);
      Fewer(Entries(n.ends), Entries(m.ends));
  }

  lemma ConnectorEntry(p: Params, e: Ends, m: Msg, accept: bool)
    ensures ConnectorGets(p, e, m, accept).con.entry ==> e.con.entry || (m.Connect? && accept)
    ensures m.Connect? && accept ==> ConnectorGets(p, e, m, accept).con.entry
  {}

  lemma LocalEntry(p: Params, e: Ends, a: Act)
    requires Enabled(p, e, a)
    ensures Local(p, e, a).e.con.entry ==> e.con.entry
  {}

  lemma StepInv(p: Params, cap: nat, m: Session, st: SessionStep)
    requires p.Sane() && Inv(p, cap, m) && Can(p, m, st)
    ensures Inv(p, cap, Step(p, cap, m, st))
  {
    hide TunnelInvariant.Inv, CanStep, Next, Local, ServerGets, ConnectorGets, Opened, Only;
    var n := Step(p, cap, m, st);
    EntriesAfter(p, cap, m, st);
    forall id | id in n.ends
      ensures TunnelInvariant.Inv(p, View(n, id))
    {
      if id in m.ends {
        OpeningOf(p, View(m, id));
        SessionRefinesTunnel(p, cap, m, st, id);
        var o := StepOf(cap, m, st, id);
        if o.Some? { TunnelInvariant.StepInv(p, View(m, id), o.value); }
      } else {
        OnlyUnknown(m.toC, id);
        OnlyUnknown(m.toS, id);
        OpenedInv(p);
      }
    }
  }

  lemma OpeningOf(p: Params, s: Stream)
    requires TunnelInvariant.Inv(p, s)
    ensures Opening(s)
  {}
}
