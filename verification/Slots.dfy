/** The server's slot counter and pending connects, interleaved at every lock and atomic
    operation: bridges, the read loop and any number of `shutdown` calls run concurrently.
    `remove_stream` is four operations (take the map entry, close the credit, release the
    slot, fail the pending connect) and `shutdown` three (drain `pending`, drain `streams`,
    zero the counter); other threads may run between any two of them. */
module Slots {
  import opened Wrappers

  /** Where a bridge's task is. */
  datatype Phase =
    | Reserved                        // slot taken, nothing registered yet
    | Announced                       // in `pending`
    | Joined                          // in `streams`, sending Connect or awaiting the answer
    | Splicing
    | Quitting                        // about to call remove_stream for good
    | Took(resume: bool)              // own remove_stream: has the map entry
    | Freed(resume: bool)             // own remove_stream: has released the slot
    | Done

  datatype Reader = Idle | ReaderTook(id: nat) | ReaderFreed(id: nat)

  datatype Reply = Ok | Err

  /** What happened to a stream since it was announced. */
  datatype Event =
    | SawOk | SawErr                  // ConnectOk, ConnectErr processed
    | Removed                         // taken by the read loop: Close, Reset, window violation
    | Left                            // taken by its own task
    | Failed                          // pending connect failed by shutdown
    | Swept                           // map entry dropped by shutdown

  datatype State = State(
    limit: nat,
    active: nat,
    phase: map<nat, Phase>,
    streams: set<nat>,
    pending: set<nat>,
    replies: map<nat, Reply>,
    reader: Reader,
    shutdowns: map<nat, nat>,         // operations done by each shutdown call
    // histories
    slot: map<nat, Place>,            // where each reserved slot is
    held: set<nat>,                   // the slots still owed a release
    log: map<nat, seq<Event>>,
    spliced: set<nat>,
    clear: set<nat>)                  // announced while no shutdown stood between its drains

  /** Where a reserved slot is: with its bridge, with the map entry, with a remove_stream that
      has not released it, released, or dropped by a shutdown. */
  datatype Place = WithBridge | WithEntry | WithRemover | Released | Dropped

  function Init(limit: nat): State {
    State(limit, 0, map[], {}, {}, map[], Idle, map[], map[], {}, map[], {}, {})
  }

  /** A bridge's task. */
  datatype TaskAct =
    | Bridge
    | QuicEnd                         // a QUIC tunnel releases its slot itself
    | Announce | Join
    | TakeReply | GiveUp | SpliceEnds
    | Take | Release | Resolve        // its own remove_stream

  /** The read loop: one message at a time. */
  datatype ReadAct = ReadOk(id: nat) | ReadErr(id: nat) | ReadRemove(id: nat) | ReaderRelease | ReaderResolve

  datatype ShutAct = DrainPending | DrainStreams | Zero

  datatype Step = Task(id: nat, a: TaskAct) | Read(r: ReadAct) | Shut(k: nat, s: ShutAct)

  predicate TaskCan(s: State, id: nat, a: TaskAct) {
    if a == Bridge then id !in s.phase && s.active < s.limit
    else
      id in s.phase &&
      var ph := s.phase[id];
      match a
      case Bridge => false
      case QuicEnd => ph == Reserved
      case Announce => ph == Reserved
      case Join => ph == Announced
      case TakeReply => ph == Joined && id in s.replies
      case GiveUp => ph == Joined
      case SpliceEnds => ph == Splicing
      // A bridge leaves for good, or a failed client read removes the stream mid-splice.
      case Take => ph == Quitting || ph == Splicing
      case Release => ph.Took?
      case Resolve => ph.Freed?
  }

  predicate ReadCan(s: State, r: ReadAct) {
    match r
    case ReadOk(_) => s.reader == Idle
    case ReadErr(_) => s.reader == Idle
    case ReadRemove(_) => s.reader == Idle
    case ReaderRelease => s.reader.ReaderTook?
    case ReaderResolve => s.reader.ReaderFreed?
  }

  predicate ShutCan(s: State, k: nat, a: ShutAct) {
    match a
    case DrainPending => k !in s.shutdowns
    case DrainStreams => k in s.shutdowns && s.shutdowns[k] == 1
    case Zero => k in s.shutdowns && s.shutdowns[k] == 2
  }

  predicate Can(s: State, st: Step) {
    match st
    case Task(id, a) => TaskCan(s, id, a)
    case Read(r) => ReadCan(s, r)
    case Shut(k, a) => ShutCan(s, k, a)
  }

  function Set(s: State, id: nat, ph: Phase): State { s.(phase := s.phase[id := ph]) }

  /** Events before a stream is announced, or for an unknown id, concern no connect. */
  function Note(s: State, id: nat, e: Event): (n: State)
    ensures n == s.(log := n.log)
  {
    if id in s.phase && s.phase[id] != Reserved && id in s.log then s.(log := s.log[id := s.log[id] + [e]]) else s
  }

  function NoteAll(s: State, ids: set<nat>, e: Event): State {
    s.(log := map id | id in s.log :: if id in ids then s.log[id] + [e] else s.log[id])
  }

  function Answer(s: State, id: nat, r: Reply): (n: State)
    ensures n == s.(pending := n.pending, replies := n.replies)
  {
    if id in s.pending then s.(pending := s.pending - {id}, replies := s.replies[id := r]) else s
  }

  /** `release_stream_slot`: the decrement saturates. */
  function Less(n: nat): nat { if n == 0 then 0 else n - 1 }

  function Put(s: State, id: nat, pl: Place): State { s.(slot := s.slot[id := pl]) }

  /** Hand a slot back. */
  function Return(s: State, id: nat): State {
    s.(active := Less(s.active), slot := s.slot[id := Released], held := s.held - {id})
  }

  /** Some shutdown has drained `pending` and not yet `streams`. */
  predicate HalfShut(s: State) {
    exists k :: k in s.shutdowns && s.shutdowns[k] == 1
  }

  /** A bridge's own `remove_stream` has the map entry. */
  function Taken(s: State, id: nat, resume: bool): State {
    Put(Set(Note(s, id, Left), id, Took(resume)), id, WithRemover).(streams := s.streams - {id})
  }

  function TaskStep(s: State, id: nat, a: TaskAct): State
    requires TaskCan(s, id, a)
  {
    match a
    case Bridge => Put(Set(s, id, Reserved), id, WithBridge).(active := s.active + 1, held := s.held + {id})
    case QuicEnd => Return(Set(s, id, Done), id)
    case Announce => Set(s, id, Announced).(
        pending := s.pending + {id}, log := s.log[id := []],
        clear := if HalfShut(s) then s.clear else s.clear + {id})
    case Join => Put(Set(s, id, Joined), id, WithEntry).(streams := s.streams + {id})
    case TakeReply =>
      if s.replies[id] == Ok then Set(s, id, Splicing).(spliced := s.spliced + {id}) else Set(s, id, Quitting)
    case GiveUp => Set(s, id, Quitting)
    case SpliceEnds => Set(s, id, Quitting)
    case Take =>
      var resume := s.phase[id] == Splicing;
      if id in s.streams then Taken(s, id, resume) else if resume then s else Set(s, id, Done)
    case Release => Return(Set(s, id, Freed(s.phase[id].resume)), id)
    case Resolve => Set(Answer(s, id, Err), id, if s.phase[id].resume then Splicing else Done)
  }

  /** The read loop's `remove_stream` has the map entry. */
  function ReadTaken(s: State, id: nat): State {
    Put(Note(s, id, Removed), id, WithRemover).(streams := s.streams - {id}, reader := ReaderTook(id))
  }

  function ReadStep(s: State, r: ReadAct): State
    requires ReadCan(s, r)
  {
    match r
    case ReadOk(id) => Answer(Note(s, id, SawOk), id, Ok)
    case ReadErr(id) => Answer(Note(s, id, SawErr), id, Err)
    case ReadRemove(id) =>
      if id in s.streams then ReadTaken(s, id) else s
    case ReaderRelease => Return(s.(reader := ReaderFreed(s.reader.id)), s.reader.id)
    case ReaderResolve => Answer(s, s.reader.id, Err).(reader := Idle)
  }

  function ShutStep(s: State, k: nat, a: ShutAct): State
    requires ShutCan(s, k, a)
  {
    match a
    case DrainPending =>
      NoteAll(s, s.pending, Failed).(
        replies := map id | id in s.replies.Keys + s.pending :: if id in s.pending then Err else s.replies[id],
        pending := {}, shutdowns := s.shutdowns[k := 1])
    case DrainStreams =>
      NoteAll(s, s.streams, Swept).(
        slot := map id | id in s.slot :: if id in s.streams then Dropped else s.slot[id],
        held := s.held - s.streams, streams := {}, shutdowns := s.shutdowns[k := 2])
    case Zero => s.(active := 0, shutdowns := s.shutdowns[k := 3])
  }

  function Next(s: State, st: Step): State
    requires Can(s, st)
  {
    match st
    case Task(id, a) => TaskStep(s, id, a)
    case Read(r) => ReadStep(s, r)
    case Shut(k, a) => ShutStep(s, k, a)
  }

  // ----- Slot accounting -----

  predicate ShutIdle(s: State) {
    forall k :: k in s.shutdowns ==> s.shutdowns[k] != 2
  }

  predicate IsOwed(pl: Place) { pl == WithBridge || pl == WithEntry || pl == WithRemover }

  /** One slot agrees with its task, the map and the read loop. */
  predicate SlotOk(s: State, id: nat)
    requires id in s.phase && id in s.slot
  {
    && (id in s.held <==> IsOwed(s.slot[id]))
    && (id in s.streams <==> s.slot[id] == WithEntry)
    && (s.phase[id] == Reserved || s.phase[id] == Announced <==> s.slot[id] == WithBridge)
    && (s.phase[id].Took? ==> s.slot[id] == WithRemover && s.reader != ReaderTook(id))
    && (s.reader == ReaderTook(id) ==> s.slot[id] == WithRemover)
    && (s.slot[id] == WithRemover ==> s.phase[id].Took? || s.reader == ReaderTook(id))
    && (s.phase[id].Freed? ==> s.slot[id] == Released)
    && (s.phase[id] == Done ==> id !in s.streams)
    && (s.slot[id] == Dropped ==> s.shutdowns != map[])
  }

  predicate Placed(s: State) {
    && s.slot.Keys == s.phase.Keys
    && s.held <= s.slot.Keys && s.streams <= s.slot.Keys
    && (s.reader != Idle ==> s.reader.id in s.slot)
    && forall id :: id in s.slot ==> SlotOk(s, id)
  }

  predicate Counted(s: State) {
    && s.active <= s.limit
    && (s.shutdowns == map[] ==> s.active == |s.held|)
    && (ShutIdle(s) ==> s.active <= |s.held|)
  }

  lemma InitSlots(limit: nat)
    ensures Placed(Init(limit)) && Counted(Init(limit))
  {}

  /** Slot `j` looks the same in both states. */
  predicate Alike(s: State, n: State, j: nat) {
    && (j in n.slot <==> j in s.slot) && (j in s.slot ==> j in n.slot && n.slot[j] == s.slot[j])
    && (j in n.phase <==> j in s.phase) && (j in s.phase ==> j in n.phase && n.phase[j] == s.phase[j])
    && (j in n.held <==> j in s.held) && (j in n.streams <==> j in s.streams)
    && (n.reader == ReaderTook(j) <==> s.reader == ReaderTook(j))
  }

  lemma PlacedAt(s: State, n: State, id: nat)
    requires Placed(s) && n.shutdowns == s.shutdowns
    requires forall j :: j != id ==> Alike(s, n, j)
    requires id in n.slot && id in n.phase && SlotOk(n, id)
    requires n.reader != Idle ==> n.reader.id in n.slot
    ensures Placed(n)
  {
    forall j | j in n.slot && j != id
      ensures j in n.phase && SlotOk(n, j)
    {
      assert Alike(s, n, j) && SlotOk(s, j);
    }
    assert forall j :: j in n.phase ==> j in n.slot by {
      assert forall j :: j in n.phase && j != id ==> Alike(s, n, j);
    }
    assert forall j :: j in n.held && j != id ==> Alike(s, n, j);
    assert forall j :: j in n.streams && j != id ==> Alike(s, n, j);
  }

  lemma TaskAlike(s: State, id: nat, a: TaskAct, j: nat)
    requires TaskCan(s, id, a) && j != id
    ensures Alike(s, TaskStep(s, id, a), j)
  {
    hide TaskStep;
    if Leaving(a) { LeaveAlike(s, id, a, j); } else { ArriveAlike(s, id, a, j); }
  }

  lemma LeaveAlike(s: State, id: nat, a: TaskAct, j: nat)
    requires TaskCan(s, id, a) && j != id && Leaving(a)
    ensures Alike(s, TaskStep(s, id, a), j)
  {}

  lemma ArriveAlike(s: State, id: nat, a: TaskAct, j: nat)
    requires TaskCan(s, id, a) && j != id && !Leaving(a)
    ensures Alike(s, TaskStep(s, id, a), j)
  {}

  predicate Leaving(a: TaskAct) { a == Take || a == Release || a == Resolve }

  lemma ArriveSlotOk(s: State, id: nat, a: TaskAct)
    requires Placed(s) && TaskCan(s, id, a) && !Leaving(a)
    ensures var n := TaskStep(s, id, a); id in n.slot && id in n.phase && SlotOk(n, id)
  {
    assert id in s.slot ==> SlotOk(s, id);
  }

  lemma LeaveSlotOk(s: State, id: nat, a: TaskAct)
    requires Placed(s) && TaskCan(s, id, a) && Leaving(a)
    ensures var n := TaskStep(s, id, a); id in n.slot && id in n.phase && SlotOk(n, id)
  {
    assert SlotOk(s, id);
  }

  lemma TaskFrame(s: State, id: nat, a: TaskAct)
    requires TaskCan(s, id, a)
    ensures var n := TaskStep(s, id, a);
      && n.shutdowns == s.shutdowns && n.reader == s.reader
      && (forall k :: k in s.slot ==> k in n.slot)
  {
    hide Taken;
    if a == Take { TakenFrame(s, id, s.phase[id] == Splicing); }
  }

  lemma TakenFrame(s: State, id: nat, resume: bool)
    ensures var n := Taken(s, id, resume);
      n.shutdowns == s.shutdowns && n.reader == s.reader && forall k :: k in s.slot ==> k in n.slot
  {}

  lemma TaskPlaced(s: State, id: nat, a: TaskAct)
    requires Placed(s) && TaskCan(s, id, a)
    ensures Placed(TaskStep(s, id, a))
  {
    hide TaskStep;
    TaskFrame(s, id, a);
    if Leaving(a) { LeaveSlotOk(s, id, a); } else { ArriveSlotOk(s, id, a); }
    forall j | j != id
      ensures Alike(s, TaskStep(s, id, a), j)
    {
      TaskAlike(s, id, a, j);
    }
    PlacedAt(s, TaskStep(s, id, a), id);
  }

  function ReadId(s: State, r: ReadAct): nat
    requires ReadCan(s, r)
  {
    match r
    case ReadOk(id) => id
    case ReadErr(id) => id
    case ReadRemove(id) => id
    case ReaderRelease => s.reader.id
    case ReaderResolve => s.reader.id
  }

  lemma ReadAlike(s: State, r: ReadAct, j: nat)
    requires ReadCan(s, r) && j != ReadId(s, r)
    ensures Alike(s, ReadStep(s, r), j)
  {}

  lemma ReadSlotOk(s: State, r: ReadAct)
    requires Placed(s) && ReadCan(s, r) && ReadId(s, r) in s.slot
    ensures var n, id := ReadStep(s, r), ReadId(s, r);
      && n.shutdowns == s.shutdowns && (n.reader == Idle || n.reader.id == id)
      && id in n.slot && id in n.phase && SlotOk(n, id)
  {
    if r == ReaderRelease || r == ReaderResolve { ReaderSlotOk(s, r); } else { MessageSlotOk(s, r); }
  }

  lemma ReaderSlotOk(s: State, r: ReadAct)
    requires Placed(s) && ReadCan(s, r) && ReadId(s, r) in s.slot && (r == ReaderRelease || r == ReaderResolve)
    ensures var n, id := ReadStep(s, r), ReadId(s, r);
      && n.shutdowns == s.shutdowns && (n.reader == Idle || n.reader.id == id)
      && id in n.slot && id in n.phase && SlotOk(n, id)
  {
    assert SlotOk(s, ReadId(s, r));
  }

  lemma MessageSlotOk(s: State, r: ReadAct)
    requires Placed(s) && ReadCan(s, r) && ReadId(s, r) in s.slot && r != ReaderRelease && r != ReaderResolve
    ensures var n, id := ReadStep(s, r), ReadId(s, r);
      && n.shutdowns == s.shutdowns && (n.reader == Idle || n.reader.id == id)
      && id in n.slot && id in n.phase && SlotOk(n, id)
  {
    assert SlotOk(s, ReadId(s, r));
  }

  lemma ReadPlaced(s: State, r: ReadAct)
    requires Placed(s) && ReadCan(s, r)
    ensures Placed(ReadStep(s, r))
  {
    var id := ReadId(s, r);
    if id in s.slot {
      hide ReadStep;
      ReadSlotOk(s, r);
      forall j | j != id
        ensures Alike(s, ReadStep(s, r), j)
      {
        ReadAlike(s, r, j);
      }
      PlacedAt(s, ReadStep(s, r), id);
    } else {
      UnknownRead(s, r);
    }
  }

  /** A message about a stream that does not exist changes nothing but a stray answer. */
  lemma UnknownRead(s: State, r: ReadAct)
    requires Placed(s) && ReadCan(s, r) && ReadId(s, r) !in s.slot
    ensures Placed(ReadStep(s, r))
    ensures ReadStep(s, r) == s.(pending := ReadStep(s, r).pending, replies := ReadStep(s, r).replies)
  {
    var n := ReadStep(s, r);
    forall id | id in n.slot
      ensures SlotOk(n, id)
    {
      assert SlotOk(s, id);
    }
  }

  lemma ShutPlaced(s: State, k: nat, a: ShutAct)
    requires Placed(s) && ShutCan(s, k, a)
    ensures Placed(ShutStep(s, k, a))
  {
    var n := ShutStep(s, k, a);
    assert n.shutdowns[k] != 0 && k in n.shutdowns;
    forall id | id in n.slot
      ensures SlotOk(n, id)
    {
      assert SlotOk(s, id);
    }
  }

  // ----- The counter -----

  lemma OwnsSlot(s: State, id: nat, a: TaskAct)
    requires Placed(s) && TaskCan(s, id, a)
    ensures a == Bridge ==> id !in s.held
    ensures a == QuicEnd || a == Release ==> id in s.held
  {
    assert id in s.slot ==> SlotOk(s, id);
  }

  lemma TaskLedger(s: State, id: nat, a: TaskAct)
    requires TaskCan(s, id, a)
    ensures var n := TaskStep(s, id, a);
      && n.limit == s.limit && n.shutdowns == s.shutdowns
      && (a == Bridge ==> s.active < s.limit && n.active == s.active + 1 && n.held == s.held + {id})
      && (a == QuicEnd || a == Release ==> n.active == Less(s.active) && n.held == s.held - {id})
      && (a != Bridge && a != QuicEnd && a != Release ==> n.active == s.active && n.held == s.held)
  {
    match a
    case Take =>
    case Announce =>
    case Resolve =>
    case _ =>
  }

  lemma TaskCounted(s: State, id: nat, a: TaskAct)
    requires Placed(s) && Counted(s) && TaskCan(s, id, a)
    ensures Counted(TaskStep(s, id, a))
  {
    hide Placed, TaskStep, TaskCan;
    OwnsSlot(s, id, a);
    TaskLedger(s, id, a);
  }

  lemma ReadCounted(s: State, r: ReadAct)
    requires Placed(s) && Counted(s) && ReadCan(s, r)
    ensures Counted(ReadStep(s, r))
  {
    if r == ReaderRelease {
      assert SlotOk(s, s.reader.id);
      assert s.reader.id in s.held;
    }
  }

  lemma ShutCounted(s: State, k: nat, a: ShutAct)
    requires Placed(s) && Counted(s) && ShutCan(s, k, a)
    ensures Counted(ShutStep(s, k, a))
  {
    var n := ShutStep(s, k, a);
    assert k in n.shutdowns;
    if a == DrainPending {
      assert forall j :: j in s.shutdowns ==> n.shutdowns[j] == s.shutdowns[j];
    }
  }

  // ----- The outcome of a connect -----

  /** The first event that can decide a connect. */
  function First(log: seq<Event>): (r: Option<Event>) {
    if log == [] then None
    else if log[0] == Swept then First(log[1..]) else Some(log[0])
  }

  lemma {:induction false} FirstStays(log: seq<Event>, e: Event)
    ensures First(log) != None ==> First(log + [e]) == First(log)
    ensures First(log) == None ==> First(log + [e]) == if e == Swept then None else Some(e)
  {
    if log == [] {
      assert log + [e] == [e];
    } else {
      assert (log + [e])[1..] == log[1..] + [e];
      if log[0] == Swept { FirstStays(log[1..], e); }
    }
  }

  /** A bridge that still listens for its answer. */
  predicate Listening(ph: Phase) { ph == Announced || ph == Joined }

  predicate ReaderOn(s: State, id: nat) {
    s.reader == ReaderTook(id) || s.reader == ReaderFreed(id)
  }

  /** While a listening bridge is pending nothing has decided it, except a removal whose last
      operation the read loop still owes; after that it has an answer, Ok just when ConnectOk
      came first. */
  predicate OutcomeOk(s: State, id: nat) {
    var waiting := id in s.phase && Listening(s.phase[id]);
    && (id in s.log ==> id in s.phase && s.phase[id] != Reserved)
    && (id in s.phase && s.phase[id] != Reserved && s.phase[id] != Done ==> id in s.log)
    && (id !in s.log ==>
          id !in s.pending && id !in s.replies && id !in s.spliced && id !in s.streams && !ReaderOn(s, id))
    && (id in s.pending ==> id !in s.replies)
    && (waiting && id in s.log && id in s.pending && First(s.log[id]) != None ==>
          First(s.log[id]) == Some(Removed) && ReaderOn(s, id))
    && (waiting ==> id in s.pending || id in s.replies)
    && (waiting && id in s.log && ReaderOn(s, id) ==> First(s.log[id]) != None)
    && (waiting && id in s.log && id in s.replies ==>
          First(s.log[id]) != None && (s.replies[id] == Ok <==> First(s.log[id]) == Some(SawOk)))
    && (id in s.spliced && id in s.log ==> First(s.log[id]) == Some(SawOk))
  }

  /** A connect announced clear of half-way shutdowns is decided before it is swept. */
  predicate ClearOk(s: State, id: nat) {
    id in s.clear ==>
      && id in s.log && id in s.phase
      && (id in s.pending ==> !HalfShut(s))
      && (s.log[id] == [] ==> id in s.pending && !s.phase[id].Took? && !s.phase[id].Freed? && !ReaderOn(s, id))
      && (s.log[id] != [] ==> s.log[id][0] != Swept)
  }

  ghost predicate Outcomes(s: State) {
    forall id: nat :: OutcomeOk(s, id) && ClearOk(s, id)
  }

  predicate SameStory(s: State, n: State, j: nat) {
    && (j in n.phase <==> j in s.phase) && (j in s.phase ==> j in n.phase && n.phase[j] == s.phase[j])
    && (j in n.log <==> j in s.log) && (j in s.log ==> j in n.log && n.log[j] == s.log[j])
    && (j in n.replies <==> j in s.replies) && (j in s.replies ==> j in n.replies && n.replies[j] == s.replies[j])
    && (j in n.pending <==> j in s.pending) && (j in n.spliced <==> j in s.spliced)
    && (j in n.streams ==> j in s.streams)
    && (ReaderOn(s, j) <==> ReaderOn(n, j))
    && (j in n.clear <==> j in s.clear) && n.shutdowns == s.shutdowns
  }

  lemma StoryKeeps(s: State, n: State, j: nat)
    requires OutcomeOk(s, j) && ClearOk(s, j) && SameStory(s, n, j)
    ensures OutcomeOk(n, j) && ClearOk(n, j)
  {}

  lemma PutStory(s: State, n: State, id: nat, ph: Phase, j: nat)
    requires j != id && SameStory(s, n, j)
    ensures SameStory(s, Set(n, id, ph), j)
    ensures SameStory(s, Set(n, id, ph).(streams := n.streams - {id}), j)
  {}

  lemma TakenStory(s: State, id: nat, resume: bool, j: nat)
    requires j != id
    ensures SameStory(s, Taken(s, id, resume), j)
  {
    NoteStory(s, id, Left, j);
    hide Note;
    PutStory(s, Note(s, id, Left), id, Took(resume), j);
  }

  lemma RemovalStory(s: State, id: nat, a: TaskAct, j: nat)
    requires TaskCan(s, id, a) && j != id && Leaving(a)
    ensures SameStory(s, TaskStep(s, id, a), j)
  {
    hide Taken;
    if a == Take {
      TakenStory(s, id, s.phase[id] == Splicing, j);
    } else if a == Resolve {
      AnswerStory(s, id, Err, j);
    }
  }

  lemma TaskStory(s: State, id: nat, a: TaskAct, j: nat)
    requires TaskCan(s, id, a) && j != id
    ensures SameStory(s, TaskStep(s, id, a), j)
  {
    hide HalfShut, Note, Answer;
    if a == Take || a == Release || a == Resolve {
      RemovalStory(s, id, a, j);
    }
  }

  lemma TaskOutcome(s: State, id: nat, a: TaskAct)
    requires OutcomeOk(s, id) && TaskCan(s, id, a)
    ensures OutcomeOk(TaskStep(s, id, a), id)
  {
    hide TaskStep, OutcomeOk;
    if Leaving(a) { LeaveOutcome(s, id, a); } else { ArriveOutcome(s, id, a); }
  }

  lemma LeaveOutcome(s: State, id: nat, a: TaskAct)
    requires OutcomeOk(s, id) && TaskCan(s, id, a) && Leaving(a)
    ensures OutcomeOk(TaskStep(s, id, a), id)
  {
    hide First;
    if a == Take { TakeOutcome(s, id); }
  }

  lemma TakeOutcome(s: State, id: nat)
    requires OutcomeOk(s, id) && TaskCan(s, id, Take)
    ensures OutcomeOk(TaskStep(s, id, Take), id)
  {
    if id in s.log { FirstStays(s.log[id], Left); }
    hide First;
  }

  lemma ArriveOutcome(s: State, id: nat, a: TaskAct)
    requires OutcomeOk(s, id) && TaskCan(s, id, a) && !Leaving(a)
    ensures OutcomeOk(TaskStep(s, id, a), id)
  {}

  lemma NoteStory(s: State, id: nat, e: Event, j: nat)
    requires j != id
    ensures SameStory(s, Note(s, id, e), j)
  {}

  lemma AnswerStory(s: State, id: nat, r: Reply, j: nat)
    requires j != id
    ensures SameStory(s, Answer(s, id, r), j) && Answer(s, id, r).reader == s.reader
  {}

  lemma TaskClear(s: State, id: nat, a: TaskAct)
    requires OutcomeOk(s, id) && ClearOk(s, id) && TaskCan(s, id, a)
    ensures ClearOk(TaskStep(s, id, a), id)
  {
    hide TaskStep, OutcomeOk, ClearOk;
    if Leaving(a) { LeaveClear(s, id, a); } else { ArriveClear(s, id, a); }
  }

  lemma LeaveClear(s: State, id: nat, a: TaskAct)
    requires OutcomeOk(s, id) && ClearOk(s, id) && TaskCan(s, id, a) && Leaving(a)
    ensures ClearOk(TaskStep(s, id, a), id)
  {
    hide First;
  }

  lemma ArriveClear(s: State, id: nat, a: TaskAct)
    requires OutcomeOk(s, id) && ClearOk(s, id) && TaskCan(s, id, a) && !Leaving(a)
    ensures ClearOk(TaskStep(s, id, a), id)
  {
    hide First;
  }

  lemma ReadClear(s: State, r: ReadAct)
    requires ReadCan(s, r) && OutcomeOk(s, ReadId(s, r)) && ClearOk(s, ReadId(s, r))
    ensures ClearOk(ReadStep(s, r), ReadId(s, r))
  {
    hide First;
  }

  lemma ShutClear(s: State, k: nat, a: ShutAct, j: nat)
    requires OutcomeOk(s, j) && ClearOk(s, j) && ShutCan(s, k, a)
    ensures ClearOk(ShutStep(s, k, a), j)
  {
    hide First;
    var n := ShutStep(s, k, a);
    if a == DrainStreams { assert HalfShut(s); }
    if HalfShut(n) && a != DrainPending {
      var h :| h in n.shutdowns && n.shutdowns[h] == 1;
      assert h in s.shutdowns && s.shutdowns[h] == 1;
    }
  }

  lemma ReadStory(s: State, r: ReadAct, j: nat)
    requires ReadCan(s, r) && j != ReadId(s, r)
    ensures SameStory(s, ReadStep(s, r), j)
  {
    hide Note, Answer, ReadTaken;
    match r
    case ReadOk(id) => DecidedStory(s, id, SawOk, Ok, j);
    case ReadErr(id) => DecidedStory(s, id, SawErr, Err, j);
    case ReadRemove(id) => ReadTakenStory(s, id, j);
    case ReaderRelease =>
    case ReaderResolve => AnswerStory(s, s.reader.id, Err, j);
  }

  lemma DecidedStory(s: State, id: nat, e: Event, r: Reply, j: nat)
    requires j != id
    ensures SameStory(s, Answer(Note(s, id, e), id, r), j)
  {
    NoteStory(s, id, e, j);
    hide Note;
    AnswerStory(Note(s, id, e), id, r, j);
  }

  lemma ReadTakenStory(s: State, id: nat, j: nat)
    requires j != id && s.reader == Idle
    ensures SameStory(s, ReadTaken(s, id), j)
  {
    NoteStory(s, id, Removed, j);
    hide Note;
  }

  lemma ReadOutcome(s: State, r: ReadAct)
    requires ReadCan(s, r) && OutcomeOk(s, ReadId(s, r))
    ensures OutcomeOk(ReadStep(s, r), ReadId(s, r))
  {
    var id := ReadId(s, r);
    if id in s.log {
      FirstStays(s.log[id], SawOk);
      FirstStays(s.log[id], SawErr);
      FirstStays(s.log[id], Removed);
    }
  }

  lemma ShutOutcome(s: State, k: nat, a: ShutAct, j: nat)
    requires OutcomeOk(s, j) && ShutCan(s, k, a)
    ensures OutcomeOk(ShutStep(s, k, a), j)
  {
    if j in s.log {
      FirstStays(s.log[j], Failed);
      FirstStays(s.log[j], Swept);
    }
  }

  // ----- Runs -----

  ghost predicate Inv(s: State) { Placed(s) && Counted(s) && Outcomes(s) }

  lemma TaskInv(s: State, id: nat, a: TaskAct)
    requires Inv(s) && TaskCan(s, id, a)
    ensures Inv(TaskStep(s, id, a))
  {
    hide Placed, Counted, TaskStep, OutcomeOk, ClearOk;
    TaskPlaced(s, id, a);
    TaskCounted(s, id, a);
    forall j: nat
      ensures OutcomeOk(TaskStep(s, id, a), j) && ClearOk(TaskStep(s, id, a), j)
    {
      assert OutcomeOk(s, j) && ClearOk(s, j);
      if j == id { TaskOutcome(s, id, a); TaskClear(s, id, a); }
      else { TaskStory(s, id, a, j); StoryKeeps(s, TaskStep(s, id, a), j); }
    }
  }

  lemma ReadInv(s: State, r: ReadAct)
    requires Inv(s) && ReadCan(s, r)
    ensures Inv(ReadStep(s, r))
  {
    hide Placed, Counted, ReadStep, OutcomeOk, ClearOk;
    ReadPlaced(s, r);
    ReadCounted(s, r);
    forall j: nat
      ensures OutcomeOk(ReadStep(s, r), j) && ClearOk(ReadStep(s, r), j)
    {
      assert OutcomeOk(s, j) && ClearOk(s, j);
      if j == ReadId(s, r) { ReadOutcome(s, r); ReadClear(s, r); }
      else { ReadStory(s, r, j); StoryKeeps(s, ReadStep(s, r), j); }
    }
  }

  lemma ShutInv(s: State, k: nat, a: ShutAct)
    requires Inv(s) && ShutCan(s, k, a)
    ensures Inv(ShutStep(s, k, a))
  {
    hide Placed, Counted, ShutStep, OutcomeOk, ClearOk;
    ShutPlaced(s, k, a);
    ShutCounted(s, k, a);
    forall j: nat
      ensures OutcomeOk(ShutStep(s, k, a), j) && ClearOk(ShutStep(s, k, a), j)
    {
      assert OutcomeOk(s, j) && ClearOk(s, j);
      ShutOutcome(s, k, a, j);
      ShutClear(s, k, a, j);
    }
  }

  ghost predicate Reaches(s: State, n: State) {
    exists st :: Can(s, st) && n == Next(s, st)
  }

  ghost predicate IsRun(limit: nat, run: seq<State>) {
    && run != [] && run[0] == Init(limit)
    && forall i :: 0 < i < |run| ==> Reaches(run[i - 1], run[i])
  }

  lemma StepInv(s: State, st: Step)
    requires Inv(s) && Can(s, st)
    ensures Inv(Next(s, st))
  {
    hide Inv, TaskStep, ReadStep, ShutStep;
    match st
    case Task(id, a) => TaskInv(s, id, a);
    case Read(r) => ReadInv(s, r);
    case Shut(k, a) => ShutInv(s, k, a);
  }

  lemma {:induction false} RunInv(limit: nat, run: seq<State>, i: nat)
    requires IsRun(limit, run) && i < |run|
    ensures Inv(run[i])
  {
    hide Next, Can, Placed, Counted, OutcomeOk;
    if i == 0 {
      InitSlots(limit);
      assert Outcomes(run[0]) by { InitOutcomes(limit); }
    } else {
      RunInv(limit, run, i - 1);
      assert Reaches(run[i - 1], run[i]);
      var st :| Can(run[i - 1], st) && run[i] == Next(run[i - 1], st);
      StepInv(run[i - 1], st);
    }
  }

  lemma InitOutcomes(limit: nat)
    ensures Outcomes(Init(limit))
  {}

  /** Bridges that have reserved and not yet registered. */
  function Arriving(s: State): set<nat> {
    set id | id in s.phase && (s.phase[id] == Reserved || s.phase[id] == Announced)
  }

  /** Removals, by a bridge or by the read loop, that have the map entry and have not yet
      released. */
  function Removing(s: State): set<nat> {
    (set id | id in s.phase && s.phase[id].Took?) + if s.reader.ReaderTook? then {s.reader.id} else {}
  }

  /** Whoever holds a slot is a bridge, a map entry or a removal under way, and only one. */
  lemma SlotsHeld(s: State)
    requires Placed(s)
    ensures s.held == Arriving(s) + s.streams + Removing(s)
    ensures Arriving(s) !! s.streams && (Arriving(s) + s.streams) !! Removing(s)
  {
    assert forall id :: id in s.slot ==> SlotOk(s, id);
  }

  /** Before any shutdown the counter is exactly the registered streams, plus the bridges that
      have reserved and not registered, plus the removals that have not released. */
  lemma SlotsAccounted(limit: nat, run: seq<State>, i: nat)
    requires IsRun(limit, run) && i < |run| && run[i].shutdowns == map[]
    ensures var s := run[i];
      s.active == |Arriving(s)| + |s.streams| + |Removing(s)| && s.active <= s.limit
  {
    hide Next, Can, OutcomeOk, Placed, Arriving, Removing;
    RunInv(limit, run, i);
    SlotsHeld(run[i]);
  }

  /** Whatever shutdowns do, the counter never exceeds its cap, and with none half-way through
      it never claims more than the bridges, entries and removals that owe a slot: no slot
      leaks. */
  lemma NoSlotLeaks(limit: nat, run: seq<State>, i: nat)
    requires IsRun(limit, run) && i < |run|
    ensures var s := run[i];
      && s.active <= s.limit
      && (ShutIdle(s) ==> s.active <= |Arriving(s)| + |s.streams| + |Removing(s)|)
  {
    hide Next, Can, OutcomeOk, Placed, Arriving, Removing;
    RunInv(limit, run, i);
    SlotsHeld(run[i]);
  }

  /** A slot moves one way: reserved, owed, then released or dropped for good. */
  predicate MovesOn(a: Place, b: Place) {
    || a == b
    || (a == WithBridge && (b == WithEntry || b == Released))
    || (a == WithEntry && (b == WithRemover || b == Dropped))
    || (a == WithRemover && b == Released)
  }

  lemma TaskMoves(s: State, j: nat, a: TaskAct, id: nat)
    requires Placed(s) && TaskCan(s, j, a) && id in s.slot
    ensures var n := TaskStep(s, j, a);
      && id in n.slot && MovesOn(s.slot[id], n.slot[id])
      && (s.slot[id] != Released && n.slot[id] == Released ==> id == j && (a == QuicEnd || a == Release))
  {
    assert SlotOk(s, id);
  }

  lemma ReadMoves(s: State, r: ReadAct, id: nat)
    requires Placed(s) && ReadCan(s, r) && id in s.slot
    ensures var n := ReadStep(s, r);
      && id in n.slot && MovesOn(s.slot[id], n.slot[id])
      && (s.slot[id] != Released && n.slot[id] == Released ==> r == ReaderRelease && id == s.reader.id)
      && (r == ReaderRelease ==> n.active == Less(s.active) && n.held == s.held - {s.reader.id})
  {
    assert SlotOk(s, id);
  }

  lemma ShutMoves(s: State, k: nat, a: ShutAct, id: nat)
    requires Placed(s) && ShutCan(s, k, a) && id in s.slot
    ensures var n := ShutStep(s, k, a);
      id in n.slot && MovesOn(s.slot[id], n.slot[id]) && (n.slot[id] == Released <==> s.slot[id] == Released)
  {
    assert SlotOk(s, id);
  }

  /** The step from `s` to `n` hands slot `id` back. */
  predicate Releases(s: State, n: State, id: nat) {
    id in s.slot && s.slot[id] != Released && id in n.slot && n.slot[id] == Released
  }

  /** Every step moves a slot one way only; the step that hands it back takes it off the
      counter, exactly one where no shutdown has zeroed it. */
  lemma SlotStep(s: State, st: Step, id: nat)
    requires Inv(s) && Can(s, st) && id in s.slot
    ensures var n := Next(s, st);
      && id in n.slot && MovesOn(s.slot[id], n.slot[id])
      && (Releases(s, n, id) ==> n.active == Less(s.active) && n.held == s.held - {id})
      && (Releases(s, n, id) && s.shutdowns == map[] ==> n.active == s.active - 1)
  {
    hide OutcomeOk, TaskStep, ReadStep, ShutStep, TaskCan;
    match st
    case Task(j, a) =>
      TaskMoves(s, j, a, id);
      TaskLedger(s, j, a);
    case Read(r) => ReadMoves(s, r, id);
    case Shut(k, a) => ShutMoves(s, k, a, id);
    assert SlotOk(s, id);
    if IsOwed(s.slot[id]) { assert id in s.held; }
  }

  /** A slot given back or dropped stays so: nothing brings it back over any run. */
  lemma {:induction false} SettledForever(limit: nat, run: seq<State>, i: nat, j: nat, id: nat)
    requires IsRun(limit, run) && i <= j < |run| && id in run[i].slot
    ensures id in run[j].slot
    ensures run[i].slot[id] == Released || run[i].slot[id] == Dropped ==> run[j].slot[id] == run[i].slot[id]
    decreases j
  {
    hide Inv, Next, Can;
    if i < j {
      SettledForever(limit, run, i, j - 1, id);
      RunInv(limit, run, j - 1);
      assert Reaches(run[j - 1], run[j]);
      var st :| Can(run[j - 1], st) && run[j] == Next(run[j - 1], st);
      SlotStep(run[j - 1], st, id);
    }
  }

  /** A bridge that is over, with no removal of it under way, has given its slot back; only a
      shutdown may have dropped it instead. */
  lemma EndedHasReturned(limit: nat, run: seq<State>, i: nat, id: nat)
    requires IsRun(limit, run) && i < |run| && id in run[i].phase
    requires run[i].phase[id] == Done && run[i].reader != ReaderTook(id)
    ensures id in run[i].slot && (run[i].slot[id] == Released || run[i].slot[id] == Dropped)
    ensures run[i].shutdowns == map[] ==> run[i].slot[id] == Released
  {
    hide Next, Can, OutcomeOk, Counted;
    RunInv(limit, run, i);
    assert SlotOk(run[i], id);
  }

  /** A released slot was released at some step of the run. */
  lemma {:induction false} WasReleased(limit: nat, run: seq<State>, i: nat, id: nat) returns (k: nat)
    requires IsRun(limit, run) && i < |run| && id in run[i].slot && run[i].slot[id] == Released
    ensures k < i && Releases(run[k], run[k + 1], id)
    decreases i
  {
    hide Inv, Next, Can;
    assert i > 0;
    k := i - 1;
    assert Reaches(run[k], run[i]);
    var st :| Can(run[k], st) && run[i] == Next(run[k], st);
    RunInv(limit, run, k);
    if id !in run[k].slot {
      ReservedFirst(run[k], st, id);
    } else if run[k].slot[id] == Released {
      k := WasReleased(limit, run, k, id);
    }
  }

  /** A slot begins with its bridge. */
  lemma ReservedFirst(s: State, st: Step, id: nat)
    requires Inv(s) && Can(s, st) && id !in s.slot
    ensures id in Next(s, st).slot ==> Next(s, st).slot[id] == WithBridge
  {
    hide TaskStep, ReadStep, OutcomeOk;
    match st
    case Task(j, a) => if j == id { BridgeFirst(s, id, a); } else { TaskAlike(s, j, a, id); }
    case Read(r) => if ReadId(s, r) == id { UnknownRead(s, r); } else { ReadAlike(s, r, id); }
    case Shut(_, _) =>
  }

  lemma BridgeFirst(s: State, id: nat, a: TaskAct)
    requires TaskCan(s, id, a) && id !in s.phase
    ensures id in TaskStep(s, id, a).slot && TaskStep(s, id, a).slot[id] == WithBridge
  {}

  /** Exactly once: of every bridge that has ended before any shutdown, and whose removal is
      over, one step of the run gave the slot back, no other did, and that step took exactly
      one off the counter. */
  lemma ReleasedOnce(limit: nat, run: seq<State>, i: nat, id: nat) returns (k: nat)
    requires IsRun(limit, run) && i < |run| && id in run[i].phase && run[i].shutdowns == map[]
    requires run[i].phase[id] == Done && run[i].reader != ReaderTook(id)
    ensures k < i && Releases(run[k], run[k + 1], id) && run[k + 1].active == run[k].active - 1
    ensures forall j :: 0 <= j < |run| - 1 && Releases(run[j], run[j + 1], id) ==> j == k
  {
    hide Inv, Next, Can;
    EndedHasReturned(limit, run, i, id);
    k := WasReleased(limit, run, i, id);
    forall j | 0 <= j < |run| - 1 && Releases(run[j], run[j + 1], id) ensures j == k {
      OnlyOnce(limit, run, j, k, id);
    }
    RunInv(limit, run, k);
    NoneBefore(limit, run, k, i);
    assert Reaches(run[k], run[k + 1]);
    var st :| Can(run[k], st) && run[k + 1] == Next(run[k], st);
    SlotStep(run[k], st, id);
  }

  /** No run releases a slot twice, whatever shutdowns do. */
  lemma OnlyOnce(limit: nat, run: seq<State>, j: nat, k: nat, id: nat)
    requires IsRun(limit, run) && j < |run| - 1 && k < |run| - 1
    requires Releases(run[j], run[j + 1], id) && Releases(run[k], run[k + 1], id)
    ensures j == k
  {
    hide IsRun;
    if j < k { SettledForever(limit, run, j + 1, k, id); }
    if k < j { SettledForever(limit, run, k + 1, j, id); }
  }

  /** Shutdowns are never forgotten. */
  lemma {:induction false} NoneBefore(limit: nat, run: seq<State>, k: nat, i: nat)
    requires IsRun(limit, run) && k <= i < |run| && run[i].shutdowns == map[]
    ensures run[k].shutdowns == map[]
    decreases i
  {
    hide Inv, Next, Can;
    if k < i {
      assert Reaches(run[i - 1], run[i]);
      var st :| Can(run[i - 1], st) && run[i] == Next(run[i - 1], st);
      ShutdownsStay(run[i - 1], st);
      NoneBefore(limit, run, k, i - 1);
    }
  }

  lemma ShutdownsStay(s: State, st: Step)
    requires Can(s, st)
    ensures s.shutdowns.Keys <= Next(s, st).shutdowns.Keys
  {
    hide TaskStep, ReadStep;
    match st
    case Task(id, a) => TaskFrame(s, id, a);
    case Read(r) => ReadKeepsShutdowns(s, r);
    case Shut(_, _) =>
  }

  lemma ReadKeepsShutdowns(s: State, r: ReadAct)
    requires ReadCan(s, r)
    ensures ReadStep(s, r).shutdowns == s.shutdowns
  {}

  /** The first event decides: a bridge that ever splices saw ConnectOk before any ConnectErr,
      removal or failing shutdown.  If it was announced while no shutdown stood between its two
      drains, ConnectOk came before anything at all: it never starts on a removed stream. */
  lemma FirstEventWins(limit: nat, run: seq<State>, i: nat, id: nat)
    requires IsRun(limit, run) && i < |run| && id in run[i].spliced
    ensures id in run[i].log && First(run[i].log[id]) == Some(SawOk)
    ensures id in run[i].clear ==> run[i].log[id][0] == SawOk
  {
    hide Next, Can, Placed, Counted;
    RunInv(limit, run, i);
    assert OutcomeOk(run[i], id) && ClearOk(run[i], id);
  }

  /** No connect is forgotten: a bridge that still listens is pending, or has its answer waiting:
      Ok if the first event was ConnectOk, Err if it was anything else.  Once anything has
      happened, only the read loop in the middle of removing the stream can still owe it. */
  lemma AnswerWaits(limit: nat, run: seq<State>, i: nat, id: nat)
    requires IsRun(limit, run) && i < |run| && id in run[i].phase && Listening(run[i].phase[id])
    ensures var s := run[i];
      && id in s.log && (id in s.pending <==> id !in s.replies)
      && (id in s.replies ==> First(s.log[id]) != None
                              && (s.replies[id] == Ok <==> First(s.log[id]) == Some(SawOk)))
      && (id in s.pending && First(s.log[id]) != None ==> First(s.log[id]) == Some(Removed) && ReaderOn(s, id))
  {
    hide Next, Can, Placed, Counted;
    RunInv(limit, run, i);
    assert OutcomeOk(run[i], id);
  }

  // ----- Exactly when a late ConnectOk can start a removed stream -----

  ghost predicate Path(path: seq<State>) {
    path != [] && forall i :: 0 < i < |path| ==> Reaches(path[i - 1], path[i])
  }

  lemma Chained(a: seq<State>, b: seq<State>)
    requires Path(a) && Path(b) && a[|a| - 1] == b[0]
    ensures Path(a + b[1..]) && (a + b[1..])[|a| + |b| - 2] == b[|b| - 1]
  {
    hide Reaches;
    var c := a + b[1..];
    forall i | 0 < i < |c| ensures Reaches(c[i - 1], c[i]) {
      if i >= |a| { assert c[i] == b[i - |a| + 1] && c[i - 1] == b[i - |a|]; }
    }
  }

  lemma Leads(s: State, st: Step, n: State)
    requires Can(s, st) && n == Next(s, st)
    ensures Path([s, n])
  {
    assert Reaches(s, n);
  }

  /** Announced between the two drains of shutdown `k`, and nothing has happened to it yet. */
  predicate Exposed(s: State, id: nat, k: nat) {
    && id in s.phase && s.phase[id] == Announced && id in s.pending && id in s.log && s.log[id] == []
    && k in s.shutdowns && s.shutdowns[k] == 1 && !ReaderOn(s, id)
  }

  /** Started by a ConnectOk that came after its stream was gone. */
  predicate StartedLate(s: State, id: nat) {
    id in s.spliced && id in s.log && s.log[id] != [] && s.log[id][0] != SawOk
  }

  /** The read loop may be in the middle of another message. */
  lemma FinishReading(s: State, id: nat, k: nat) returns (path: seq<State>)
    requires Exposed(s, id, k)
    ensures Path(path) && path[0] == s
    ensures Exposed(path[|path| - 1], id, k) && path[|path| - 1].reader == Idle
  {
    path := [s];
    if s.reader.ReaderTook? {
      var n := ReadStep(s, ReaderRelease);
      Leads(s, Read(ReaderRelease), n);
      var rest := FinishFreed(n, id, k);
      Chained([s, n], rest);
      path := [s, n] + rest[1..];
    } else if s.reader.ReaderFreed? {
      path := FinishFreed(s, id, k);
    }
  }

  lemma FinishFreed(s: State, id: nat, k: nat) returns (path: seq<State>)
    requires Exposed(s, id, k) && s.reader.ReaderFreed?
    ensures Path(path) && path[0] == s
    ensures Exposed(path[|path| - 1], id, k) && path[|path| - 1].reader == Idle
  {
    var n := ReadStep(s, ReaderResolve);
    Leads(s, Read(ReaderResolve), n);
    path := [s, n];
  }

  lemma SweepJoined(s: State, id: nat, k: nat) returns (n: State)
    requires Exposed(s, id, k) && s.reader == Idle
    ensures Path([s, TaskStep(s, id, Join), n])
    ensures id in n.phase && n.phase[id] == Joined && id in n.pending && n.reader == Idle
    ensures id in n.log && n.log[id] == [Swept]
  {
    var joined := TaskStep(s, id, Join);
    n := ShutStep(joined, k, DrainStreams);
    Leads(s, Task(id, Join), joined);
    Leads(joined, Shut(k, DrainStreams), n);
    assert Reaches(s, joined) && Reaches(joined, n) by {
      assert Path([s, joined]) && [s, joined][1] == joined;
      assert Path([joined, n]) && [joined, n][1] == n;
    }
    assert [] + [Swept] == [Swept];
  }

  lemma OkStarts(s: State, id: nat) returns (n: State)
    requires id in s.phase && s.phase[id] == Joined && id in s.pending && s.reader == Idle
    requires id in s.log && s.log[id] == [Swept]
    ensures Path([s, ReadStep(s, ReadOk(id)), n]) && StartedLate(n, id)
  {
    var answered := ReadStep(s, ReadOk(id));
    n := TaskStep(answered, id, TakeReply);
    Leads(s, Read(ReadOk(id)), answered);
    Leads(answered, Task(id, TakeReply), n);
    assert Reaches(s, answered) && Reaches(answered, n) by {
      assert Path([s, answered]) && [s, answered][1] == answered;
      assert Path([answered, n]) && [answered, n][1] == n;
    }
  }

  lemma ExposedCanStartLate(s: State, id: nat, k: nat) returns (path: seq<State>)
    requires Exposed(s, id, k)
    ensures Path(path) && path[0] == s && StartedLate(path[|path| - 1], id)
  {
    hide Reaches, TaskStep, ReadStep, Exposed, StartedLate;
    var calm := FinishReading(s, id, k);
    var idle := calm[|calm| - 1];
    var swept := SweepJoined(idle, id, k);
    var late := OkStarts(swept, id);
    Chained(calm, [idle, TaskStep(idle, id, Join), swept]);
    path := calm + [idle, TaskStep(idle, id, Join), swept][1..];
    Chained(path, [swept, ReadStep(swept, ReadOk(id)), late]);
    path := path + [swept, ReadStep(swept, ReadOk(id)), late][1..];
  }

  lemma TaskClearGrows(s: State, id: nat, a: TaskAct)
    requires TaskCan(s, id, a)
    ensures s.clear <= TaskStep(s, id, a).clear
  {}

  lemma ReadClearStays(s: State, r: ReadAct)
    requires ReadCan(s, r)
    ensures ReadStep(s, r).clear == s.clear
  {}

  lemma ClearGrows(s: State, st: Step)
    requires Can(s, st)
    ensures s.clear <= Next(s, st).clear
  {
    hide TaskStep, ReadStep;
    match st
    case Task(id, a) => TaskClearGrows(s, id, a);
    case Read(r) => ReadClearStays(s, r);
    case Shut(_, _) =>
  }

  lemma {:induction false} ClearStays(limit: nat, run: seq<State>, i: nat, j: nat, id: nat)
    requires IsRun(limit, run) && i <= j < |run| && id in run[i].clear
    ensures id in run[j].clear
    decreases j
  {
    hide Next, Can;
    if i < j {
      ClearStays(limit, run, i, j - 1, id);
      assert Reaches(run[j - 1], run[j]);
      var st :| Can(run[j - 1], st) && run[j] == Next(run[j - 1], st);
      ClearGrows(run[j - 1], st);
    }
  }

  /** `run'` goes on from `run` with bridge `id` announcing itself, and ends with it started
      late. */
  ghost predicate GoesWrong(limit: nat, run: seq<State>, run': seq<State>, id: nat) {
    && IsRun(limit, run) && IsRun(limit, run') && run < run'
    && Can(run[|run| - 1], Task(id, Announce)) && run'[|run|] == Next(run[|run| - 1], Task(id, Announce))
    && StartedLate(run'[|run'| - 1], id)
  }

  lemma ClearNeverGoesWrong(limit: nat, run: seq<State>, run': seq<State>, id: nat)
    requires GoesWrong(limit, run, run', id)
    ensures HalfShut(run[|run| - 1])
  {
    hide Reaches;
    var s := run[|run| - 1];
    if !HalfShut(s) {
      assert id in run'[|run|].clear;
      ClearStays(limit, run', |run|, |run'| - 1, id);
      FirstEventWins(limit, run', |run'| - 1, id);
    }
  }

  lemma HalfShutGoesWrong(limit: nat, run: seq<State>, id: nat) returns (run': seq<State>)
    requires IsRun(limit, run) && Can(run[|run| - 1], Task(id, Announce)) && HalfShut(run[|run| - 1])
    ensures GoesWrong(limit, run, run', id)
  {
    var s := run[|run| - 1];
    var k :| k in s.shutdowns && s.shutdowns[k] == 1;
    var n := Next(s, Task(id, Announce));
    assert Exposed(n, id, k) by {
      RunInv(limit, run, |run| - 1);
      assert OutcomeOk(s, id);
    }
    hide Next, Can, HalfShut, Exposed, StartedLate, Reaches;
    var path := ExposedCanStartLate(n, id, k);
    Leads(s, Task(id, Announce), n);
    Chained([s, n], path);
    Chained(run, [s, n] + path[1..]);
    run' := run + ([s, n] + path[1..])[1..];
    assert run'[|run|] == n;
    assert run'[..|run|] == run;
  }

  /** Exactly when: a bridge that registers its pending connect in some state can end up
      splicing a stream that was swept first if and only if, in that state, some `shutdown` has
      drained `pending` and not yet `streams`. */
  lemma LateStartIff(limit: nat, run: seq<State>, id: nat)
    requires IsRun(limit, run) && Can(run[|run| - 1], Task(id, Announce))
    ensures HalfShut(run[|run| - 1]) <==> exists run' :: GoesWrong(limit, run, run', id)
  {
    hide Reaches, Can, HalfShut, GoesWrong;
    if HalfShut(run[|run| - 1]) {
      var run' := HalfShutGoesWrong(limit, run, id);
    }
    forall run' | GoesWrong(limit, run, run', id) ensures HalfShut(run[|run| - 1]) {
      ClearNeverGoesWrong(limit, run, run', id);
    }
  }

  /** Such a state is reached: a bridge reserves its slot, a shutdown starts. */
  lemma ShutdownRace(limit: nat) returns (run: seq<State>, run': seq<State>)
    requires limit > 0
    ensures GoesWrong(limit, run, run', 1)
  {
    var s0 := Init(limit);
    var s1 := TaskStep(s0, 1, Bridge);
    var s2 := ShutStep(s1, 0, DrainPending);
    Leads(s0, Task(1, Bridge), s1);
    Leads(s1, Shut(0, DrainPending), s2);
    Chained([s0, s1], [s1, s2]);
    run := [s0, s1] + [s1, s2][1..];
    assert HalfShut(s2) by { assert s2.shutdowns[0] == 1; }
    run' := HalfShutGoesWrong(limit, run, 1);
  }
}
