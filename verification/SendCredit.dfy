/** `SendCredit` as a concurrent object: any number of overlapping `acquire`, `add` and
    `close` calls, interleaved at every atomic operation.

    `Notify` is its documented contract: a waiter created by `notified()` is woken by every
    `notify_waiters()` after its creation and by none before.  A generation counter models
    that: the waiter remembers the generation it was created in and may leave its await once
    the generation has moved on. */
module SendCredit {

  datatype AcquirePc =
    | CheckClosed | TryTake | Enlist
    | RecheckClosed(seen: nat) | RecheckCredit(seen: nat)   // waiter created at generation `seen`
    | Parked(seen: nat)
    | Returned(ok: bool)

  datatype SignalPc = Storing | Notifying | Finished

  datatype Call =
    | Acquire(need: nat, pc: AcquirePc, late: bool)   // `late`: begun on a closed credit
    | Add(bytes: nat, spc: SignalPc)
    | Close(spc: SignalPc)

  /** `accepted` and `taken` are histories: credit added and credit handed out so far. */
  datatype State = State(
    credit: int, max: nat, closed: bool, generation: nat,
    calls: map<nat, Call>,
    offered: nat, accepted: nat, taken: nat)

  function New(initial: nat): State {
    State(initial, initial, false, 0, map[], 0, 0, 0)
  }

  datatype Step =
    | Begin(id: nat, call: Call)
    | Go(id: nat)
    | Cancel(id: nat)       // a parked acquire's future is dropped

  predicate Fresh(s: State, c: Call) {
    match c
    case Acquire(_, pc, late) => pc == CheckClosed && late == s.closed
    case Add(_, pc) => pc == Storing
    case Close(pc) => pc == Storing
  }

  predicate Can(s: State, st: Step) {
    match st
    case Begin(id, c) => id !in s.calls && Fresh(s, c)
    case Cancel(id) => id in s.calls && s.calls[id].Acquire? && s.calls[id].pc.Parked?
    case Go(id) => id in s.calls && match s.calls[id]
      case Acquire(_, pc, _) => !pc.Returned? && (pc.Parked? ==> pc.seen != s.generation)
      case Add(_, pc) => pc != Finished
      case Close(pc) => pc != Finished
  }

  function At(s: State, id: nat, c: Call): State {
    s.(calls := s.calls[id := c])
  }

  function Next(s: State, st: Step): State
    requires Can(s, st)
  {
    match st
    case Begin(id, c) => At(s, id, c)
    case Cancel(id) => s.(calls := s.calls - {id})
    case Go(id) => match s.calls[id]
      case Acquire(need, pc, late) => AcquireGo(s, id, need, pc, late)
      case Add(bytes, pc) =>
        if pc == Storing then
          var sum := s.credit + bytes;
          var next := if sum <= s.max then sum else s.max;
          var credit := if next > s.credit then next else s.credit;
          At(s.(credit := credit, offered := s.offered + bytes, accepted := s.accepted + (credit - s.credit)),
             id, Add(bytes, Notifying))
        else At(s.(generation := s.generation + 1), id, Add(bytes, Finished))
      case Close(pc) =>
        if pc == Storing then At(s.(closed := true), id, Close(Notifying))
        else At(s.(generation := s.generation + 1), id, Close(Finished))
  }

  /** One atomic operation of `acquire`. */
  function AcquireGo(s: State, id: nat, need: nat, pc: AcquirePc, late: bool): State {
    match pc
    case CheckClosed => At(s, id, Acquire(need, if s.closed then Returned(false) else TryTake, late))
    case TryTake =>
      if s.credit >= need
      then At(s.(credit := s.credit - need, taken := s.taken + need), id, Acquire(need, Returned(true), late))
      else At(s, id, Acquire(need, Enlist, late))
    case Enlist => At(s, id, Acquire(need, RecheckClosed(s.generation), late))
    case RecheckClosed(g) => At(s, id, Acquire(need, if s.closed then CheckClosed else RecheckCredit(g), late))
    case RecheckCredit(g) => At(s, id, Acquire(need, if s.credit < need then Parked(g) else CheckClosed, late))
    case Parked(_) => At(s, id, Acquire(need, CheckClosed, late))
    case Returned(_) => s
  }

  // ----- Invariant -----

  predicate Signalling(c: Call) {
    (c.Add? || c.Close?) && c.spc == Notifying
  }

  /** Some add or close stands between its store and its notify. */
  predicate WakeupDue(s: State) {
    exists id :: id in s.calls && Signalling(s.calls[id])
  }

  predicate CallOk(s: State, c: Call) {
    c.Acquire? ==>
      && (c.late ==> s.closed && (c.pc == CheckClosed || c.pc == Returned(false)))
      && (c.pc == Returned(false) ==> s.closed)
      && (c.pc.RecheckClosed? ==> c.pc.seen <= s.generation)
      && (c.pc.RecheckCredit? ==>
            c.pc.seen <= s.generation && (c.pc.seen == s.generation && s.closed ==> WakeupDue(s)))
      && (c.pc.Parked? ==>
            && c.pc.seen <= s.generation
            && (c.pc.seen == s.generation && (s.closed || s.credit >= c.need) ==> WakeupDue(s)))
  }

  predicate Inv(s: State) {
    && 0 <= s.credit <= s.max
    && s.credit + s.taken == s.max + s.accepted
    && s.accepted <= s.offered
    && forall id :: id in s.calls ==> CallOk(s, s.calls[id])
  }

  lemma NewInv(initial: nat)
    ensures Inv(New(initial))
  {}

  /** A signalling call other than the one that moves is still signalling. */
  lemma WakeupStays(s: State, n: State, id: nat)
    requires id in s.calls && WakeupDue(s) && !Signalling(s.calls[id])
    requires id in n.calls && n.calls == s.calls[id := n.calls[id]]
    ensures WakeupDue(n)
  {
    var k :| k in s.calls && Signalling(s.calls[k]);
    assert k in n.calls && n.calls[k] == s.calls[k];
  }

  lemma AcquireInv(s: State, id: nat)
    requires Inv(s) && Can(s, Go(id)) && s.calls[id].Acquire?
    ensures Inv(Next(s, Go(id)))
  {
    var n := Next(s, Go(id));
    if WakeupDue(s) { WakeupStays(s, n, id); }
    forall k | k in n.calls
      ensures CallOk(n, n.calls[k])
    {
      assert k != id ==> k in s.calls && CallOk(s, s.calls[k]);
      assert CallOk(s, s.calls[id]);
    }
  }

  lemma SignalInv(s: State, id: nat)
    requires Inv(s) && Can(s, Go(id)) && !s.calls[id].Acquire?
    ensures Inv(Next(s, Go(id)))
  {
    var n := Next(s, Go(id));
    if s.calls[id].spc == Storing { assert Signalling(n.calls[id]); }
    forall k | k in n.calls
      ensures CallOk(n, n.calls[k])
    {
      assert k != id ==> k in s.calls && CallOk(s, s.calls[k]);
    }
  }

  lemma BeginInv(s: State, id: nat, c: Call)
    requires Inv(s) && Can(s, Begin(id, c))
    ensures Inv(Next(s, Begin(id, c)))
  {
    var n := Next(s, Begin(id, c));
    if WakeupDue(s) {
      var k :| k in s.calls && Signalling(s.calls[k]);
      assert n.calls[k] == s.calls[k];
    }
    forall k | k in n.calls
      ensures CallOk(n, n.calls[k])
    {
      assert k != id ==> k in s.calls && CallOk(s, s.calls[k]);
    }
  }

  lemma CancelInv(s: State, id: nat)
    requires Inv(s) && Can(s, Cancel(id))
    ensures Inv(Next(s, Cancel(id)))
  {
    var n := Next(s, Cancel(id));
    if WakeupDue(s) {
      var k :| k in s.calls && Signalling(s.calls[k]);
      assert k in n.calls && n.calls[k] == s.calls[k];
    }
    forall k | k in n.calls
      ensures CallOk(n, n.calls[k])
    {
      assert k in s.calls && CallOk(s, s.calls[k]);
    }
  }

  // ----- Runs -----

  ghost predicate Reaches(s: State, n: State) {
    exists st :: Can(s, st) && n == Next(s, st)
  }

  ghost predicate IsRun(initial: nat, run: seq<State>) {
    && run != [] && run[0] == New(initial)
    && forall i :: 0 < i < |run| ==> Reaches(run[i - 1], run[i])
  }

  lemma StepInv(s: State, st: Step)
    requires Inv(s) && Can(s, st)
    ensures Inv(Next(s, st))
    ensures Next(s, st).max == s.max && (s.closed ==> Next(s, st).closed)
  {
    hide Inv;
    match st
    case Begin(id, c) => BeginInv(s, id, c);
    case Cancel(id) => CancelInv(s, id);
    case Go(id) => if s.calls[id].Acquire? { AcquireInv(s, id); } else { SignalInv(s, id); }
  }

  lemma {:induction false} RunInv(initial: nat, run: seq<State>, i: nat)
    requires IsRun(initial, run) && i < |run|
    ensures Inv(run[i]) && run[i].max == initial
  {
    hide Inv, Next, Can;
    if i == 0 {
      NewInv(initial);
    } else {
      RunInv(initial, run, i - 1);
      assert Reaches(run[i - 1], run[i]);
      var st :| Can(run[i - 1], st) && run[i] == Next(run[i - 1], st);
      StepInv(run[i - 1], st);
    }
  }

  /** No lost wakeup: in every state of every run, an acquirer that is parked and cannot move,
      although its credit is there or the object is closed, is about to be woken: some add or
      close has stored and not yet notified. */
  lemma NoLostWakeup(initial: nat, run: seq<State>, i: nat, id: nat)
    requires IsRun(initial, run) && i < |run| && id in run[i].calls
    requires run[i].calls[id].Acquire? && run[i].calls[id].pc.Parked? && !Can(run[i], Go(id))
    requires run[i].closed || run[i].credit >= run[i].calls[id].need
    ensures WakeupDue(run[i])
  {
    RunInv(initial, run, i);
    assert CallOk(run[i], run[i].calls[id]);
  }

  /** And the wakeup reaches everyone: once a due notify happens, every parked call can move. */
  lemma NotifyFreesEveryone(initial: nat, run: seq<State>, i: nat, k: nat, id: nat)
    requires IsRun(initial, run) && i < |run| && k in run[i].calls && Signalling(run[i].calls[k])
    requires id in run[i].calls && run[i].calls[id].Acquire? && run[i].calls[id].pc.Parked?
    ensures Can(run[i], Go(k)) && Can(Next(run[i], Go(k)), Go(id))
  {
    RunInv(initial, run, i);
    assert CallOk(run[i], run[i].calls[id]);
  }

  /** The ledger: credit stays within the window, what is handed out is the window plus what
      was accepted, and never more than the window plus what was offered. */
  lemma Ledger(initial: nat, run: seq<State>, i: nat)
    requires IsRun(initial, run) && i < |run|
    ensures 0 <= run[i].credit <= initial
    ensures run[i].credit + run[i].taken == initial + run[i].accepted
    ensures run[i].taken <= initial + run[i].offered
  {
    RunInv(initial, run, i);
  }

  /** An acquire begun after close returns false, and only a closed credit ever refuses. */
  lemma ClosedRefuses(initial: nat, run: seq<State>, i: nat, id: nat)
    requires IsRun(initial, run) && i < |run| && id in run[i].calls && run[i].calls[id].Acquire?
    ensures run[i].calls[id].late ==> run[i].calls[id].pc != Returned(true)
    ensures run[i].calls[id].pc == Returned(false) ==> run[i].closed
  {
    RunInv(initial, run, i);
    assert CallOk(run[i], run[i].calls[id]);
  }

  /** Operations an acquire has left on a closed credit. */
  function StepsLeft(pc: AcquirePc): nat {
    match pc
    case Returned(_) => 0
    case CheckClosed => 1
    case Parked(_) => 2
    case RecheckClosed(_) => 2
    case RecheckCredit(_) => 3
    case Enlist => 3
    case TryTake => 4
  }

  /** No task leaks on a closed credit: once the closing notify is out, every acquire still
      under way can move, and each of its operations brings it closer to returning. */
  lemma CloseLeavesNoneParked(initial: nat, run: seq<State>, i: nat, id: nat)
    requires IsRun(initial, run) && i < |run| && run[i].closed && !WakeupDue(run[i])
    requires id in run[i].calls && run[i].calls[id].Acquire? && !run[i].calls[id].pc.Returned?
    ensures Can(run[i], Go(id))
    ensures StepsLeft(Next(run[i], Go(id)).calls[id].pc) < StepsLeft(run[i].calls[id].pc)
  {
    RunInv(initial, run, i);
    assert CallOk(run[i], run[i].calls[id]);
  }

  // ----- Exactly when an acquire under way survives a close -----

  /** On a closed credit, an acquire that cannot return true any more. */
  predicate Doomed(s: State, id: nat) {
    && s.closed && s.credit <= s.max
    && (id in s.calls && s.calls[id].Acquire? ==>
          && s.calls[id].pc != Returned(true)
          && (s.calls[id].pc == TryTake ==> s.calls[id].need > s.max))
  }

  lemma DoomedStays(s: State, st: Step, id: nat)
    requires Inv(s) && Can(s, st) && Doomed(s, id)
    ensures Doomed(Next(s, st), id)
  {}

  lemma {:induction false} DoomedForever(initial: nat, run: seq<State>, i: nat, j: nat, id: nat)
    requires IsRun(initial, run) && i <= j < |run| && Doomed(run[i], id)
    ensures Doomed(run[j], id)
    decreases j
  {
    hide Inv, Next, Can, Doomed;
    if i < j {
      DoomedForever(initial, run, i, j - 1, id);
      RunInv(initial, run, j - 1);
      assert Reaches(run[j - 1], run[j]);
      var st :| Can(run[j - 1], st) && run[j] == Next(run[j - 1], st);
      DoomedStays(run[j - 1], st, id);
    }
  }

  /** `run'` goes on from `run` and ends with call `id` having returned true. */
  ghost predicate Succeeds(initial: nat, run: seq<State>, run': seq<State>, id: nat) {
    && IsRun(initial, run) && IsRun(initial, run') && run <= run'
    && var n := run'[|run'| - 1];
       id in n.calls && n.calls[id].Acquire? && n.calls[id].pc == Returned(true)
  }

  lemma Extended(initial: nat, run: seq<State>, st: Step)
    requires IsRun(initial, run) && Can(run[|run| - 1], st)
    ensures IsRun(initial, run + [Next(run[|run| - 1], st)])
  {
    hide Next, Can;
    var run' := run + [Next(run[|run| - 1], st)];
    forall i | 0 < i < |run'| ensures Reaches(run'[i - 1], run'[i]) {
      if i < |run| { assert Reaches(run[i - 1], run[i]); }
    }
  }

  /** With the credit there, one more operation takes it. */
  lemma TakesCredit(initial: nat, run: seq<State>, id: nat) returns (run': seq<State>)
    requires IsRun(initial, run) && id in run[|run| - 1].calls
    requires var s := run[|run| - 1];
      s.calls[id].Acquire? && s.calls[id].pc == TryTake && s.calls[id].need <= s.credit
    ensures Succeeds(initial, run, run', id)
  {
    hide Reaches;
    Extended(initial, run, Go(id));
    run' := run + [Next(run[|run| - 1], Go(id))];
  }

  /** Without it, a grant may still come first. */
  lemma TakesGrant(initial: nat, run: seq<State>, id: nat) returns (run': seq<State>)
    requires IsRun(initial, run) && id in run[|run| - 1].calls
    requires var s := run[|run| - 1];
      s.calls[id].Acquire? && s.calls[id].pc == TryTake && s.calls[id].need <= s.max
    ensures Succeeds(initial, run, run', id)
  {
    RunInv(initial, run, |run| - 1);
    var s := run[|run| - 1];
    hide IsRun, Reaches;
    var k := Unused(s.calls.Keys);
    var add := Begin(k, Add(s.max, Storing));
    Extended(initial, run, add);
    var offered := Next(s, add);
    var run1 := run + [offered];
    Extended(initial, run1, Go(k));
    var granted := Next(offered, Go(k));
    var run2 := run1 + [granted];
    assert granted.credit == s.max && granted.calls[id] == s.calls[id];
    run' := TakesCredit(initial, run2, id);
  }

  lemma {:induction false} Unused(ids: set<nat>) returns (k: nat)
    ensures forall id :: id in ids ==> id < k
    decreases ids
  {
    k := 0;
    if ids != {} {
      var x :| x in ids;
      var below := Unused(ids - {x});
      k := if below <= x then x + 1 else below;
      assert forall id :: id in ids ==> id == x || id in ids - {x};
    }
  }

  /** `close` does not stop every acquire under way: one that is still to return can come to
      return true if and only if it has passed its closed check, is about to try the credit,
      and asks for no more than the window. */
  lemma CloseRaceIff(initial: nat, run: seq<State>, id: nat)
    requires IsRun(initial, run) && run[|run| - 1].closed && id in run[|run| - 1].calls
    requires run[|run| - 1].calls[id].Acquire? && !run[|run| - 1].calls[id].pc.Returned?
    ensures (exists run' :: Succeeds(initial, run, run', id)) <==>
      run[|run| - 1].calls[id].pc == TryTake && run[|run| - 1].calls[id].need <= initial
  {
    var s := run[|run| - 1];
    RunInv(initial, run, |run| - 1);
    hide Reaches, Inv;
    if s.calls[id].pc == TryTake && s.calls[id].need <= initial {
      var run' := TakesGrant(initial, run, id);
    } else {
      forall run' | Succeeds(initial, run, run', id) ensures false {
        assert run'[|run| - 1] == s;
        DoomedForever(initial, run', |run| - 1, |run'| - 1, id);
      }
    }
  }

  /** And it happens: an acquire tries, a close is stored, the acquire takes its credit. */
  lemma CloseRace(initial: nat, need: nat) returns (run: seq<State>, run': seq<State>)
    requires need <= initial
    ensures run != [] && run[|run| - 1].closed && 0 in run[|run| - 1].calls
    ensures run[|run| - 1].calls[0] == Acquire(need, TryTake, false)
    ensures Succeeds(initial, run, run', 0)
  {
    hide IsRun;
    var s0 := New(initial);
    JustBegun(initial);
    var s1 := Next(s0, Begin(0, Acquire(need, CheckClosed, false)));
    Extended(initial, [s0], Begin(0, Acquire(need, CheckClosed, false)));
    var s2 := Next(s1, Go(0));
    Extended(initial, [s0] + [s1], Go(0));
    var s3 := Next(s2, Begin(1, Close(Storing)));
    Extended(initial, [s0] + [s1] + [s2], Begin(1, Close(Storing)));
    var s4 := Next(s3, Go(1));
    Extended(initial, [s0] + [s1] + [s2] + [s3], Go(1));
    run := [s0] + [s1] + [s2] + [s3] + [s4];
    run' := TakesCredit(initial, run, 0);
  }

  lemma JustBegun(initial: nat)
    ensures IsRun(initial, [New(initial)])
  {}
}
