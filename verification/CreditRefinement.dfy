/** Where `SendCredit` and `Tunnel` meet.  `Tunnel` takes credit in one step; the object takes
    many.  Every run of the object is, seen from outside, a run of one counter that is taken
    from, refuses, is raised and is shut, and the pumps of `Tunnel` use just that counter. */
module CreditRefinement {
  import opened FlowControl
  import opened Tunnel
  import SendCredit

  /** What a step of the object does to the counter; `Rest` is nothing. */
  datatype Op = Take(n: nat) | Refuse | Raise(n: nat) | Shut | Rest

  datatype Counter = Counter(credit: int, closed: bool)

  function CounterOf(s: SendCredit.State): Counter { Counter(s.credit, s.closed) }

  predicate Allowed(c: Counter, op: Op) {
    match op
    case Take(n) => n <= c.credit
    case Refuse => c.closed
    case _ => true
  }

  function Applied(p: Params, c: Counter, op: Op): Counter
    requires 0 <= c.credit
  {
    match op
    case Take(n) => c.(credit := c.credit - n)
    case Raise(n) => c.(credit := Raised(p, c.credit, n))
    case Shut => c.(closed := true)
    case _ => c
  }

  function OpOf(s: SendCredit.State, st: SendCredit.Step): Op
    requires SendCredit.Can(s, st)
  {
    if !st.Go? then Rest
    else match s.calls[st.id]
      case Acquire(need, pc, _) =>
        if pc == SendCredit.TryTake && s.credit >= need then Take(need)
        else if pc == SendCredit.CheckClosed && s.closed then Refuse
        else Rest
      case Add(bytes, pc) => if pc == SendCredit.Storing then Raise(bytes) else Rest
      case Close(pc) => if pc == SendCredit.Storing then Shut else Rest
  }

  /** Call `id` is an acquire that has returned `ok`. */
  predicate Answered(s: SendCredit.State, id: nat, ok: bool) {
    id in s.calls && s.calls[id].Acquire? && s.calls[id].pc == SendCredit.Returned(ok)
  }

  /** Every step is one operation of the counter, and an acquire comes to return true exactly
      by a take of what it asked for, false exactly by a refusal. */
  lemma StepProjects(p: Params, s: SendCredit.State, st: SendCredit.Step, id: nat)
    requires SendCredit.Inv(s) && SendCredit.Can(s, st) && p.window == s.max
    ensures var n, op := SendCredit.Next(s, st), OpOf(s, st);
      && Allowed(CounterOf(s), op) && CounterOf(n) == Applied(p, CounterOf(s), op)
      && (id in s.calls && s.calls[id].Acquire? && !s.calls[id].pc.Returned? ==>
            && (Answered(n, id, true) <==> st == SendCredit.Go(id) && op == Take(s.calls[id].need))
            && (Answered(n, id, false) <==> st == SendCredit.Go(id) && op == Refuse))
  {
    hide SendCredit.CallOk;
  }

  /** Call `id` is an acquire still under way. */
  predicate UnderWay(s: SendCredit.State, id: nat) {
    id in s.calls && s.calls[id].Acquire? && !s.calls[id].pc.Returned?
  }

  /** Every step of every run of the object is the counter's operation `OpOf`, and the acquires
      under way answer by it. */
  lemma RunProjects(p: Params, run: seq<SendCredit.State>, i: nat) returns (st: SendCredit.Step, op: Op)
    requires SendCredit.IsRun(p.window, run) && i + 1 < |run|
    ensures SendCredit.Can(run[i], st) && run[i + 1] == SendCredit.Next(run[i], st) && op == OpOf(run[i], st)
    ensures 0 <= run[i].credit && Allowed(CounterOf(run[i]), op)
    ensures CounterOf(run[i + 1]) == Applied(p, CounterOf(run[i]), op)
    ensures forall id :: UnderWay(run[i], id) ==>
      && (Answered(run[i + 1], id, true) <==> st == SendCredit.Go(id) && op == Take(run[i].calls[id].need))
      && (Answered(run[i + 1], id, false) <==> st == SendCredit.Go(id) && op == Refuse)
  {
    hide SendCredit.Next, SendCredit.Can, SendCredit.CallOk, OpOf;
    SendCredit.RunInv(p.window, run, i);
    assert SendCredit.Reaches(run[i], run[i + 1]);
    st :| SendCredit.Can(run[i], st) && run[i + 1] == SendCredit.Next(run[i], st);
    op := OpOf(run[i], st);
    StepProjects(p, run[i], st, 0);
    forall id | UnderWay(run[i], id)
      ensures Answered(run[i + 1], id, true) <==> st == SendCredit.Go(id) && op == Take(run[i].calls[id].need)
      ensures Answered(run[i + 1], id, false) <==> st == SendCredit.Go(id) && op == Refuse
    {
      StepProjects(p, run[i], st, id);
    }
  }

  /** A pump of the tunnel that holds a chunk may take or be refused exactly when the counter
      allows it, and takes and grants leave the tunnel's credit where they leave the counter's. */
  lemma PumpUsesCounter(p: Params, f: Flow, c: Counter, n: nat)
    requires f.credit == c.credit
    ensures TxCan(p, Waiting, f, c.closed, TakeCredit) <==> Allowed(c, Take(|f.held|))
    ensures TxCan(p, Waiting, f, c.closed, Refusal) <==> Allowed(c, Refuse)
    ensures Allowed(c, Take(|f.held|)) ==>
      TxStep(p, Waiting, f, c.closed, TakeCredit).f.credit == Applied(p, c, Take(|f.held|)).credit
    ensures Allowed(c, Refuse) ==> TxStep(p, Waiting, f, c.closed, Refusal).f.credit == Applied(p, c, Refuse).credit
    ensures Grant(p, f, n).credit == Applied(p, c, Raise(n)).credit
  {}
}
