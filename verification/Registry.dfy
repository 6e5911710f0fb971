/** Which session of a connector is the live one.  A reconnecting connector registers its new
    session while the old one is still being torn down; the old session's teardown must not
    touch the new one, and no session may be forgotten without being shut down. */
module Registry {
  import opened Wrappers

  /** One session's manager; `serial` tells instances apart, as `Arc::ptr_eq` does. */
  datatype Manager = Manager(connector: string, serial: nat)

  datatype World = World(
    managers: map<string, Manager>,
    registered: set<Manager>,      // ever registered
    again: set<Manager>,           // registered anew after having been replaced or removed
    down: set<Manager>,            // shut down
    owed: set<Manager>)            // replaced by a `register` that has yet to shut them down

  function Init(): World { World(map[], {}, {}, {}, {}) }

  datatype Step =
    | Insert(m: Manager)           // first half of `register`, under the lock
    | ShutReplaced(m: Manager, last: bool)   // second half, outside it; `last` if no other call owes it
    | Teardown(m: Manager)         // `unregister_manager`
    | Remove(connector: string)    // `unregister`

  predicate Current(w: World, m: Manager) { m.connector in w.managers && w.managers[m.connector] == m }

  predicate Can(w: World, st: Step) {
    match st
    // Only a manager registered anew can be owed by two calls at once.
    case ShutReplaced(m, last) => m in w.owed && (last || m in w.again)
    case _ => true
  }

  function Next(w: World, st: Step): World {
    match st
    case Insert(m) =>
      var owed := if m.connector in w.managers && !Current(w, m) then {w.managers[m.connector]} else {};
      w.(managers := w.managers[m.connector := m], registered := w.registered + {m},
         again := if m in w.registered && !Current(w, m) then w.again + {m} else w.again, owed := w.owed + owed)
    case ShutReplaced(m, last) => w.(owed := if last then w.owed - {m} else w.owed, down := w.down + {m})
    case Teardown(m) =>
      if Current(w, m) then w.(managers := w.managers - {m.connector}, down := w.down + {m}) else w
    case Remove(c) =>
      if c in w.managers then w.(managers := w.managers - {c}, down := w.down + {w.managers[c]}) else w
  }

  /** Nobody is forgotten; a session's manager, registered once, is exactly one of current, shut
      down, and about to be. */
  predicate Accounted(w: World, m: Manager) {
    && (Current(w, m) || m in w.down || m in w.owed)
    && (m !in w.again ==>
          && (Current(w, m) ==> m !in w.down && m !in w.owed)
          && (m in w.down ==> m !in w.owed))
  }

  ghost predicate Inv(w: World) {
    && (forall c :: c in w.managers ==> w.managers[c].connector == c && w.managers[c] in w.registered)
    && w.owed <= w.registered && w.down <= w.registered && w.again <= w.registered
    && (forall m :: m in w.registered ==> Accounted(w, m))
  }

  lemma StepInv(w: World, st: Step)
    requires Inv(w) && Can(w, st)
    ensures Inv(Next(w, st))
  {
    var n := Next(w, st);
    forall m | m in n.registered ensures Accounted(n, m) {
      if m in w.registered { assert Accounted(w, m); }
    }
  }

  predicate IsRun(run: seq<World>, steps: seq<Step>) {
    && |run| == |steps| + 1 && run[0] == Init()
    && forall i :: 0 <= i < |steps| ==> Can(run[i], steps[i]) && run[i + 1] == Next(run[i], steps[i])
  }

  lemma {:induction false} RunInv(run: seq<World>, steps: seq<Step>, i: nat)
    requires IsRun(run, steps) && i < |run|
    ensures Inv(run[i])
  {
    hide Can, Next;
    if i > 0 {
      RunInv(run, steps, i - 1);
      StepInv(run[i - 1], steps[i - 1]);
    }
  }

  /** A manager ever registered is the current one of its connector, or shut down, or owed a
      shutdown by the `register` that replaced it; registered once, as sessions do, it is only
      one of these. */
  lemma EveryManagerAccounted(run: seq<World>, steps: seq<Step>, i: nat, m: Manager)
    requires IsRun(run, steps) && i < |run| && m in run[i].registered
    ensures Current(run[i], m) || m in run[i].down || m in run[i].owed
    ensures m !in run[i].again && Current(run[i], m) ==> m !in run[i].down && m !in run[i].owed
    ensures m !in run[i].again ==> !(m in run[i].down && m in run[i].owed)
  {
    hide IsRun;
    RunInv(run, steps, i);
    assert Accounted(run[i], m);
  }

  /** An old session's teardown changes nothing once it has been replaced: whoever is current
      stays so and is not shut down by it. */
  lemma TeardownSparesReplacement(run: seq<World>, steps: seq<Step>, i: nat, m: Manager, other: Manager)
    requires IsRun(run, steps) && i < |steps| && steps[i] == Teardown(m)
    requires other != m && Current(run[i], other)
    ensures Current(run[i + 1], other) && (other in run[i + 1].down ==> other in run[i].down)
    ensures other !in run[i].again ==> other !in run[i + 1].down && other !in run[i + 1].owed
    ensures m.connector == other.connector ==> run[i + 1] == run[i]
    ensures m.connector == other.connector && m in run[i].registered ==> m in run[i].down || m in run[i].owed
  {
    assert Can(run[i], steps[i]) && run[i + 1] == Next(run[i], steps[i]);
    RunInv(run, steps, i);
    assert Accounted(run[i], other);
    if m in run[i].registered { assert Accounted(run[i], m); }
  }

  /** A teardown ends its session for good: it is current no more, shut down if it was current,
      and later only if registered anew. */
  lemma TeardownEnds(run: seq<World>, steps: seq<Step>, i: nat, j: nat, m: Manager)
    requires IsRun(run, steps) && i < |steps| && steps[i] == Teardown(m) && i < j < |run|
    ensures !Current(run[i + 1], m)
    ensures Current(run[i], m) ==> m in run[i + 1].down && m.connector !in run[i + 1].managers
    ensures forall c :: c != m.connector ==>
      && (c in run[i + 1].managers <==> c in run[i].managers)
      && (c in run[i].managers ==> run[i + 1].managers[c] == run[i].managers[c])
    ensures m in run[i].registered && Current(run[j], m) ==> m in run[j].again
    ensures m in run[i].registered && m !in run[j].again ==> m in run[j].down || m in run[j].owed
  {
    assert Can(run[i], steps[i]) && run[i + 1] == Next(run[i], steps[i]);
    if m in run[i].registered {
      StaysRegistered(run, steps, i, j, m);
      NeverReturns(run, steps, i + 1, j, m);
      EveryManagerAccounted(run, steps, j, m);
    }
  }

  /** `unregister` likewise, for whichever session is current. */
  lemma RemoveEnds(run: seq<World>, steps: seq<Step>, i: nat, c: string, m: Manager)
    requires IsRun(run, steps) && i < |steps| && steps[i] == Remove(c)
    ensures c !in run[i + 1].managers
    ensures Current(run[i], m) && m.connector == c ==> m in run[i + 1].down
    ensures Current(run[i], m) && m.connector != c ==> Current(run[i + 1], m)
    ensures Current(run[i], m) && m.connector != c && m !in run[i].again ==> m !in run[i + 1].down
  {
    assert Can(run[i], steps[i]) && run[i + 1] == Next(run[i], steps[i]);
    RunInv(run, steps, i);
    if Current(run[i], m) { assert Accounted(run[i], m); }
  }

  /** Once the register that replaced it has shut a session down, it is down for good. */
  lemma {:induction false} ReplacedIsShut(run: seq<World>, steps: seq<Step>, i: nat, j: nat, m: Manager)
    requires IsRun(run, steps) && i <= j < |run| && m in run[i].down
    ensures m in run[j].down
    decreases j
  {
    if i < j {
      ReplacedIsShut(run, steps, i, j - 1, m);
      assert Can(run[j - 1], steps[j - 1]) && run[j] == Next(run[j - 1], steps[j - 1]);
    }
  }

  lemma {:induction false} StaysRegistered(run: seq<World>, steps: seq<Step>, i: nat, j: nat, m: Manager)
    requires IsRun(run, steps) && i <= j < |run| && m in run[i].registered
    ensures m in run[j].registered && (m in run[i].again ==> m in run[j].again)
    decreases j
  {
    if i < j {
      StaysRegistered(run, steps, i, j - 1, m);
      assert Can(run[j - 1], steps[j - 1]) && run[j] == Next(run[j - 1], steps[j - 1]);
    }
  }

  /** A manager that has stopped being current never is again, unless it is registered anew. */
  lemma {:induction false} NeverReturns(run: seq<World>, steps: seq<Step>, i: nat, j: nat, m: Manager)
    requires IsRun(run, steps) && i <= j < |run| && m in run[i].registered && !Current(run[i], m)
    ensures Current(run[j], m) ==> m in run[j].again
    decreases j
  {
    if i < j {
      NeverReturns(run, steps, i, j - 1, m);
      StaysRegistered(run, steps, i, j - 1, m);
      assert Can(run[j - 1], steps[j - 1]) && run[j] == Next(run[j - 1], steps[j - 1]);
    }
  }

  class ConnectorRegistry {
    var managers: map<string, Manager>
    var down: set<Manager>
    ghost var registered: set<Manager>
    ghost var again: set<Manager>
    ghost var owed: set<Manager>

    ghost function Now(): World
      reads this
    {
      World(managers, registered, again, down, owed)
    }

    ghost predicate Valid()
      reads this
    {
      Inv(Now())
    }

    constructor ()
      ensures Now() == Init() && Valid()
    {
      managers, down := map[], {};
      registered, again, owed := {}, {}, {};
    }

    /** The lock is free between the two halves; `middle` is what others see there. */
    method Register(m: Manager) returns (ghost middle: World)
      requires Valid()
      modifies this
      ensures Valid() && Current(Now(), m)
      ensures middle == Next(old(Now()), Insert(m)) && Inv(middle)
      ensures
        if m.connector in old(managers) && old(managers)[m.connector] != m then
          var previous := old(managers)[m.connector];
          Now() == Next(middle, ShutReplaced(previous, previous !in old(owed)))
        else Now() == middle
      ensures managers == old(managers)[m.connector := m] && m in registered
      ensures down == old(down) + if m.connector in old(managers) && old(managers)[m.connector] != m
                                  then {old(managers)[m.connector]} else {}
      ensures owed == old(owed)
    {
      hide Inv;
      StepInv(Now(), Insert(m));
      var replaced := if m.connector in managers then Some(managers[m.connector]) else None;
      if m in registered && replaced != Some(m) { again := again + {m}; }
      managers := managers[m.connector := m];
      registered := registered + {m};
      if replaced.Some? && replaced.value != m {
        owed := owed + {replaced.value};
        middle := Now();
        assert middle == Next(old(Now()), Insert(m));
        ghost var last := replaced.value !in old(owed);
        if !last { OwedTwice(old(Now()), m.connector); }
        StepInv(middle, ShutReplaced(replaced.value, last));
        assert old(owed) == if last then owed - {replaced.value} else owed;
        down := down + {replaced.value};
        owed := old(owed);
      } else {
        middle := Now();
        assert middle == Next(old(Now()), Insert(m));
      }
    }

    method UnregisterManager(m: Manager)
      requires Valid()
      modifies this`managers, this`down
      ensures Valid() && Now() == Next(old(Now()), Teardown(m))
      ensures !Current(Now(), m) && (old(Current(Now(), m)) ==> m in down)
      ensures managers == if old(Current(Now(), m)) then old(managers) - {m.connector} else old(managers)
      ensures old(down) <= down <= old(down) + {m} && (!old(Current(Now(), m)) ==> down == old(down))
    {
      hide Inv;
      StepInv(Now(), Teardown(m));
      if m.connector in managers && managers[m.connector] == m {
        managers := managers - {m.connector};
        down := down + {m};
      }
    }

    method Unregister(connector: string)
      requires Valid()
      modifies this`managers, this`down
      ensures Valid() && Now() == Next(old(Now()), Remove(connector)) && connector !in managers
      ensures managers == old(managers) - {connector}
      ensures down == old(down) + if connector in old(managers) then {old(managers)[connector]} else {}
    {
      hide Inv;
      StepInv(Now(), Remove(connector));
      if connector in managers {
        var manager := managers[connector];
        managers := managers - {connector};
        down := down + {manager};
      }
    }
  }

  lemma OwedTwice(w: World, c: string)
    requires Inv(w) && c in w.managers && w.managers[c] in w.owed
    ensures w.managers[c] in w.again
  {
    assert Accounted(w, w.managers[c]);
  }
}
