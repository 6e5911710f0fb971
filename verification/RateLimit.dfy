/** The per-client rate limit table of the HTTPS edge: idle entries are dropped, the number
    of entries is capped, and neither is supposed to be noticed by a client that keeps to
    the table's terms.  Time is in nanoseconds; entries remember whole seconds.  The program
    stamps entries by the wall clock and runs its limiters on a monotonic one; here both are one
    clock that never goes back. */
module RateLimit {
  import opened Wrappers

  const MAX_ENTRIES: nat := 2000
  const MAX_IDLE_SECS: int := 900

  type Key = string
  type Time = int

  function Secs(t: Time): int { t / SECOND }

  // ----- Limiters -----

  /** A limiter as a state that answers one request at a time. */
  datatype Limiter<!S> = Limiter(start: Time -> S, step: (S, Time) -> (bool, S))

  predicate Sorted(ts: seq<Time>) { forall i, j :: 0 <= i < j < |ts| ==> ts[i] <= ts[j] }

  predicate From(ts: seq<Time>, t: Time) { Sorted(ts) && (ts != [] ==> t <= ts[0]) }

  function Answers<S>(l: Limiter<S>, s: S, ts: seq<Time>): (r: seq<bool>)
    ensures |r| == |ts|
  {
    if ts == [] then []
    else
      var a := l.step(s, ts[0]);
      [a.0] + Answers(l, a.1, ts[1..])
  }

  /** The state after requests at the times `ts`, from the first of them on. */
  function After<S>(l: Limiter<S>, ts: seq<Time>): S
    requires ts != []
  {
    var n := |ts| - 1;
    l.step(if n == 0 then l.start(ts[0]) else After(l, ts[..n]), ts[n]).1
  }

  /** From time `t` on the two states cannot be told apart. */
  ghost predicate Alike<S>(l: Limiter<S>, t: Time, a: S, b: S) {
    forall ts :: From(ts, t) ==> Answers(l, a, ts) == Answers(l, b, ts)
  }

  /** From time `t` on the state is as good as one that starts with the next request. */
  ghost predicate LikeFresh<S>(l: Limiter<S>, t: Time, s: S) {
    forall ts :: From(ts, t) && ts != [] ==> Answers(l, s, ts) == Answers(l, l.start(ts[0]), ts)
  }

  /** After `idle` without a request the limiter is back to where it starts. */
  ghost predicate Refills<S>(l: Limiter<S>, idle: Time) {
    forall ts, t :: Sorted(ts) && ts != [] && ts[|ts| - 1] + idle <= t ==> LikeFresh(l, t, After(l, ts))
  }

  lemma AlikeStep<S>(l: Limiter<S>, t: Time, a: S, b: S, now: Time)
    requires Alike(l, t, a, b) && t <= now
    ensures l.step(a, now).0 == l.step(b, now).0
    ensures Alike(l, now, l.step(a, now).1, l.step(b, now).1)
  {
    SameStep(l, a, b, now, []);
    forall ts | From(ts, now)
      ensures Answers(l, l.step(a, now).1, ts) == Answers(l, l.step(b, now).1, ts)
    {
      assert From([now] + ts, t);
      SameStep(l, a, b, now, ts);
    }
  }

  lemma LikeFreshStep<S>(l: Limiter<S>, t: Time, s: S, now: Time)
    requires LikeFresh(l, t, s) && t <= now
    ensures l.step(l.start(now), now).0 == l.step(s, now).0
    ensures Alike(l, now, l.step(l.start(now), now).1, l.step(s, now).1)
  {
    var f := l.start(now);
    assert From([now], t) && [now] != [];
    SameStep(l, s, f, now, []);
    forall ts | From(ts, now)
      ensures Answers(l, l.step(f, now).1, ts) == Answers(l, l.step(s, now).1, ts)
    {
      assert From([now] + ts, t) && ([now] + ts)[0] == now;
      SameStep(l, s, f, now, ts);
    }
  }

  lemma SameStep<S>(l: Limiter<S>, a: S, b: S, now: Time, ts: seq<Time>)
    ensures Answers(l, a, [now] + ts) == Answers(l, b, [now] + ts) <==>
      l.step(a, now).0 == l.step(b, now).0 && Answers(l, l.step(a, now).1, ts) == Answers(l, l.step(b, now).1, ts)
  {
    var all := [now] + ts;
    assert all[1..] == ts;
    var x, y := Answers(l, a, all), Answers(l, b, all);
    assert x == [l.step(a, now).0] + Answers(l, l.step(a, now).1, ts);
    assert y == [l.step(b, now).0] + Answers(l, l.step(b, now).1, ts);
    assert x[1..] == Answers(l, l.step(a, now).1, ts) && y[1..] == Answers(l, l.step(b, now).1, ts);
  }

  // ----- GCRA -----

  /** One request per `t`, `burst` of them at once: the state is the theoretical arrival time. */
  function Gcra(t: Time, burst: int): Limiter<Time> {
    Limiter(now => now,
            (tat, now) => if now < tat - t * (burst - 1) then (false, tat)
                          else (true, (if tat < now then now else tat) + t))
  }

  /** The two tiers that are configured. */
  const GENERAL := Gcra(60 * SECOND / 500, 220)
  const AUTH := Gcra(60 * SECOND / 40, 15)

  lemma {:induction false} GcraSpent(t: Time, burst: int, ts: seq<Time>)
    requires 0 <= t && 1 <= burst && ts != [] && Sorted(ts)
    ensures After(Gcra(t, burst), ts) <= ts[|ts| - 1] + t * burst
  {
    var n := |ts| - 1;
    assert t * burst == t * (burst - 1) + t;
    if n > 0 { GcraSpent(t, burst, ts[..n]); } else { NonNegative(t, burst - 1); }
  }

  lemma NonNegative(a: int, b: int)
    requires 0 <= a && 0 <= b
    ensures 0 <= a * b
  {}

  /** How many of the requests at the times `ts` are let through. */
  function Admitted<S>(l: Limiter<S>, ts: seq<Time>): nat
    requires ts != []
  {
    var n := |ts| - 1;
    var rest := if n == 0 then 0 else Admitted(l, ts[..n]);
    if l.step(if n == 0 then l.start(ts[0]) else After(l, ts[..n]), ts[n]).0 then rest + 1 else rest
  }

  lemma {:induction false} GcraPays(t: Time, burst: int, ts: seq<Time>)
    requires 0 <= t && ts != []
    ensures ts[0] + t * Admitted(Gcra(t, burst), ts) <= After(Gcra(t, burst), ts)
  {
    var l, n := Gcra(t, burst), |ts| - 1;
    if n > 0 {
      GcraPays(t, burst, ts[..n]);
      var rest := Admitted(l, ts[..n]);
      assert t * (rest + 1) == t * rest + t;
    }
  }

  /** The quota: over any stretch of requests at most `burst` more are let through than the
      time between the first and the last pays for. */
  lemma GcraRate(t: Time, burst: int, ts: seq<Time>)
    requires 0 <= t && 1 <= burst && ts != [] && Sorted(ts)
    ensures t * Admitted(Gcra(t, burst), ts) <= ts[|ts| - 1] - ts[0] + t * burst
  {
    GcraPays(t, burst, ts);
    GcraSpent(t, burst, ts);
  }

  function Together(now: Time, n: nat): seq<Time> { seq(n, _ => now) }

  function FirstFew(n: nat, few: int): seq<bool> { seq(n, i => i < few) }

  lemma GcraAtOnce(t: Time, burst: int, now: Time, k: nat)
    requires 0 < t && 1 <= burst && k <= burst
    ensures Gcra(t, burst).step(now + t * k, now)
         == if k < burst then (true, now + t * (k + 1)) else (false, now + t * k)
  {
    NonNegative(t, k);
    if k < burst {
      NonNegative(t, burst - 1 - k);
      assert t * (burst - 1 - k) == t * (burst - 1) - t * k;
      assert t * (k + 1) == t * k + t;
    } else {
      assert t * burst == t * (burst - 1) + t;
    }
  }

  /** And the burst is spendable at once: of requests at the same moment, when `k` are spent,
      exactly the first `burst - k` are let through. */
  lemma {:induction false} GcraBurst(t: Time, burst: int, now: Time, n: nat, k: nat)
    requires 0 < t && 1 <= burst && k <= burst
    ensures Answers(Gcra(t, burst), now + t * k, Together(now, n)) == FirstFew(n, burst - k)
    decreases n
  {
    hide Gcra;
    if n > 0 {
      GcraAtOnce(t, burst, now, k);
      GcraBurst(t, burst, now, n - 1, if k < burst then k + 1 else k);
      assert Together(now, n)[1..] == Together(now, n - 1);
      assert FirstFew(n, burst - k)
          == [k < burst] + FirstFew(n - 1, burst - if k < burst then k + 1 else k);
    }
  }

  /** Arrival times already past make no difference. */
  lemma GcraPast(t: Time, burst: int, a: Time, b: Time, ts: seq<Time>)
    requires 0 <= t && 1 <= burst && ts != [] && a <= ts[0] && b <= ts[0]
    ensures Answers(Gcra(t, burst), a, ts) == Answers(Gcra(t, burst), b, ts)
  {
    NonNegative(t, burst - 1);
  }

  lemma GcraRefills(t: Time, burst: int)
    requires 0 <= t && 1 <= burst
    ensures Refills(Gcra(t, burst), t * burst)
  {
    var l := Gcra(t, burst);
    forall ts, now | Sorted(ts) && ts != [] && ts[|ts| - 1] + t * burst <= now
      ensures LikeFresh(l, now, After(l, ts))
    {
      GcraSpent(t, burst, ts);
      forall rest | From(rest, now) && rest != []
        ensures Answers(l, After(l, ts), rest) == Answers(l, l.start(rest[0]), rest)
      {
        GcraPast(t, burst, After(l, ts), l.start(rest[0]), rest);
      }
    }
  }

  lemma {:induction false} RefillsLater<S>(l: Limiter<S>, a: Time, b: Time)
    requires Refills(l, a) && a <= b
    ensures Refills(l, b)
  {
    hide LikeFresh, After, Sorted;
  }

  /** Both tiers are full again well before they go stale. */
  lemma TiersRefill()
    ensures Refills(GENERAL, MAX_IDLE_SECS * SECOND) && Refills(AUTH, MAX_IDLE_SECS * SECOND)
  {
    GcraRefills(60 * SECOND / 500, 220);
    RefillsLater(GENERAL, 60 * SECOND / 500 * 220, MAX_IDLE_SECS * SECOND);
    GcraRefills(60 * SECOND / 40, 15);
    RefillsLater(AUTH, 60 * SECOND / 40 * 15, MAX_IDLE_SECS * SECOND);
  }

  // ----- The table -----

  datatype Entry<S> = Entry(state: S, lastSeen: int)
  type Table<S> = map<Key, Entry<S>>

  /** `cleanup_stale`. */
  function Cleaned<S>(table: Table<S>, now: Time): Table<S> {
    map k | k in table && Secs(now) - table[k].lastSeen <= MAX_IDLE_SECS :: table[k]
  }

  predicate Oldest<S>(table: Table<S>, k: Key) {
    k in table && forall j :: j in table ==> table[k].lastSeen <= table[j].lastSeen
  }

  /** Neither the table nor what is left of it after a cleanup has room. */
  predicate Full<S>(table: Table<S>, now: Time) {
    |table| >= MAX_ENTRIES && |Cleaned(table, now)| >= MAX_ENTRIES
  }

  /** `make_room`; `victim` is the key `min_by_key` finds. */
  function Room<S>(table: Table<S>, now: Time, victim: Key): Table<S> {
    if |table| < MAX_ENTRIES then table
    else if |Cleaned(table, now)| < MAX_ENTRIES then Cleaned(table, now)
    else Cleaned(table, now) - {victim}
  }

  function StateFor<S>(l: Limiter<S>, table: Table<S>, key: Key, now: Time): S {
    if key in table then table[key].state else l.start(now)
  }

  /** The table a check leaves. */
  function Checked<S>(l: Limiter<S>, table: Table<S>, key: Key, now: Time, victim: Key): Table<S> {
    var room := if key in table then table else Room(table, now, victim);
    room[key := Entry(l.step(StateFor(l, table, key, now), now).1, Secs(now))]
  }

  datatype Event = Check(key: Key, now: Time, victim: Key) | Sweep(now: Time)

  /** The table, and beside it every request ever made. */
  datatype World<S> = World(table: Table<S>, history: map<Key, seq<Time>>, now: Time)

  function Init<S>(): World<S> { World(map[], map[], 0) }

  function Past(history: map<Key, seq<Time>>, key: Key): seq<Time> {
    if key in history then history[key] else []
  }

  ghost predicate Can<S>(w: World<S>, ev: Event) {
    w.now <= ev.now &&
    (ev.Check? && ev.key !in w.table && Full(w.table, ev.now) ==> Oldest(Cleaned(w.table, ev.now), ev.victim))
  }

  function Next<S>(l: Limiter<S>, w: World<S>, ev: Event): World<S> {
    match ev
    case Check(key, now, victim) =>
      World(Checked(l, w.table, key, now, victim), w.history[key := Past(w.history, key) + [now]], now)
    case Sweep(now) => World(Cleaned(w.table, now), w.history, now)
  }

  /** What the table answers. */
  function Answer<S>(l: Limiter<S>, w: World<S>, ev: Event): bool
    requires ev.Check?
  {
    l.step(StateFor(l, w.table, ev.key, ev.now), ev.now).0
  }

  /** What a table that forgets nobody answers: the client's own limiter, fed all its requests. */
  function Unbounded<S>(l: Limiter<S>, w: World<S>, ev: Event): bool
    requires ev.Check?
  {
    var past := Past(w.history, ev.key);
    l.step(if past == [] then l.start(ev.now) else After(l, past), ev.now).0
  }

  // ----- Transparency -----

  predicate Recorded<S>(w: World<S>, k: Key) {
    && k in w.history && w.history[k] != [] && Sorted(w.history[k])
    && w.history[k][|w.history[k]| - 1] <= w.now
  }

  ghost predicate Mirrors<S>(l: Limiter<S>, w: World<S>, k: Key)
    requires Recorded(w, k)
  {
    var h := w.history[k];
    if k in w.table then
      && w.table[k].lastSeen == Secs(h[|h| - 1])
      && Alike(l, h[|h| - 1], w.table[k].state, After(l, h))
    else LikeFresh(l, w.now, After(l, h))
  }

  ghost predicate Inv<S>(l: Limiter<S>, w: World<S>) {
    && (forall k :: k in w.history ==> Recorded(w, k) && Mirrors(l, w, k))
    && w.table.Keys <= w.history.Keys
  }

  lemma LikeFreshLater<S>(l: Limiter<S>, a: Time, b: Time, s: S)
    requires LikeFresh(l, a, s) && a <= b
    ensures LikeFresh(l, b, s)
  {
    hide Answers;
  }

  lemma SweepInv<S>(l: Limiter<S>, w: World<S>, now: Time)
    requires Refills(l, MAX_IDLE_SECS * SECOND) && Inv(l, w) && w.now <= now
    ensures Inv(l, Next(l, w, Sweep(now)))
  {
    hide LikeFresh, Alike, After;
    var n := Next(l, w, Sweep(now));
    forall k | k in n.history ensures Recorded(n, k) && Mirrors(l, n, k) {
      assert Recorded(w, k) && Mirrors(l, w, k);
      var h := w.history[k];
      if k !in w.table {
        LikeFreshLater(l, w.now, now, After(l, h));
      } else if k !in n.table {
        assert h[|h| - 1] + MAX_IDLE_SECS * SECOND <= now;
      }
    }
  }

  /** The entry for the key just checked. */
  lemma CheckedKey<S>(l: Limiter<S>, w: World<S>, ev: Event)
    requires Inv(l, w) && ev.Check? && w.now <= ev.now
    ensures Answer(l, w, ev) == Unbounded(l, w, ev)
    ensures var n := Next(l, w, ev); Recorded(n, ev.key) && Mirrors(l, n, ev.key)
  {
    hide LikeFresh, Alike, Room;
    var key, now := ev.key, ev.now;
    var past := Past(w.history, key);
    assert (past + [now])[..|past|] == past;
    if key in w.history {
      assert Recorded(w, key) && Mirrors(l, w, key);
      if key in w.table {
        AlikeStep(l, past[|past| - 1], w.table[key].state, After(l, past), now);
      } else {
        LikeFreshStep(l, w.now, After(l, past), now);
      }
    } else {
      AlikeRefl(l, now, l.step(l.start(now), now).1);
    }
  }

  lemma AlikeRefl<S>(l: Limiter<S>, t: Time, s: S)
    ensures Alike(l, t, s, s)
  {}

  /** A check that evicts nobody is invisible: the answer is the one a table that forgets
      nobody would give, and it stays that way. */
  lemma CheckInv<S>(l: Limiter<S>, w: World<S>, ev: Event)
    requires Refills(l, MAX_IDLE_SECS * SECOND) && Inv(l, w) && ev.Check? && w.now <= ev.now
    requires ev.key in w.table || !Full(w.table, ev.now)
    ensures Answer(l, w, ev) == Unbounded(l, w, ev)
    ensures Inv(l, Next(l, w, ev))
  {
    hide LikeFresh, Alike, After, Refills, Answer, Unbounded;
    CheckedKey(l, w, ev);
    var n := Next(l, w, ev);
    SweepInv(l, w, ev.now);
    var swept := Next(l, w, Sweep(ev.now));
    forall k | k in n.history && k != ev.key ensures Recorded(n, k) && Mirrors(l, n, k) {
      assert Recorded(w, k) && Mirrors(l, w, k) && Recorded(swept, k) && Mirrors(l, swept, k);
      if k !in w.table {
        LikeFreshLater(l, w.now, ev.now, After(l, w.history[k]));
      }
    }
  }

  // ----- Runs -----

  ghost predicate IsRun<S>(l: Limiter<S>, run: seq<World<S>>, evs: seq<Event>) {
    && |run| == |evs| + 1 && run[0] == Init()
    && forall i :: 0 <= i < |evs| ==> Can(run[i], evs[i]) && run[i + 1] == Next(l, run[i], evs[i])
  }

  ghost predicate Evicts<S>(w: World<S>, ev: Event) {
    ev.Check? && ev.key !in w.table && Full(w.table, ev.now)
  }

  lemma {:induction false} RunInv<S>(l: Limiter<S>, run: seq<World<S>>, evs: seq<Event>, i: nat)
    requires Refills(l, MAX_IDLE_SECS * SECOND) && IsRun(l, run, evs) && i < |run|
    requires forall j :: 0 <= j < i ==> !Evicts(run[j], evs[j])
    ensures Inv(l, run[i])
  {
    hide Inv, Next, Refills;
    if i == 0 {
      InitInv(l);
    } else {
      RunInv(l, run, evs, i - 1);
      var ev := evs[i - 1];
      assert Can(run[i - 1], ev) && !Evicts(run[i - 1], ev);
      if ev.Check? { CheckInv(l, run[i - 1], ev); } else { SweepInv(l, run[i - 1], ev.now); }
    }
  }

  lemma InitInv<S>(l: Limiter<S>)
    ensures Inv(l, Init())
  {}

  /** Over every run in which no client had to be evicted, however often idle entries were
      swept, every request got the answer of a table that forgets nobody. */
  lemma CleanupIsTransparent<S>(l: Limiter<S>, run: seq<World<S>>, evs: seq<Event>, i: nat)
    requires Refills(l, MAX_IDLE_SECS * SECOND) && IsRun(l, run, evs) && i < |evs| && evs[i].Check?
    requires forall j :: 0 <= j < i ==> !Evicts(run[j], evs[j])
    ensures Answer(l, run[i], evs[i]) == Unbounded(l, run[i], evs[i])
  {
    hide Inv, Next, Refills;
    RunInv(l, run, evs, i);
    assert Can(run[i], evs[i]);
    CheckedKey(l, run[i], evs[i]);
  }

  /** The table never outgrows its cap. */
  lemma {:induction false} RunCapped<S>(l: Limiter<S>, run: seq<World<S>>, evs: seq<Event>, i: nat)
    requires IsRun(l, run, evs) && i < |run|
    ensures |run[i].table| <= MAX_ENTRIES
  {
    hide Oldest, Full;
    if i > 0 {
      RunCapped(l, run, evs, i - 1);
      var w, ev := run[i - 1], evs[i - 1];
      assert Can(w, ev) && run[i] == Next(l, w, ev);
      CleanedShrinks(w.table, ev.now);
      if ev.Check? { CheckedCapped(l, w.table, ev); }
    }
  }

  lemma CleanedShrinks<S>(table: Table<S>, now: Time)
    ensures |Cleaned(table, now)| <= |table|
  {
    Fewer(Cleaned(table, now).Keys, table.Keys);
  }

  lemma CheckedCapped<S>(l: Limiter<S>, table: Table<S>, ev: Event)
    requires ev.Check? && |table| <= MAX_ENTRIES
    requires ev.key !in table && Full(table, ev.now) ==> Oldest(Cleaned(table, ev.now), ev.victim)
    ensures |Checked(l, table, ev.key, ev.now, ev.victim)| <= MAX_ENTRIES
  {
    CleanedShrinks(table, ev.now);
    var room := Room(table, ev.now, ev.victim);
    var after := Checked(l, table, ev.key, ev.now, ev.victim);
    if ev.key in table {
      assert after.Keys == table.Keys;
    } else {
      assert after.Keys == room.Keys + {ev.key};
      if Full(table, ev.now) {
        assert room.Keys == Cleaned(table, ev.now).Keys - {ev.victim};
      }
    }
  }

  /** An entry remembers the second of its client's last request. */
  predicate Seen<S>(w: World<S>, k: Key) {
    k in w.table ==>
      k in w.history && w.history[k] != [] && w.table[k].lastSeen == Secs(w.history[k][|w.history[k]| - 1])
  }

  lemma {:induction false} RunSeen<S>(l: Limiter<S>, run: seq<World<S>>, evs: seq<Event>, i: nat, k: Key)
    requires IsRun(l, run, evs) && i < |run|
    ensures Seen(run[i], k)
  {
    hide Full, Oldest;
    if i > 0 {
      RunSeen(l, run, evs, i - 1, k);
      assert Can(run[i - 1], evs[i - 1]) && run[i] == Next(l, run[i - 1], evs[i - 1]);
    }
  }

  /** A sweep forgets exactly the clients whose last request is more than 900 whole seconds ago. */
  lemma SweepForgets<S>(l: Limiter<S>, run: seq<World<S>>, evs: seq<Event>, i: nat, k: Key)
    requires IsRun(l, run, evs) && i < |evs| && evs[i].Sweep? && k in run[i].table
    ensures k in run[i].history && run[i].history[k] != []
    ensures var h := run[i].history[k];
      k in run[i + 1].table <==> evs[i].now / 1_000_000_000 - h[|h| - 1] / 1_000_000_000 <= 900
    ensures k in run[i + 1].table ==> run[i + 1].table[k] == run[i].table[k]
  {
    RunSeen(l, run, evs, i, k);
    assert Can(run[i], evs[i]) && run[i + 1] == Next(l, run[i], evs[i]);
  }

  // ----- The tier as it works -----

  class RateTier<S> {
    const limiter: Limiter<S>
    var clients: Table<S>

    constructor (l: Limiter<S>)
      ensures limiter == l && clients == map[]
    {
      limiter, clients := l, map[];
    }

    method CleanupStale(now: Time)
      modifies this
      ensures clients == Cleaned(old(clients), now)
      ensures forall k :: k in clients <==>
        k in old(clients) && now / 1_000_000_000 - old(clients)[k].lastSeen <= 900
      ensures forall k :: k in clients ==> clients[k] == old(clients)[k]
    {
      clients := map k | k in clients && Secs(now) - clients[k].lastSeen <= MAX_IDLE_SECS :: clients[k];
    }

    /** `min_by_key` over the last-seen times. */
    method FindOldest() returns (k: Key)
      requires clients != map[]
      ensures Oldest(clients, k)
    {
      var left := clients.Keys;
      k :| k in left;
      left := left - {k};
      while left != {}
        invariant k in clients && left <= clients.Keys
        invariant forall j :: j in clients && j !in left ==> clients[k].lastSeen <= clients[j].lastSeen
      {
        var j :| j in left;
        if clients[j].lastSeen < clients[k].lastSeen { k := j; }
        left := left - {j};
      }
    }

    method MakeRoom(now: Time) returns (ghost victim: Key)
      modifies this
      ensures clients == Room(old(clients), now, victim)
      ensures Full(old(clients), now) ==> Oldest(Cleaned(old(clients), now), victim)
    {
      victim := "";
      if |clients| < MAX_ENTRIES { return; }
      CleanupStale(now);
      if |clients| < MAX_ENTRIES { return; }
      var oldest := FindOldest();
      clients := clients - {oldest};
      victim := oldest;
    }

    /** Spends one request; the new table is `Checked` with a least recently seen victim. */
    method Check(key: Key, now: Time) returns (ok: bool, ghost victim: Key)
      requires |clients| <= MAX_ENTRIES
      modifies this
      ensures clients == Checked(limiter, old(clients), key, now, victim)
      ensures key !in old(clients) && Full(old(clients), now) ==> Oldest(Cleaned(old(clients), now), victim)
      ensures ok == limiter.step(StateFor(limiter, old(clients), key, now), now).0
      ensures |clients| <= MAX_ENTRIES
      ensures key in clients && clients[key].lastSeen == now / 1_000_000_000
      ensures key in old(clients) || |old(clients)| < 2000 ==> clients - {key} == old(clients) - {key}
    {
      victim := "";
      var state;
      if key in clients {
        state := clients[key].state;
      } else {
        victim := MakeRoom(now);
        state := limiter.start(now);
      }
      var (answer, after) := limiter.step(state, now);
      clients := clients[key := Entry(after, Secs(now))];
      ok := answer;
      CheckedCapped(limiter, old(clients), Event.Check(key, now, victim));
    }
  }
}
