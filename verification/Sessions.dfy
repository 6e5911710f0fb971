/** Admin sessions: an idle limit, an absolute limit, and a capped table that makes room by
    evicting the least recently used.  Calls come one at a time, time never goes back, and
    session ids are fresh. */
module Sessions {
  import opened Wrappers

  const IDLE_TTL_SECS: int := 300
  const ABSOLUTE_TTL_SECS: int := 28800
  const MAX_SESSIONS: nat := 1000

  type Key = string
  type Time = int

  datatype Session = Session(csrf: string, created: Time, access: Time)
  type Table = map<Key, Session>

  /** Whole seconds since `t`, none when `t` is in the future. */
  function Elapsed(now: Time, t: Time): int { if now < t then 0 else (now - t) / SECOND }

  predicate Expired(s: Session, now: Time) {
    Elapsed(now, s.access) > IDLE_TTL_SECS || Elapsed(now, s.created) > ABSOLUTE_TTL_SECS
  }

  // ----- Operations -----

  function Cleaned(table: Table, now: Time): Table {
    map k | k in table && !Expired(table[k], now) :: table[k]
  }

  function Excess(table: Table): nat {
    if |table| + 1 <= MAX_SESSIONS then 0 else |table| + 1 - MAX_SESSIONS
  }

  /** `gone` are as many of the table's sessions as are in excess, none of them used more
      recently than one that stays. */
  ghost predicate LeastRecent(table: Table, gone: set<Key>) {
    gone <= table.Keys && |gone| == Excess(table) && Older(table, gone)
  }

  ghost predicate Older(table: Table, gone: set<Key>)
    requires gone <= table.Keys
  {
    forall g, k :: g in gone && k in table && k !in gone ==> table[g].access <= table[k].access
  }

  function Room(table: Table, now: Time, gone: set<Key>): Table {
    if |table| < MAX_SESSIONS then table else Cleaned(table, now) - gone
  }

  predicate Accepts(table: Table, id: Key, now: Time) { id in table && !Expired(table[id], now) }

  function Validated(table: Table, id: Key, now: Time): Table {
    if id !in table then table
    else if Expired(table[id], now) then table - {id}
    else table[id := table[id].(access := now)]
  }

  predicate AcceptsCsrf(table: Table, id: Key, token: string, now: Time) {
    id in table && !Expired(table[id], now) && table[id].csrf == token
  }

  // ----- Runs -----

  datatype Event =
    | Issue(id: Key, csrf: string, now: Time, gone: set<Key>)
    | Validate(id: Key, now: Time)
    | CheckCsrf(id: Key, token: string, now: Time)
    | Cleanup(now: Time)

  /** Everything there is to know about a session's past: its token, when it was issued, and
      every time it was accepted since. */
  datatype Record = Record(csrf: string, times: seq<Time>)

  datatype World = World(table: Table, issued: map<Key, Record>, evicted: set<Key>, now: Time)

  function Init(): World { World(map[], map[], {}, 0) }

  ghost predicate Can(w: World, ev: Event) {
    && w.now <= ev.now
    && (ev.Issue? ==> ev.id !in w.issued)
    && (ev.Issue? && |w.table| < MAX_SESSIONS ==> ev.gone == {})
    && (ev.Issue? && |w.table| >= MAX_SESSIONS ==> LeastRecent(Cleaned(w.table, ev.now), ev.gone))
  }

  function Next(w: World, ev: Event): World {
    match ev
    case Issue(id, csrf, now, gone) =>
      World(Room(w.table, now, gone)[id := Session(csrf, now, now)],
            w.issued[id := Record(csrf, [now])], w.evicted + gone, now)
    case Validate(id, now) =>
      var issued := if Accepts(w.table, id, now) && id in w.issued
        then w.issued[id := w.issued[id].(times := w.issued[id].times + [now])] else w.issued;
      w.(table := Validated(w.table, id, now), issued := issued, now := now)
    case CheckCsrf(_, _, now) => w.(now := now)
    case Cleanup(now) => w.(table := Cleaned(w.table, now), now := now)
  }

  /** Within both limits of a session accepted at the times `h`, the first of them its issue. */
  predicate Live(h: seq<Time>, now: Time)
    requires h != []
  {
    Elapsed(now, h[|h| - 1]) <= IDLE_TTL_SECS && Elapsed(now, h[0]) <= ABSOLUTE_TTL_SECS
  }

  /** An unbroken chain: each access within both limits of what came before. */
  predicate Chain(h: seq<Time>) {
    h != [] && forall i :: 0 < i < |h| ==> h[i - 1] <= h[i] && Live(h[..i], h[i])
  }

  predicate Tracked(w: World, id: Key) {
    && id in w.issued && Chain(w.issued[id].times)
    && var h := w.issued[id].times;
       && h[|h| - 1] <= w.now
       && (id in w.table ==> w.table[id] == Session(w.issued[id].csrf, h[0], h[|h| - 1]))
       && (id !in w.table ==> id in w.evicted || !Live(h, w.now))
       && (id in w.evicted ==> id !in w.table)
  }

  ghost predicate Inv(w: World) {
    && (forall id :: id in w.issued ==> Tracked(w, id))
    && w.table.Keys <= w.issued.Keys && w.evicted <= w.issued.Keys
    && |w.table| <= MAX_SESSIONS
  }

  lemma NeverRevives(h: seq<Time>, a: Time, b: Time)
    requires h != [] && a <= b && !Live(h, a)
    ensures !Live(h, b)
  {}

  lemma ChainExtends(h: seq<Time>, now: Time)
    requires Chain(h) && h[|h| - 1] <= now && Live(h, now)
    ensures Chain(h + [now])
  {
    var g := h + [now];
    forall i | 0 < i < |g| ensures g[i - 1] <= g[i] && Live(g[..i], g[i]) {
      assert i < |h| ==> g[..i] == h[..i];
      assert g[..|h|] == h;
    }
  }

  /** What `Expired` decides is what the record says. */
  lemma ExpiredIffNotLive(w: World, id: Key, now: Time)
    requires Tracked(w, id) && id in w.table
    ensures Expired(w.table[id], now) <==> !Live(w.issued[id].times, now)
  {}

  lemma CleanupTracked(w: World, now: Time, id: Key)
    requires Tracked(w, id) && w.now <= now
    ensures Tracked(w.(table := Cleaned(w.table, now), now := now), id)
  {
    hide Chain, Elapsed;
    if id in w.table { ExpiredIffNotLive(w, id, now); } else { Stays(w, id, now); }
  }

  lemma Stays(w: World, id: Key, now: Time)
    requires Tracked(w, id) && w.now <= now
    ensures Tracked(w.(now := now), id)
  {
    hide Chain, Live;
    ChainNotEmpty(w.issued[id].times);
    if !Live(w.issued[id].times, w.now) { NeverRevives(w.issued[id].times, w.now, now); }
  }

  lemma ValidateTracked(w: World, id: Key, now: Time, k: Key)
    requires Tracked(w, k) && w.now <= now
    ensures Tracked(Next(w, Validate(id, now)), k)
  {
    hide Elapsed, Chain;
    Stays(w, k, now);
    if k == id && id in w.table {
      ExpiredIffNotLive(w, id, now);
      var h := w.issued[id].times;
      ChainNotEmpty(h);
      if Live(h, now) { ChainExtends(h, now); }
    }
  }

  lemma ChainNotEmpty(h: seq<Time>)
    ensures Chain(h) ==> h != []
  {}

  lemma IssueTracked(w: World, ev: Event, k: Key)
    requires ev.Issue? && Can(w, ev) && Tracked(w, k) && Inv(w)
    ensures Tracked(Next(w, ev), k)
  {
    hide Chain, Live, Expired, Excess, Inv;
    assert k != ev.id;
    Stays(w, k, ev.now);
    CleanupTracked(w, ev.now, k);
  }

  lemma RoomCapped(table: Table, now: Time, gone: set<Key>)
    requires |table| >= MAX_SESSIONS && LeastRecent(Cleaned(table, now), gone)
    ensures |Room(table, now, gone)| < MAX_SESSIONS
  {
    hide Older, Cleaned;
    var kept := Cleaned(table, now);
    assert (kept - gone).Keys == kept.Keys - gone;
    assert |kept.Keys - gone| == |kept.Keys| - |gone|;
  }

  lemma AddsOne(table: Table, id: Key, s: Session)
    ensures |table[id := s]| <= |table| + 1
  {
    assert table[id := s].Keys == table.Keys + {id};
  }

  lemma IssueCapped(w: World, ev: Event)
    requires ev.Issue? && Can(w, ev)
    ensures |Next(w, ev).table| <= MAX_SESSIONS
  {
    hide Cleaned, LeastRecent;
    var room := Room(w.table, ev.now, ev.gone);
    AddsOne(room, ev.id, Session(ev.csrf, ev.now, ev.now));
    if |w.table| >= MAX_SESSIONS { RoomCapped(w.table, ev.now, ev.gone); }
  }

  lemma GoneWasKept(w: World, ev: Event)
    requires ev.Issue? && Can(w, ev)
    ensures ev.gone <= w.table.Keys
  {
    hide Expired;
  }

  lemma IssueInv(w: World, ev: Event)
    requires Inv(w) && ev.Issue? && Can(w, ev)
    ensures Inv(Next(w, ev))
  {
    hide Expired, Elapsed, Tracked, LeastRecent;
    IssueCapped(w, ev);
    GoneWasKept(w, ev);
    var n := Next(w, ev);
    forall k | k in n.issued ensures Tracked(n, k) {
      if k != ev.id { IssueTracked(w, ev, k); } else { IssuedTracked(w, ev); }
    }
  }

  lemma IssuedTracked(w: World, ev: Event)
    requires ev.Issue? && Can(w, ev) && w.evicted <= w.issued.Keys && w.table.Keys <= w.issued.Keys
    ensures Tracked(Next(w, ev), ev.id)
  {
    hide Expired, Excess, Elapsed;
    assert ev.id !in ev.gone;
  }

  lemma StepInv(w: World, ev: Event)
    requires Inv(w) && Can(w, ev)
    ensures Inv(Next(w, ev))
  {
    hide Expired, Tracked;
    match ev
    case Issue(_, _, _, _) => IssueInv(w, ev);
    case Validate(id, now) =>
      forall k | k in w.issued ensures Tracked(Next(w, ev), k) { ValidateTracked(w, id, now, k); }
      Fewer(Validated(w.table, id, now).Keys, w.table.Keys);
    case CheckCsrf(_, _, now) =>
      forall k | k in w.issued ensures Tracked(Next(w, ev), k) { Stays(w, k, now); }
    case Cleanup(now) =>
      forall k | k in w.issued ensures Tracked(Next(w, ev), k) { CleanupTracked(w, now, k); }
      Fewer(Cleaned(w.table, now).Keys, w.table.Keys);
  }

  ghost predicate IsRun(run: seq<World>, evs: seq<Event>) {
    && |run| == |evs| + 1 && run[0] == Init()
    && forall i :: 0 <= i < |evs| ==> Can(run[i], evs[i]) && run[i + 1] == Next(run[i], evs[i])
  }

  /** Invariant of every run; in particular the table never exceeds its cap. */
  lemma {:induction false} RunInv(run: seq<World>, evs: seq<Event>, i: nat)
    requires IsRun(run, evs) && i < |run|
    ensures Inv(run[i]) && |run[i].table| <= MAX_SESSIONS
  {
    hide Can, Next, Tracked;
    if i > 0 {
      RunInv(run, evs, i - 1);
      StepInv(run[i - 1], evs[i - 1]);
    }
  }

  /** The accesses `g`, in nanoseconds: each less than 301 seconds after the one before and less
      than 28801 seconds after the first, the part of a second past either limit not counting. */
  predicate Unbroken(g: seq<Time>) {
    && g != []
    && forall i :: 0 < i < |g| ==>
      0 <= g[i] - g[i - 1] < 301_000_000_000 && g[i] - g[0] < 28_801_000_000_000
  }

  lemma {:induction false} RisesFromFirst(h: seq<Time>, i: nat)
    requires i < |h| && forall k :: 0 < k < |h| ==> h[k - 1] <= h[k]
    ensures h[0] <= h[i]
  {
    if i > 0 { RisesFromFirst(h, i - 1); }
  }

  lemma LiveIs(h: seq<Time>, now: Time)
    requires h != [] && h[0] <= now && h[|h| - 1] <= now
    ensures Live(h, now) <==> now - h[|h| - 1] < 301_000_000_000 && now - h[0] < 28_801_000_000_000
  {}

  lemma ChainUnbroken(h: seq<Time>, now: Time)
    requires Chain(h) && h[|h| - 1] <= now && Live(h, now)
    ensures Unbroken(h + [now])
  {
    hide Live;
    var g := h + [now];
    forall i | 0 < i < |g|
      ensures 0 <= g[i] - g[i - 1] < 301_000_000_000 && g[i] - g[0] < 28_801_000_000_000
    {
      RisesFromFirst(h, i - 1);
      assert Live(h[..i], g[i]) by { assert h[..|h|] == h; }
      LiveIs(h[..i], g[i]);
    }
  }

  lemma UnbrokenChain(h: seq<Time>, now: Time)
    requires h != [] && Unbroken(h + [now])
    ensures Chain(h) && Live(h, now)
  {
    hide Live;
    var g := h + [now];
    assert forall i :: 0 < i < |h| ==> h[i - 1] <= h[i] by {
      forall i | 0 < i < |h| ensures h[i - 1] <= h[i] { assert 0 <= g[i] - g[i - 1]; }
    }
    forall i | 0 < i < |g| ensures Live(h[..i], g[i]) {
      RisesFromFirst(h, i - 1);
      assert 0 <= g[i] - g[i - 1];
      LiveIs(h[..i], g[i]);
    }
    assert h[..|h|] == h && g[|h|] == now;
    forall i | 0 < i < |h| ensures Live(h[..i], h[i]) { assert g[i] == h[i]; }
  }

  lemma ChainIs(h: seq<Time>, now: Time)
    requires h != [] && h[|h| - 1] <= now
    ensures Chain(h) && Live(h, now) <==> Unbroken(h + [now])
  {
    hide Chain, Live, Unbroken;
    if Chain(h) && Live(h, now) { ChainUnbroken(h, now); }
    if Unbroken(h + [now]) { UnbrokenChain(h, now); }
  }

  /** A session is accepted exactly when it was issued, was not evicted, and every access so
      far, this one included, came within the idle limit of the one before and within the
      absolute limit of its issue. */
  lemma AcceptedIff(run: seq<World>, evs: seq<Event>, i: nat, id: Key, now: Time)
    requires IsRun(run, evs) && i < |run| && run[i].now <= now
    ensures Accepts(run[i].table, id, now) <==>
      && id in run[i].issued && id !in run[i].evicted && Unbroken(run[i].issued[id].times + [now])
    ensures id in run[i].issued ==> run[i].issued[id].times != []
  {
    hide IsRun, Elapsed, Chain, Unbroken;
    RunInv(run, evs, i);
    if id in run[i].issued {
      assert Tracked(run[i], id);
      ChainNotEmpty(run[i].issued[id].times);
      ChainIs(run[i].issued[id].times, now);
      Stays(run[i], id, now);
      if id in run[i].table { ExpiredIffNotLive(run[i], id, now); }
    }
  }

  /** A CSRF token is accepted for exactly the sessions that are, and only the one issued with
      the session. */
  lemma CsrfIff(run: seq<World>, evs: seq<Event>, i: nat, id: Key, token: string, now: Time)
    requires IsRun(run, evs) && i < |run| && run[i].now <= now
    ensures AcceptsCsrf(run[i].table, id, token, now) <==>
      Accepts(run[i].table, id, now) && id in run[i].issued && run[i].issued[id].csrf == token
  {
    hide IsRun, Elapsed, Chain, Live;
    RunInv(run, evs, i);
    if id in run[i].table { assert Tracked(run[i], id); }
  }

  predicate Dead(w: World, id: Key) {
    id in w.issued && w.issued[id].times != [] && (id in w.evicted || !Live(w.issued[id].times, w.now))
  }

  lemma DeadStays(w: World, ev: Event, id: Key)
    requires Inv(w) && Can(w, ev) && Dead(w, id)
    ensures Dead(Next(w, ev), id)
  {
    hide Elapsed, Chain, LeastRecent;
    assert Tracked(w, id);
    Stays(w, id, ev.now);
    if !Live(w.issued[id].times, w.now) { NeverRevives(w.issued[id].times, w.now, ev.now); }
    if id in w.table { ExpiredIffNotLive(w, id, ev.now); }
  }

  lemma {:induction false} DeadForever(run: seq<World>, evs: seq<Event>, i: nat, j: nat, id: Key)
    requires IsRun(run, evs) && i <= j < |run| && Dead(run[i], id)
    ensures Dead(run[j], id)
    decreases j
  {
    hide Can, Next, Dead, Inv;
    if i < j {
      DeadForever(run, evs, i, j - 1, id);
      RunInv(run, evs, j - 1);
      DeadStays(run[j - 1], evs[j - 1], id);
    }
  }

  /** Once an issued session has been refused, it is refused for good. */
  lemma RefusedForever(run: seq<World>, evs: seq<Event>, i: nat, j: nat, id: Key, now: Time)
    requires IsRun(run, evs) && i < j < |run| && id in run[i].issued
    requires evs[i] == Validate(id, evs[i].now) && !Accepts(run[i].table, id, evs[i].now)
    requires run[j].now <= now
    ensures !Accepts(run[j].table, id, now)
  {
    hide Next, Elapsed, Chain, Unbroken;
    assert Can(run[i], evs[i]) && run[i + 1] == Next(run[i], evs[i]);
    RefusedDies(run[i], id, evs[i].now) by { RunInv(run, evs, i); }
    DeadForever(run, evs, i + 1, j, id);
    AcceptedIff(run, evs, j, id, now);
    RunInv(run, evs, j);
    assert Tracked(run[j], id);
    ChainIs(run[j].issued[id].times, now);
    if !Live(run[j].issued[id].times, run[j].now) { NeverRevives(run[j].issued[id].times, run[j].now, now); }
  }

  lemma RefusedDies(w: World, id: Key, now: Time)
    requires Inv(w) && w.now <= now && id in w.issued && !Accepts(w.table, id, now)
    ensures Dead(Next(w, Validate(id, now)), id)
  {
    hide Elapsed, Chain;
    assert Tracked(w, id);
    ChainNotEmpty(w.issued[id].times);
    Stays(w, id, now);
    if id in w.table { ExpiredIffNotLive(w, id, now); }
  }

  /** Only sessions that could still be accepted are ever counted as evicted. */
  lemma EvictedWasLive(run: seq<World>, evs: seq<Event>, i: nat, id: Key)
    requires IsRun(run, evs) && i < |evs| && evs[i].Issue? && id in evs[i].gone
    ensures Accepts(run[i].table, id, evs[i].now) && |run[i].table| == MAX_SESSIONS
    ensures |evs[i].gone| == |set k | k in run[i].table && Accepts(run[i].table, k, evs[i].now)| - 999
    ensures forall k :: Accepts(run[i].table, k, evs[i].now) && k !in evs[i].gone ==>
      run[i].table[id].access <= run[i].table[k].access
  {
    hide Next, Can, Accepts;
    RunInv(run, evs, i);
    assert Can(run[i], evs[i]);
    EvictedNow(run[i], evs[i], id);
  }

  lemma EvictedNow(w: World, ev: Event, id: Key)
    requires Can(w, ev) && ev.Issue? && id in ev.gone && |w.table| <= MAX_SESSIONS
    ensures Accepts(w.table, id, ev.now) && |w.table| == MAX_SESSIONS
    ensures |ev.gone| == |set k | k in w.table && Accepts(w.table, k, ev.now)| - 999
    ensures forall k :: Accepts(w.table, k, ev.now) && k !in ev.gone ==> w.table[id].access <= w.table[k].access
  {
    hide Expired;
    var kept := Cleaned(w.table, ev.now);
    assert |w.table| >= MAX_SESSIONS;
    assert kept.Keys == set k | k in w.table && Accepts(w.table, k, ev.now);
    assert forall k :: Accepts(w.table, k, ev.now) ==> k in kept && kept[k] == w.table[k];
  }

  // ----- The service as it works -----

  lemma NotAllGone(table: Table, gone: set<Key>)
    requires gone <= table.Keys && |gone| < Excess(table)
    ensures table - gone != map[]
  {
    assert (table - gone).Keys == table.Keys - gone;
    assert |table.Keys - gone| == |table.Keys| - |gone|;
  }

  lemma NoneOlder(table: Table)
    ensures Older(table, {})
  {}

  lemma OlderGrows(table: Table, gone: set<Key>, rest: Table, k: Key)
    requires gone <= table.Keys && Older(table, gone) && rest == table - gone
    requires k in rest && forall j :: j in rest ==> rest[k].access <= rest[j].access
    ensures gone + {k} <= table.Keys && |gone + {k}| == |gone| + 1 && Older(table, gone + {k})
    ensures table - (gone + {k}) == rest - {k}
  {
    forall g, j | g in gone + {k} && j in table && j !in gone + {k} ensures table[g].access <= table[j].access {
      assert j in rest;
    }
  }

  class AuthService {
    var sessions: Table

    constructor ()
      ensures sessions == map[]
    {
      sessions := map[];
    }

    method CleanupExpired(now: Time)
      modifies this
      ensures sessions == Cleaned(old(sessions), now)
    {
      sessions := map k | k in sessions && !Expired(sessions[k], now) :: sessions[k];
    }

    method FindOldest() returns (k: Key)
      requires sessions != map[]
      ensures k in sessions && forall j :: j in sessions ==> sessions[k].access <= sessions[j].access
    {
      var left := sessions.Keys;
      k :| k in left;
      left := left - {k};
      while left != {}
        invariant k in sessions && left <= sessions.Keys
        invariant forall j :: j in sessions && j !in left ==> sessions[k].access <= sessions[j].access
      {
        var j :| j in left;
        if sessions[j].access < sessions[k].access { k := j; }
        left := left - {j};
      }
    }

    /** Removes the `excess` sessions that come first in order of last access. */
    method EvictOldest(excess: nat) returns (ghost gone: set<Key>)
      requires excess == Excess(sessions)
      modifies this
      ensures LeastRecent(old(sessions), gone) && sessions == old(sessions) - gone
    {
      hide Older;
      NoneOlder(sessions);
      gone := {};
      for i := 0 to excess
        invariant gone <= old(sessions).Keys && |gone| == i && sessions == old(sessions) - gone
        invariant Older(old(sessions), gone)
      {
        NotAllGone(old(sessions), gone);
        var k := FindOldest();
        OlderGrows(old(sessions), gone, sessions, k);
        sessions := sessions - {k};
        gone := gone + {k};
      }
    }

    method MakeRoom(now: Time) returns (ghost gone: set<Key>)
      modifies this
      ensures sessions == Room(old(sessions), now, gone)
      ensures if |old(sessions)| < MAX_SESSIONS then gone == {} else LeastRecent(Cleaned(old(sessions), now), gone)
    {
      gone := {};
      if |sessions| < MAX_SESSIONS { return; }
      CleanupExpired(now);
      gone := EvictOldest(Excess(sessions));
    }

    method CreateAdminSession(id: Key, csrf: string, now: Time) returns (ghost gone: set<Key>)
      modifies this
      ensures sessions == Room(old(sessions), now, gone)[id := Session(csrf, now, now)]
      ensures if |old(sessions)| < MAX_SESSIONS then gone == {} else LeastRecent(Cleaned(old(sessions), now), gone)
    {
      gone := MakeRoom(now);
      sessions := sessions[id := Session(csrf, now, now)];
    }

    method ValidateAdminSession(id: Key, now: Time) returns (ok: bool)
      modifies this
      ensures ok <==> Accepts(old(sessions), id, now)
      ensures sessions == Validated(old(sessions), id, now)
      ensures ok ==> id in sessions && sessions[id] == old(sessions)[id].(access := now)
      ensures (!ok ==> id !in sessions) && sessions - {id} == old(sessions) - {id}
    {
      if id in sessions {
        if Expired(sessions[id], now) {
          sessions := sessions - {id};
          return false;
        }
        sessions := sessions[id := sessions[id].(access := now)];
        return true;
      }
      ok := false;
    }

    method ValidateAdminCsrf(id: Key, token: string, now: Time) returns (ok: bool)
      ensures ok <==> AcceptsCsrf(sessions, id, token, now)
    {
      ok := id in sessions && !Expired(sessions[id], now) && sessions[id].csrf == token;
    }
  }
}
