/** The admin state: resources and connectors in memory, their copy on disk, and the route
    table the proxy serves from.  Every handler that changes anything does so under the
    state's write lock, so each is one step; an update reads and validates first and takes
    the lock later, so it is two, with anything in between. */
module Admin {
  import opened Wrappers
  import opened SecureFile

  // ----- Names -----

  predicate IsSpace(c: char) {
    || '\U{9}' <= c <= '\U{d}' || c == ' ' || c == '\U{85}' || c == '\U{a0}' || c == '\U{1680}'
    || '\U{2000}' <= c <= '\U{200a}' || c == '\U{2028}' || c == '\U{2029}' || c == '\U{202f}'
    || c == '\U{205f}' || c == '\U{3000}'
  }

  function Trim(s: string): string
    decreases |s|
  {
    if s == [] then []
    else if IsSpace(s[0]) then Trim(s[1..])
    else if IsSpace(s[|s| - 1]) then Trim(s[..|s| - 1])
    else s
  }

  function LowerChar(c: char): char {
    if 'A' <= c <= 'Z' then (c as int + 32) as char else c
  }

  /** `to_ascii_lowercase`. */
  function Lower(s: string): (r: string)
    ensures |r| == |s| && forall i :: 0 <= i < |s| ==> r[i] == LowerChar(s[i])
  {
    seq(|s|, i requires 0 <= i < |s| => LowerChar(s[i]))
  }

  predicate LabelChar(c: char) {
    'a' <= c <= 'z' || 'A' <= c <= 'Z' || '0' <= c <= '9' || c == '-'
  }

  predicate ValidLabel(s: string) {
    && 1 <= |s| <= 63 && s[0] != '-' && s[|s| - 1] != '-'
    && forall i :: 0 <= i < |s| ==> LabelChar(s[i])
  }

  predicate Reserved(s: string) { s == "x2rp" || s == "www" }

  /** A subdomain as the handlers store it. */
  predicate Storable(s: string) { ValidLabel(s) && !Reserved(s) && Lower(s) == s }

  predicate AllSpace(s: string) { forall i :: 0 <= i < |s| ==> IsSpace(s[i]) }

  lemma NoSpace()
    ensures AllSpace([])
  {}

  lemma MoreInFront(s: string, a: string, t: string, b: string)
    requires s != [] && IsSpace(s[0]) && s[1..] == a + t + b && AllSpace(a)
    ensures s == [s[0]] + a + t + b && AllSpace([s[0]] + a)
  {
    hide IsSpace;
    assert s == [s[0]] + s[1..];
  }

  lemma MoreBehind(s: string, a: string, t: string, b: string)
    requires s != [] && IsSpace(s[|s| - 1]) && s[..|s| - 1] == a + t + b && AllSpace(b)
    ensures s == a + t + (b + [s[|s| - 1]]) && AllSpace(b + [s[|s| - 1]])
  {
    hide IsSpace;
    assert s == s[..|s| - 1] + [s[|s| - 1]];
  }

  /** Trimming takes the white space off both ends and nothing else. */
  lemma {:induction false} TrimIs(s: string) returns (a: string, b: string)
    ensures s == a + Trim(s) + b && AllSpace(a) && AllSpace(b)
    ensures Trim(s) != [] ==> !IsSpace(Trim(s)[0]) && !IsSpace(Trim(s)[|Trim(s)| - 1])
    decreases |s|
  {
    hide IsSpace, AllSpace;
    NoSpace();
    a, b := [], [];
    if s != [] && IsSpace(s[0]) {
      a, b := TrimIs(s[1..]);
      MoreInFront(s, a, Trim(s), b);
      a := [s[0]] + a;
    } else if s != [] && IsSpace(s[|s| - 1]) {
      a, b := TrimIs(s[..|s| - 1]);
      MoreBehind(s, a, Trim(s), b);
      b := b + [s[|s| - 1]];
    } else {
      assert s == [] + s + [];
    }
  }

  /** A connector id of white space alone is none; any other is trimmed. */
  lemma NormalizedIs(id: Option<string>)
    ensures Normalized(id).Some? <==> id.Some? && !AllSpace(id.value)
    ensures Normalized(id).Some? ==> Normalized(id).value == Trim(id.value)
  {
    hide IsSpace;
    if id.Some? {
      var a, b := TrimIs(id.value);
      if Trim(id.value) != [] {
        assert id.value[|a|] == Trim(id.value)[0];
      }
    }
  }

  /** Only the ASCII capitals change, each to its small letter. */
  lemma LowerIs(s: string, i: nat)
    requires i < |s|
    ensures var c, l := s[i], Lower(s)[i];
      if 'A' <= c <= 'Z' then 'a' <= l <= 'z' && l as int - 'a' as int == c as int - 'A' as int else l == c
  {}

  /** What may be stored as a subdomain. */
  lemma StorableIs(s: string)
    ensures Storable(s) <==>
      && 1 <= |s| <= 63 && s[0] != '-' && s[|s| - 1] != '-' && s != "x2rp" && s != "www"
      && forall i :: 0 <= i < |s| ==> 'a' <= s[i] <= 'z' || '0' <= s[i] <= '9' || s[i] == '-'
  {
    if Storable(s) {
      forall i | 0 <= i < |s| ensures !('A' <= s[i] <= 'Z') { assert Lower(s)[i] == s[i]; }
    }
    if forall i :: 0 <= i < |s| ==> 'a' <= s[i] <= 'z' || '0' <= s[i] <= '9' || s[i] == '-' {
      assert Lower(s) == s;
    }
  }

  lemma NormalizedIsStorable(s: string)
    requires ValidLabel(Lower(s)) && !Reserved(Lower(s))
    ensures Storable(Lower(s))
  {
    assert Lower(Lower(s)) == Lower(s);
  }

  function Normalized(id: Option<string>): Option<string> {
    if id.Some? && Trim(id.value) != [] then Some(Trim(id.value)) else None
  }

  /** The host a subdomain is served under. */
  function Fqdn(domain: string, sub: string): string { Lower(sub + "." + domain) }

  /** A stored subdomain is served under itself, a dot and the domain. */
  lemma FqdnIs(domain: string, sub: string)
    requires Storable(sub)
    ensures Fqdn(domain, sub) == sub + "." + Lower(domain)
  {
    var x, y := Fqdn(domain, sub), sub + "." + Lower(domain);
    forall i | 0 <= i < |x| ensures x[i] == y[i] {
      if i < |sub| { assert sub[i] == Lower(sub)[i]; }
    }
  }

  /** Two subdomains share a host only when they are equal ignoring case. */
  lemma FqdnInjective(domain: string, a: string, b: string)
    ensures Fqdn(domain, a) == Fqdn(domain, b) <==> Lower(a) == Lower(b)
  {
    var x, y := Fqdn(domain, a), Fqdn(domain, b);
    var tail := Lower("." + domain);
    assert x == Lower(a) + tail && y == Lower(b) + tail;
    if x == y {
      assert |a| == |b|;
      assert Lower(a) == x[..|a|] && Lower(b) == y[..|b|];
    }
  }

  // ----- State -----

  datatype Resource = Resource(id: string, subdomain: string, target: string, enabled: bool,
                               connector: Option<string>, clients: seq<string>)
  datatype Connector = Connector(id: string, name: string, tokenHash: string, forceWss: bool)
  datatype AppState = AppState(connectors: map<string, Connector>, resources: seq<Resource>)
  datatype Route = Route(subdomain: string, target: string, connector: Option<string>, clients: seq<string>)

  type Pair = (string, Option<string>)

  datatype World = World(
    mem: AppState,
    disk: AppState,
    routes: map<string, Route>,
    booted: bool,               // the boot-time route load is done
    pending: set<Resource>,     // updates read, merged and validated, waiting for the lock
    validated: set<Pair>)       // history: pairs `validate_target` has accepted

  /** `ProxyResource::from_resource`. */
  function ViewOf(r: Resource): Route { Route(r.subdomain, r.target, r.connector, r.clients) }

  /** `publish`: `set_resource` or `remove_resource`. */
  function Publish(domain: string, routes: map<string, Route>, r: Resource): map<string, Route> {
    if r.enabled then routes[Fqdn(domain, r.subdomain) := ViewOf(r)] else routes - {Fqdn(domain, r.subdomain)}
  }

  predicate InUse(rs: seq<Resource>, sub: string, exclude: Option<string>) {
    exists i :: 0 <= i < |rs| && exclude != Some(rs[i].id) && Lower(rs[i].subdomain) == Lower(sub)
  }

  predicate HasConnector(s: AppState, c: Option<string>) { c.Some? ==> c.value in s.connectors }

  function Find(rs: seq<Resource>, id: string): (r: Option<nat>)
    ensures r.Some? ==> r.value < |rs| && rs[r.value].id == id
    ensures r.None? ==> forall i :: 0 <= i < |rs| ==> rs[i].id != id
  {
    if rs == [] then None
    else if rs[0].id == id then Some(0)
    else
      var k := Find(rs[1..], id);
      if k.None? then None else Some(k.value + 1)
  }

  predicate Linked(rs: seq<Resource>, id: string) {
    exists i :: 0 <= i < |rs| && rs[i].connector == Some(id)
  }

  predicate Named(s: AppState, name: string) {
    exists id :: id in s.connectors && s.connectors[id].name == name
  }

  // ----- Steps -----

  /** An operation that would make memory `next`: kept only when the save succeeds, rolled
      back otherwise.  The file may have been replaced even so. */
  function Commit(w: World, next: AppState, save: Save): World {
    match save
    case Written => w.(mem := next, disk := next)
    case Untouched => w
    case Unconfirmed => w.(disk := next)
  }

  function Validated(w: World, r: Resource): World {
    w.(validated := w.validated + {(r.target, r.connector)})
  }

  function Added(s: AppState, r: Resource): AppState { s.(resources := s.resources + [r]) }

  function Replaced(s: AppState, i: nat, r: Resource): AppState
    requires i < |s.resources|
  {
    s.(resources := s.resources[i := r])
  }

  function Dropped(s: AppState, i: nat): AppState
    requires i < |s.resources|
  {
    s.(resources := s.resources[..i] + s.resources[i + 1..])
  }

  function Create(domain: string, w: World, r: Resource, save: Save): World {
    if InUse(w.mem.resources, r.subdomain, None) || !HasConnector(w.mem, r.connector) then w
    else
      var w' := Commit(w, Added(w.mem, r), save);
      if save == Written then w'.(routes := Publish(domain, w.routes, r)) else w'
  }

  function Update(domain: string, w: World, r: Resource, save: Save): World {
    var k := Find(w.mem.resources, r.id);
    if InUse(w.mem.resources, r.subdomain, Some(r.id)) || !HasConnector(w.mem, r.connector) || k.None? then w
    else
      var was := w.mem.resources[k.value];
      var w' := Commit(w, Replaced(w.mem, k.value, r), save);
      if save == Written
      then w'.(routes := Publish(domain, w.routes - {Fqdn(domain, was.subdomain)}, r)) else w'
  }

  function Delete(domain: string, w: World, id: string, save: Save): World {
    var k := Find(w.mem.resources, id);
    if k.None? then w
    else
      var was := w.mem.resources[k.value];
      var w' := Commit(w, Dropped(w.mem, k.value), save);
      if save == Written then w'.(routes := w.routes - {Fqdn(domain, was.subdomain)}) else w'
  }

  function PutConnector(s: AppState, c: Connector): AppState { s.(connectors := s.connectors[c.id := c]) }

  function CreateConnector(w: World, c: Connector, save: Save): World {
    if Named(w.mem, c.name) then w else Commit(w, PutConnector(w.mem, c), save)
  }

  function Regenerate(w: World, id: string, hash: string, save: Save): World {
    if id !in w.mem.connectors then w
    else Commit(w, PutConnector(w.mem, w.mem.connectors[id].(tokenHash := hash)), save)
  }

  function DeleteConnector(w: World, id: string, save: Save): World {
    if Linked(w.mem.resources, id) || id !in w.mem.connectors then w
    else Commit(w, w.mem.(connectors := w.mem.connectors - {id}), save)
  }

  /** A preference: the new value stays in memory even when it could not be saved. */
  function SetForceWss(w: World, id: string, force: bool, save: Save): World {
    if id !in w.mem.connectors || w.mem.connectors[id].forceWss == force then w
    else
      var next := PutConnector(w.mem, w.mem.connectors[id].(forceWss := force));
      Commit(w, next, save).(mem := next)
  }

  /** The boot-time load of the first `n` resources. */
  function Loaded(domain: string, rs: seq<Resource>, routes: map<string, Route>, n: nat): map<string, Route>
    requires n <= |rs|
  {
    if n == 0 then routes
    else
      var before := Loaded(domain, rs, routes, n - 1);
      if rs[n - 1].enabled then Publish(domain, before, rs[n - 1]) else before
  }

  datatype Step =
    | CreateStep(r: Resource, save: Save)
    | BeginUpdate(r: Resource)
    | FinishUpdate(r: Resource, save: Save)
    | DeleteStep(id: string, save: Save)
    | CreateConnectorStep(c: Connector, save: Save)
    | RegenerateStep(id: string, hash: string, save: Save)
    | DeleteConnectorStep(id: string, save: Save)
    | ForceWssStep(id: string, force: bool, save: Save)
    | Boot
    | Restart

  predicate Can(w: World, st: Step) {
    match st
    // Enabled, with a fresh random id; normalised, and accepted by the validators.
    case CreateStep(r, _) =>
      r.enabled && Storable(r.subdomain) && forall i :: 0 <= i < |w.mem.resources| ==> w.mem.resources[i].id != r.id
    // Some resource with that id was read; its name is kept or replaced by a valid one.
    case BeginUpdate(r) =>
      exists i :: 0 <= i < |w.mem.resources| && w.mem.resources[i].id == r.id
                  && (w.mem.resources[i].subdomain == r.subdomain || Storable(r.subdomain))
    case FinishUpdate(r, _) => r in w.pending
    case CreateConnectorStep(c, _) => c.id !in w.mem.connectors
    case Boot => !w.booted
    case _ => true
  }

  function Next(domain: string, w: World, st: Step): World {
    match st
    case CreateStep(r, save) => Create(domain, Validated(w, r), r, save)
    case BeginUpdate(r) => Validated(w, r).(pending := w.pending + {r})
    case FinishUpdate(r, save) => Update(domain, w.(pending := w.pending - {r}), r, save)
    case DeleteStep(id, save) => Delete(domain, w, id, save)
    case CreateConnectorStep(c, save) => CreateConnector(w, c, save)
    case RegenerateStep(id, hash, save) => Regenerate(w, id, hash, save)
    case DeleteConnectorStep(id, save) => DeleteConnector(w, id, save)
    case ForceWssStep(id, force, save) => SetForceWss(w, id, force, save)
    case Boot => w.(routes := Loaded(domain, w.mem.resources, w.routes, |w.mem.resources|), booted := true)
    case Restart => w.(mem := w.disk, routes := map[], booted := false, pending := {})
  }

  // ----- Invariant -----

  predicate Distinct(rs: seq<Resource>) {
    forall i, j :: 0 <= i < j < |rs| ==> rs[i].id != rs[j].id && Lower(rs[i].subdomain) != Lower(rs[j].subdomain)
  }

  predicate Backed(s: AppState, validated: set<Pair>, r: Resource) {
    Storable(r.subdomain) && HasConnector(s, r.connector) && (r.target, r.connector) in validated
  }

  predicate Integrity(s: AppState, validated: set<Pair>) {
    && Distinct(s.resources)
    && (forall i :: 0 <= i < |s.resources| ==> Backed(s, validated, s.resources[i]))
    && (forall id :: id in s.connectors ==> s.connectors[id].id == id)
    && (forall a, b :: a in s.connectors && b in s.connectors && s.connectors[a].name == s.connectors[b].name ==>
          a == b)
  }

  predicate Serves(domain: string, r: Resource, host: string, route: Route) {
    r.enabled && Fqdn(domain, r.subdomain) == host && route == ViewOf(r)
  }

  /** Every route is the view of an enabled resource under its host. */
  predicate RoutesSound(domain: string, rs: seq<Resource>, routes: map<string, Route>) {
    forall h :: h in routes ==> exists i :: 0 <= i < |rs| && Serves(domain, rs[i], h, routes[h])
  }

  /** Every enabled resource has its route. */
  predicate RoutesComplete(domain: string, rs: seq<Resource>, routes: map<string, Route>) {
    forall i :: 0 <= i < |rs| && rs[i].enabled ==>
      Fqdn(domain, rs[i].subdomain) in routes && routes[Fqdn(domain, rs[i].subdomain)] == ViewOf(rs[i])
  }

  ghost predicate Inv(domain: string, w: World) {
    && Integrity(w.mem, w.validated) && Integrity(w.disk, w.validated)
    && RoutesSound(domain, w.mem.resources, w.routes)
    && (w.booted ==> RoutesComplete(domain, w.mem.resources, w.routes))
    && (forall r :: r in w.pending ==> Storable(r.subdomain) && (r.target, r.connector) in w.validated)
  }

  lemma AddedIntegrity(s: AppState, validated: set<Pair>, r: Resource)
    requires Integrity(s, validated) && Backed(s, validated, r) && !InUse(s.resources, r.subdomain, None)
    requires forall i :: 0 <= i < |s.resources| ==> s.resources[i].id != r.id
    ensures Integrity(Added(s, r), validated)
  {
    hide Storable, Lower;
  }

  lemma ReplacedIntegrity(s: AppState, validated: set<Pair>, k: nat, r: Resource)
    requires Integrity(s, validated) && Backed(s, validated, r) && !InUse(s.resources, r.subdomain, Some(r.id))
    requires k < |s.resources| && s.resources[k].id == r.id
    ensures Integrity(Replaced(s, k, r), validated)
  {
    hide Storable, Lower;
  }

  lemma DroppedIntegrity(s: AppState, validated: set<Pair>, k: nat)
    requires Integrity(s, validated) && k < |s.resources|
    ensures Integrity(Dropped(s, k), validated)
  {
    hide Storable, Lower;
  }

  lemma MoreValidated(s: AppState, a: set<Pair>, b: set<Pair>)
    requires Integrity(s, a) && a <= b
    ensures Integrity(s, b)
  {
    hide Storable;
  }

  lemma AddedRoutes(domain: string, rs: seq<Resource>, routes: map<string, Route>, r: Resource)
    requires RoutesSound(domain, rs, routes) && !InUse(rs, r.subdomain, None)
    ensures RoutesSound(domain, rs + [r], Publish(domain, routes, r))
    ensures RoutesComplete(domain, rs, routes) ==> RoutesComplete(domain, rs + [r], Publish(domain, routes, r))
  {
    hide Fqdn, Lower;
    var rs', routes' := rs + [r], Publish(domain, routes, r);
    forall h | h in routes'
      ensures exists i :: 0 <= i < |rs'| && Serves(domain, rs'[i], h, routes'[h])
    {
      if h == Fqdn(domain, r.subdomain) {
        assert Serves(domain, rs'[|rs|], h, routes'[h]);
      } else {
        var i :| 0 <= i < |rs| && Serves(domain, rs[i], h, routes[h]);
        assert Serves(domain, rs'[i], h, routes'[h]);
      }
    }
    forall i | 0 <= i < |rs| ensures Fqdn(domain, rs[i].subdomain) != Fqdn(domain, r.subdomain) {
      FqdnInjective(domain, rs[i].subdomain, r.subdomain);
    }
  }

  lemma DroppedRoutes(domain: string, rs: seq<Resource>, routes: map<string, Route>, k: nat)
    requires RoutesSound(domain, rs, routes) && Distinct(rs) && k < |rs|
    ensures var rs', routes' := rs[..k] + rs[k + 1..], routes - {Fqdn(domain, rs[k].subdomain)};
      RoutesSound(domain, rs', routes') && (RoutesComplete(domain, rs, routes) ==> RoutesComplete(domain, rs', routes'))
  {
    hide Fqdn, Lower;
    var rs', routes' := rs[..k] + rs[k + 1..], routes - {Fqdn(domain, rs[k].subdomain)};
    forall h | h in routes'
      ensures exists i :: 0 <= i < |rs'| && Serves(domain, rs'[i], h, routes'[h])
    {
      var i :| 0 <= i < |rs| && Serves(domain, rs[i], h, routes[h]);
      var j := if i < k then i else i - 1;
      assert Serves(domain, rs'[j], h, routes'[h]);
    }
    forall i | 0 <= i < |rs| && i != k ensures Fqdn(domain, rs[i].subdomain) != Fqdn(domain, rs[k].subdomain) {
      FqdnInjective(domain, rs[i].subdomain, rs[k].subdomain);
    }
  }

  /** Replacing in place is, for the routes, dropping the old and adding the new. */
  lemma ReplacedRoutes(domain: string, rs: seq<Resource>, routes: map<string, Route>, k: nat, r: Resource)
    requires RoutesSound(domain, rs, routes) && Distinct(rs) && k < |rs| && rs[k].id == r.id
    requires !InUse(rs, r.subdomain, Some(r.id))
    ensures var routes' := Publish(domain, routes - {Fqdn(domain, rs[k].subdomain)}, r);
      && RoutesSound(domain, rs[k := r], routes')
      && (RoutesComplete(domain, rs, routes) ==> RoutesComplete(domain, rs[k := r], routes'))
  {
    hide Fqdn, Lower, RoutesSound, RoutesComplete, Publish;
    var rest := rs[..k] + rs[k + 1..];
    DroppedRoutes(domain, rs, routes, k);
    assert !InUse(rest, r.subdomain, None);
    SameMembers(rs, k, r);
    AddedRoutes(domain, rest, routes - {Fqdn(domain, rs[k].subdomain)}, r);
    Reordered(domain, rest + [r], rs[k := r], Publish(domain, routes - {Fqdn(domain, rs[k].subdomain)}, r));
  }

  predicate SameSet(a: seq<Resource>, b: seq<Resource>) {
    (forall r :: r in a ==> r in b) && (forall r :: r in b ==> r in a)
  }

  lemma SameMembers(rs: seq<Resource>, k: nat, r: Resource)
    requires k < |rs|
    ensures SameSet(rs[..k] + rs[k + 1..] + [r], rs[k := r])
  {
    var a, b := rs[..k] + rs[k + 1..] + [r], rs[k := r];
    assert a[|rs| - 1] == b[k];
    assert forall i :: 0 <= i < k ==> a[i] == b[i];
    assert forall i :: k < i < |rs| ==> b[i] == a[i - 1];
    assert forall i :: k <= i < |rs| - 1 ==> a[i] == b[i + 1];
  }

  /** The order of the resources does not matter to the routes. */
  lemma Reordered(domain: string, rs: seq<Resource>, rs': seq<Resource>, routes: map<string, Route>)
    requires SameSet(rs, rs')
    ensures RoutesSound(domain, rs, routes) ==> RoutesSound(domain, rs', routes)
    ensures RoutesComplete(domain, rs, routes) ==> RoutesComplete(domain, rs', routes)
  {
    hide Fqdn, ViewOf;
    if RoutesSound(domain, rs, routes) {
      forall h | h in routes
        ensures exists i :: 0 <= i < |rs'| && Serves(domain, rs'[i], h, routes[h])
      {
        var i :| 0 <= i < |rs| && Serves(domain, rs[i], h, routes[h]);
        assert rs[i] in rs';
        var j :| 0 <= j < |rs'| && rs'[j] == rs[i];
        assert Serves(domain, rs'[j], h, routes[h]);
      }
    }
    if RoutesComplete(domain, rs, routes) {
      forall j | 0 <= j < |rs'| && rs'[j].enabled
        ensures Fqdn(domain, rs'[j].subdomain) in routes && routes[Fqdn(domain, rs'[j].subdomain)] == ViewOf(rs'[j])
      {
        assert rs'[j] in rs;
        var i :| 0 <= i < |rs| && rs[i] == rs'[j];
      }
    }
  }

  lemma PublishedSound(domain: string, rs: seq<Resource>, routes: map<string, Route>, k: nat)
    requires RoutesSound(domain, rs, routes) && k < |rs| && rs[k].enabled
    ensures RoutesSound(domain, rs, Publish(domain, routes, rs[k]))
  {
    hide Fqdn;
    var after := Publish(domain, routes, rs[k]);
    forall h | h in after
      ensures exists i :: 0 <= i < |rs| && Serves(domain, rs[i], h, after[h])
    {
      if h == Fqdn(domain, rs[k].subdomain) {
        assert Serves(domain, rs[k], h, after[h]);
      } else {
        assert h in routes && after[h] == routes[h];
      }
    }
  }

  lemma PublishedComplete(domain: string, rs: seq<Resource>, routes: map<string, Route>, k: nat)
    requires k < |rs| && RoutesComplete(domain, rs[..k], routes) && Distinct(rs) && rs[k].enabled
    ensures RoutesComplete(domain, rs[..k + 1], Publish(domain, routes, rs[k]))
  {
    hide Fqdn, Lower;
    var after, first := Publish(domain, routes, rs[k]), rs[..k + 1];
    forall i | 0 <= i <= k && first[i].enabled
      ensures Fqdn(domain, first[i].subdomain) in after && after[Fqdn(domain, first[i].subdomain)] == ViewOf(first[i])
    {
      if i < k {
        assert first[i] == rs[..k][i];
        FqdnInjective(domain, rs[i].subdomain, rs[k].subdomain);
      }
    }
  }

  /** Loading on top of routes that are already right leaves them right and completes them. */
  lemma {:induction false} LoadedRoutes(domain: string, rs: seq<Resource>, routes: map<string, Route>, n: nat)
    requires RoutesSound(domain, rs, routes) && Distinct(rs) && n <= |rs|
    ensures RoutesSound(domain, rs, Loaded(domain, rs, routes, n))
    ensures RoutesComplete(domain, rs[..n], Loaded(domain, rs, routes, n))
  {
    hide RoutesSound, RoutesComplete, Distinct, Publish;
    if n == 0 {
      NothingToServe(domain, routes);
      assert rs[..0] == [];
    } else {
      LoadedRoutes(domain, rs, routes, n - 1);
      var before := Loaded(domain, rs, routes, n - 1);
      if rs[n - 1].enabled {
        PublishedSound(domain, rs, before, n - 1);
        PublishedComplete(domain, rs, before, n - 1);
      } else {
        StillComplete(domain, rs, before, n - 1);
      }
    }
  }

  lemma NothingToServe(domain: string, routes: map<string, Route>)
    ensures RoutesComplete(domain, [], routes)
  {}

  lemma StillComplete(domain: string, rs: seq<Resource>, routes: map<string, Route>, k: nat)
    requires k < |rs| && RoutesComplete(domain, rs[..k], routes) && !rs[k].enabled
    ensures RoutesComplete(domain, rs[..k + 1], routes)
  {
    hide Fqdn, ViewOf;
    assert rs[..k] == rs[..k + 1][..k];
  }

  // ----- Every step keeps the invariant -----

  lemma ValidatedInv(domain: string, w: World, r: Resource)
    requires Inv(domain, w)
    ensures Inv(domain, Validated(w, r))
  {
    hide Integrity, RoutesSound, RoutesComplete, Storable;
    MoreValidated(w.mem, w.validated, Validated(w, r).validated);
    MoreValidated(w.disk, w.validated, Validated(w, r).validated);
  }

  lemma CreateInv(domain: string, w: World, r: Resource, save: Save)
    requires Inv(domain, w) && Storable(r.subdomain) && (r.target, r.connector) in w.validated
    requires forall i :: 0 <= i < |w.mem.resources| ==> w.mem.resources[i].id != r.id
    ensures Inv(domain, Create(domain, w, r, save))
  {
    hide Integrity, RoutesSound, RoutesComplete, Storable, Publish;
    if !InUse(w.mem.resources, r.subdomain, None) && HasConnector(w.mem, r.connector) {
      AddedIntegrity(w.mem, w.validated, r);
      AddedRoutes(domain, w.mem.resources, w.routes, r);
    }
  }

  lemma UpdateInv(domain: string, w: World, r: Resource, save: Save)
    requires Inv(domain, w) && Storable(r.subdomain) && (r.target, r.connector) in w.validated
    ensures Inv(domain, Update(domain, w, r, save))
  {
    hide RoutesSound, RoutesComplete, Storable, Publish;
    var k := Find(w.mem.resources, r.id);
    if !InUse(w.mem.resources, r.subdomain, Some(r.id)) && HasConnector(w.mem, r.connector) && k.Some? {
      ReplacedIntegrity(w.mem, w.validated, k.value, r);
      ReplacedRoutes(domain, w.mem.resources, w.routes, k.value, r);
    }
  }

  lemma DeleteInv(domain: string, w: World, id: string, save: Save)
    requires Inv(domain, w)
    ensures Inv(domain, Delete(domain, w, id, save))
  {
    hide RoutesSound, RoutesComplete, Storable;
    var k := Find(w.mem.resources, id);
    if k.Some? {
      DroppedIntegrity(w.mem, w.validated, k.value);
      DroppedRoutes(domain, w.mem.resources, w.routes, k.value);
    }
  }

  lemma PutIntegrity(s: AppState, validated: set<Pair>, c: Connector)
    requires Integrity(s, validated)
    requires if c.id in s.connectors then s.connectors[c.id].name == c.name else !Named(s, c.name)
    ensures Integrity(PutConnector(s, c), validated)
  {
    hide Storable, Lower;
  }

  lemma KeyIsId(s: AppState, validated: set<Pair>, id: string)
    requires Integrity(s, validated) && id in s.connectors
    ensures s.connectors[id].id == id
  {}

  lemma CutIntegrity(s: AppState, validated: set<Pair>, id: string)
    requires Integrity(s, validated) && !Linked(s.resources, id)
    ensures Integrity(s.(connectors := s.connectors - {id}), validated)
  {
    hide Storable, Lower;
  }

  lemma ConnectorsInv(domain: string, w: World, st: Step)
    requires Inv(domain, w) && Can(w, st)
    requires st.CreateConnectorStep? || st.RegenerateStep? || st.DeleteConnectorStep? || st.ForceWssStep?
    ensures Inv(domain, Next(domain, w, st))
  {
    hide RoutesSound, RoutesComplete, Storable, Integrity;
    match st
    case CreateConnectorStep(c, _) =>
      if !Named(w.mem, c.name) { PutIntegrity(w.mem, w.validated, c); }
    case RegenerateStep(id, hash, _) =>
      if id in w.mem.connectors {
        KeyIsId(w.mem, w.validated, id);
        PutIntegrity(w.mem, w.validated, w.mem.connectors[id].(tokenHash := hash));
      }
    case DeleteConnectorStep(id, _) =>
      if !Linked(w.mem.resources, id) { CutIntegrity(w.mem, w.validated, id); }
    case ForceWssStep(id, force, _) =>
      if id in w.mem.connectors {
        KeyIsId(w.mem, w.validated, id);
        PutIntegrity(w.mem, w.validated, w.mem.connectors[id].(forceWss := force));
      }
  }

  lemma StepInv(domain: string, w: World, st: Step)
    requires Inv(domain, w) && Can(w, st)
    ensures Inv(domain, Next(domain, w, st))
  {
    hide RoutesSound, RoutesComplete, Create, Update, Delete, Storable;
    match st
    case CreateStep(r, save) => ValidatedInv(domain, w, r); CreateInv(domain, Validated(w, r), r, save);
    case BeginUpdate(r) => ValidatedInv(domain, w, r);
    case FinishUpdate(r, save) => UpdateInv(domain, w.(pending := w.pending - {r}), r, save);
    case DeleteStep(id, save) => DeleteInv(domain, w, id, save);
    case Boot =>
      var n := |w.mem.resources|;
      LoadedRoutes(domain, w.mem.resources, w.routes, n);
      assert w.mem.resources[..n] == w.mem.resources;
    case Restart => NoRoutes(domain, w.disk.resources);
    case _ => ConnectorsInv(domain, w, st);
  }

  lemma NoRoutes(domain: string, rs: seq<Resource>)
    ensures RoutesSound(domain, rs, map[])
  {}

  // ----- Runs -----

  /** A fresh install. */
  function Init(): World {
    World(AppState(map[], []), AppState(map[], []), map[], false, {}, {})
  }

  predicate IsRun(domain: string, run: seq<World>, steps: seq<Step>) {
    && |run| == |steps| + 1 && run[0] == Init()
    && forall i :: 0 <= i < |steps| ==> Can(run[i], steps[i]) && run[i + 1] == Next(domain, run[i], steps[i])
  }

  lemma {:induction false} RunInv(domain: string, run: seq<World>, steps: seq<Step>, i: nat)
    requires IsRun(domain, run, steps) && i < |run|
    ensures Inv(domain, run[i])
  {
    hide Can, Next;
    if i > 0 {
      RunInv(domain, run, steps, i - 1);
      StepInv(domain, run[i - 1], steps[i - 1]);
    }
  }

  /** Once booted, the route table is exactly the enabled resources under their hosts: over
      every sequence of creates, updates from stale reads, deletes, failed saves and
      restarts.  The admin's own names are never among them. */
  lemma RouteAgreement(domain: string, run: seq<World>, steps: seq<Step>, i: nat, host: string)
    requires IsRun(domain, run, steps) && i < |run| && run[i].booted
    ensures host in run[i].routes <==>
      exists r :: r in run[i].mem.resources && r.enabled && Fqdn(domain, r.subdomain) == host
    ensures forall r :: r in run[i].mem.resources && r.enabled && Fqdn(domain, r.subdomain) == host ==>
      && run[i].routes[host].subdomain == r.subdomain && run[i].routes[host].target == r.target
      && run[i].routes[host].connector == r.connector && run[i].routes[host].clients == r.clients
    ensures host in run[i].routes ==> host != Fqdn(domain, "x2rp") && host != Fqdn(domain, "www")
  {
    hide Fqdn, IsRun, Lower;
    RunInv(domain, run, steps, i);
    var rs, routes := run[i].mem.resources, run[i].routes;
    if host in routes {
      var k :| 0 <= k < |rs| && Serves(domain, rs[k], host, routes[host]);
      assert rs[k] in rs;
      ReservedHosts(domain, rs[k].subdomain);
    }
  }

  lemma ReservedHosts(domain: string, sub: string)
    requires Storable(sub)
    ensures Fqdn(domain, sub) != Fqdn(domain, "x2rp") && Fqdn(domain, sub) != Fqdn(domain, "www")
  {
    FqdnInjective(domain, sub, "x2rp");
    FqdnInjective(domain, sub, "www");
    assert Lower("x2rp") == "x2rp" && Lower("www") == "www";
  }

  /** In memory and on disk alike, whatever failed: names are distinct ignoring case, every
      connector a resource names exists, and every target was validated for that connector. */
  lemma StateIntegrity(domain: string, run: seq<World>, steps: seq<Step>, i: nat)
    requires IsRun(domain, run, steps) && i < |run|
    ensures Integrity(run[i].mem, run[i].validated) && Integrity(run[i].disk, run[i].validated)
  {
    hide Integrity, IsRun;
    RunInv(domain, run, steps, i);
  }

  // ----- Memory and disk -----

  /** Agreement on resources and on connector id, name and token hash. */
  predicate Agree(a: AppState, b: AppState) {
    && a.resources == b.resources && a.connectors.Keys == b.connectors.Keys
    && forall id :: id in a.connectors ==> a.connectors[id].(forceWss := false) == b.connectors[id].(forceWss := false)
  }

  /** The step gets as far as a save that renames the new file into place and then fails,
      and what it wrote differs from what it rolls back to. */
  predicate Slips(w: World, st: Step) {
    match st
    case CreateStep(r, save) =>
      save == Unconfirmed && !InUse(w.mem.resources, r.subdomain, None) && HasConnector(w.mem, r.connector)
    case FinishUpdate(r, save) =>
      var k := Find(w.mem.resources, r.id);
      save == Unconfirmed && !InUse(w.mem.resources, r.subdomain, Some(r.id)) && HasConnector(w.mem, r.connector)
      && k.Some? && w.mem.resources[k.value] != r
    case DeleteStep(id, save) => save == Unconfirmed && Find(w.mem.resources, id).Some?
    case CreateConnectorStep(c, save) => save == Unconfirmed && !Named(w.mem, c.name)
    case RegenerateStep(id, hash, save) =>
      save == Unconfirmed && id in w.mem.connectors && w.mem.connectors[id].tokenHash != hash
    case DeleteConnectorStep(id, save) =>
      save == Unconfirmed && !Linked(w.mem.resources, id) && id in w.mem.connectors
    case _ => false
  }

  lemma CommitAgrees(w: World, next: AppState, save: Save)
    requires Agree(w.mem, w.disk)
    ensures var n := Commit(w, next, save);
      Agree(n.mem, n.disk) <==> (save == Unconfirmed ==> Agree(w.mem, next))
  {}

  lemma ConnectorsDiffer(s: AppState, c: Connector, id: string)
    ensures Agree(s, PutConnector(s, c)) <==>
      c.id in s.connectors && s.connectors[c.id].(forceWss := false) == c.(forceWss := false)
    ensures id in s.connectors ==> !Agree(s, s.(connectors := s.connectors - {id}))
  {
    var put, cut := PutConnector(s, c), s.(connectors := s.connectors - {id});
    assert c.id in put.connectors.Keys && id !in cut.connectors.Keys;
    if c.id in s.connectors {
      assert put.connectors.Keys == s.connectors.Keys;
    }
  }

  lemma ConnectorAgreesIff(domain: string, w: World, st: Step)
    requires Integrity(w.mem, w.validated) && Can(w, st) && Agree(w.mem, w.disk)
    requires st.CreateConnectorStep? || st.RegenerateStep? || st.DeleteConnectorStep?
    ensures Agree(Next(domain, w, st).mem, Next(domain, w, st).disk) <==> !Slips(w, st)
  {
    hide Agree, Linked, Named, Distinct, Backed;
    match st
    case CreateConnectorStep(c, save) =>
      CommitAgrees(w, PutConnector(w.mem, c), save);
      ConnectorsDiffer(w.mem, c, "");
    case RegenerateStep(id, hash, save) =>
      if id in w.mem.connectors {
        var c := w.mem.connectors[id].(tokenHash := hash);
        CommitAgrees(w, PutConnector(w.mem, c), save);
        ConnectorsDiffer(w.mem, c, "");
      }
    case DeleteConnectorStep(id, save) =>
      CommitAgrees(w, w.mem.(connectors := w.mem.connectors - {id}), save);
      ConnectorsDiffer(w.mem, Connector("", "", "", false), id);
  }

  lemma ResourcesDiffer(s: AppState, k: nat, r: Resource)
    ensures !Agree(s, Added(s, r))
    ensures k < |s.resources| ==> !Agree(s, Dropped(s, k))
    ensures k < |s.resources| ==> (Agree(s, Replaced(s, k, r)) <==> s.resources[k] == r)
  {
    assert |Added(s, r).resources| == |s.resources| + 1;
    if k < |s.resources| {
      assert Replaced(s, k, r).resources[k] == r;
    }
  }

  lemma ResourceAgreesIff(domain: string, w: World, st: Step)
    requires Can(w, st) && Agree(w.mem, w.disk)
    requires st.CreateStep? || st.FinishUpdate? || st.DeleteStep?
    ensures Agree(Next(domain, w, st).mem, Next(domain, w, st).disk) <==> !Slips(w, st)
  {
    hide Agree, InUse, HasConnector, Storable, Fqdn, Publish;
    match st
    case CreateStep(r, save) =>
      CommitAgrees(Validated(w, r), Added(w.mem, r), save);
      ResourcesDiffer(w.mem, 0, r);
    case FinishUpdate(r, save) =>
      var k := Find(w.mem.resources, r.id);
      if k.Some? {
        CommitAgrees(w.(pending := w.pending - {r}), Replaced(w.mem, k.value, r), save);
        ResourcesDiffer(w.mem, k.value, r);
      }
    case DeleteStep(id, save) =>
      var k := Find(w.mem.resources, id);
      if k.Some? {
        CommitAgrees(w, Dropped(w.mem, k.value), save);
        ResourcesDiffer(w.mem, k.value, w.mem.resources[k.value]);
      }
  }

  lemma PreferenceAgrees(w: World, id: string, force: bool, save: Save)
    requires Integrity(w.mem, w.validated) && Agree(w.mem, w.disk)
    ensures var n := SetForceWss(w, id, force, save); Agree(n.mem, n.disk)
  {
    hide Distinct, Backed;
  }

  /** From agreement, a step leads to agreement exactly when it does not slip. */
  lemma AgreesIff(domain: string, w: World, st: Step)
    requires Inv(domain, w) && Can(w, st) && Agree(w.mem, w.disk)
    ensures Agree(Next(domain, w, st).mem, Next(domain, w, st).disk) <==> !Slips(w, st)
  {
    hide Can, RoutesSound, RoutesComplete, Storable, Integrity;
    hide Create, Update, Delete, CreateConnector, Regenerate, DeleteConnector, SetForceWss;
    match st
    case BeginUpdate(_) =>
    case Boot =>
    case Restart =>
    case ForceWssStep(id, force, save) => PreferenceAgrees(w, id, force, save);
    case CreateStep(_, _) => ResourceAgreesIff(domain, w, st);
    case FinishUpdate(_, _) => ResourceAgreesIff(domain, w, st);
    case DeleteStep(_, _) => ResourceAgreesIff(domain, w, st);
    case _ => ConnectorAgreesIff(domain, w, st);
  }

  /** Where every save either succeeds or leaves the old file, memory and disk agree after
      every operation, the rolled-back ones included. */
  lemma {:induction false} RunAgrees(domain: string, run: seq<World>, steps: seq<Step>, i: nat)
    requires IsRun(domain, run, steps) && i < |run|
    requires forall j :: 0 <= j < i ==> !Slips(run[j], steps[j])
    ensures Agree(run[i].mem, run[i].disk)
  {
    hide Can, Next, Slips;
    if i > 0 {
      RunAgrees(domain, run, steps, i - 1);
      RunInv(domain, run, steps, i - 1);
      AgreesIff(domain, run[i - 1], steps[i - 1]);
    }
  }

  /** Without that assumption they need not: a create that reports failure after the rename
      leaves a resource on disk that memory has forgotten, and a restart brings it to life. */
  lemma FailedCreateReturns(domain: string, r: Resource)
    requires r.enabled && Storable(r.subdomain) && r.connector == None
    ensures var steps := [CreateStep(r, Unconfirmed), Restart, Boot];
      var w1 := Next(domain, Init(), steps[0]);
      var w2 := Next(domain, w1, steps[1]);
      var w3 := Next(domain, w2, steps[2]);
      && IsRun(domain, [Init(), w1, w2, w3], steps)
      && w1.mem.resources == [] && w1.disk.resources == [r]
      && Fqdn(domain, r.subdomain) in w3.routes
  {
    hide Fqdn, Storable;
    var w := Init();
    assert Added(w.mem, r).resources == [r];
    assert Loaded(domain, [r], map[], 1) == Publish(domain, Loaded(domain, [r], map[], 0), r);
  }
}
