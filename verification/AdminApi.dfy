/** The admin handlers as they work: change memory, try to save, undo on failure, then
    publish.  Each is proved to be one step of `Admin`. */
module AdminApi {
  import opened Wrappers
  import opened SecureFile
  import opened Admin

  datatype Status = BadRequest | Forbidden | Conflict | NotFound | InternalError
  datatype Reply<+T> = Ok(value: T) | Err(status: Status) {
    predicate IsFailure() { Err? }
    function PropagateFailure<U>(): Reply<U> requires Err? { Err(status) }
    function Extract(): T requires Ok? { value }
  }

  /** The parts of an update request that are present; a connector may be set to none. */
  datatype Changes = Changes(subdomain: Option<string>, target: Option<string>, enabled: Option<bool>,
                             connector: Option<Option<string>>, clients: Option<Option<seq<string>>>)

  method ValidateSubdomain(s: string) returns (r: Reply<()>)
    ensures r == if !ValidLabel(s) then Err(BadRequest) else if Reserved(s) then Err(Forbidden) else Ok(())
  {
    if !ValidLabel(s) { return Err(BadRequest); }
    if Reserved(s) { return Err(Forbidden); }
    r := Ok(());
  }

  /** `n` is `r` with the fields the request gives, normalised, and its own otherwise. */
  ghost predicate Updates(r: Resource, c: Changes, n: Resource) {
    && n.id == r.id
    && (c.subdomain.Some? ==> n.subdomain == Lower(Trim(c.subdomain.value)))
    && (c.subdomain.None? ==> n.subdomain == r.subdomain)
    && (c.target.Some? ==> n.target == c.target.value) && (c.target.None? ==> n.target == r.target)
    && (c.enabled.Some? ==> n.enabled == c.enabled.value) && (c.enabled.None? ==> n.enabled == r.enabled)
    && (c.connector.Some? ==> n.connector == Normalized(c.connector.value))
    && (c.connector.None? ==> n.connector == r.connector)
    && (c.clients.Some? ==> c.clients.value == Some(n.clients)) && (c.clients.None? ==> n.clients == r.clients)
  }

  /** Some other resource holds the name, ignoring case. */
  ghost predicate Taken(rs: seq<Resource>, sub: string, id: string) {
    exists r :: r in rs && r.id != id && Lower(r.subdomain) == Lower(sub)
  }

  /** An enabled resource is served at its host as it is, a disabled one is not; no other host changes. */
  ghost predicate Shown(host: string, r: Resource, was: map<string, Route>, now: map<string, Route>) {
    && now - {host} == was - {host} && (host in now <==> r.enabled)
    && (r.enabled ==>
          && now[host].subdomain == r.subdomain && now[host].target == r.target
          && now[host].connector == r.connector && now[host].clients == r.clients)
  }

  /** `now` is `was` with the resource of `r`'s id replaced by `r`. */
  ghost predicate Swapped(was: seq<Resource>, r: Resource, now: seq<Resource>) {
    && |now| == |was|
    && forall i :: 0 <= i < |was| ==> now[i] == if was[i].id == r.id then r else was[i]
  }

  /** `now` is `was` without its one resource of that id, in the same order. */
  ghost predicate Excised(was: seq<Resource>, id: string, now: seq<Resource>) {
    && (exists k :: 0 <= k < |was| && was[k].id == id && now == was[..k] + was[k + 1..])
    && forall i :: 0 <= i < |now| ==> now[i].id != id
  }

  /** `retain(|r| r.id != id)`. */
  function Without(rs: seq<Resource>, id: string): seq<Resource> {
    if rs == [] then []
    else (if rs[0].id != id then [rs[0]] else []) + Without(rs[1..], id)
  }

  lemma {:induction false} WithoutFresh(rs: seq<Resource>, r: Resource)
    requires forall i :: 0 <= i < |rs| ==> rs[i].id != r.id
    ensures Without(rs + [r], r.id) == rs
  {
    if rs == [] {
      assert rs + [r] == [r];
    } else {
      WithoutFresh(rs[1..], r);
      assert (rs + [r])[1..] == rs[1..] + [r];
    }
  }

  /** The resource an update would leave, computed from the one that was read. */
  function Merged(r: Resource, c: Changes): Resource
    requires c.clients.Some? ==> c.clients.value.Some?
  {
    Resource(r.id,
             if c.subdomain.Some? then Lower(Trim(c.subdomain.value)) else r.subdomain,
             if c.target.Some? then c.target.value else r.target,
             if c.enabled.Some? then c.enabled.value else r.enabled,
             if c.connector.Some? then Normalized(c.connector.value) else r.connector,
             if c.clients.Some? then c.clients.value.value else r.clients)
  }

  lemma OneHolder(domain: string, w: World, id: string)
    requires Admin.Inv(domain, w)
    ensures var k := Find(w.mem.resources, id);
      forall i :: 0 <= i < |w.mem.resources| && k != Some(i) ==> w.mem.resources[i].id != id
  {
    hide RoutesSound, RoutesComplete, Backed, Lower;
  }

  lemma FoundIs(domain: string, w: World, r: Resource)
    requires Admin.Inv(domain, w)
    ensures var rs, k := w.mem.resources, Find(w.mem.resources, r.id);
      && (k.Some? <==> exists held :: held in rs && held.id == r.id)
      && (k.Some? ==> Swapped(rs, r, rs[k.value := r]))
  {
    OneHolder(domain, w, r.id);
    hide Inv;
    var k := Find(w.mem.resources, r.id);
    if k.Some? { assert w.mem.resources[k.value] in w.mem.resources; }
  }

  lemma CutOne(rs: seq<Resource>, k: nat, id: string)
    requires k < |rs| && rs[k].id == id && forall i :: 0 <= i < |rs| && i != k ==> rs[i].id != id
    ensures Excised(rs, id, rs[..k] + rs[k + 1..])
  {
    var rest := rs[..k] + rs[k + 1..];
    forall i | 0 <= i < |rest| ensures rest[i].id != id {
      assert rest[i] == if i < k then rs[i] else rs[i + 1];
    }
  }

  lemma ExcisedIs(domain: string, w: World, id: string)
    requires Admin.Inv(domain, w)
    ensures var rs, k := w.mem.resources, Find(w.mem.resources, id);
      && (k.Some? <==> exists held :: held in rs && held.id == id)
      && (k.Some? ==> Excised(rs, id, Dropped(w.mem, k.value).resources))
  {
    OneHolder(domain, w, id);
    hide Inv, Find, Excised;
    var rs, k := w.mem.resources, Find(w.mem.resources, id);
    if k.Some? {
      assert rs[k.value] in rs;
      CutOne(rs, k.value, id);
    }
  }

  lemma InUseIsTaken(rs: seq<Resource>, sub: string, id: string)
    ensures InUse(rs, sub, Some(id)) <==> Taken(rs, sub, id)
    ensures (forall i :: 0 <= i < |rs| ==> rs[i].id != id) ==> (InUse(rs, sub, None) <==> Taken(rs, sub, id))
  {
    hide Lower;
    if Taken(rs, sub, id) {
      var r :| r in rs && r.id != id && Lower(r.subdomain) == Lower(sub);
      var i :| 0 <= i < |rs| && rs[i] == r;
    }
    if InUse(rs, sub, Some(id)) {
      var i :| 0 <= i < |rs| && Some(id) != Some(rs[i].id) && Lower(rs[i].subdomain) == Lower(sub);
      assert rs[i] in rs;
    }
    if InUse(rs, sub, None) {
      var i :| 0 <= i < |rs| && None != Some(rs[i].id) && Lower(rs[i].subdomain) == Lower(sub);
      assert rs[i] in rs;
    }
  }

  class Api {
    const domain: string
    var connectors: map<string, Connector>
    var resources: seq<Resource>
    var routes: map<string, Route>
    var disk: AppState
    ghost var booted: bool
    ghost var pending: set<Resource>
    ghost var validated: set<Pair>

    ghost function Now(): World
      reads this
    {
      World(AppState(connectors, resources), disk, routes, booted, pending, validated)
    }

    ghost predicate Valid()
      reads this
    {
      Admin.Inv(domain, Now())
    }

    constructor (d: string)
      ensures domain == d && Now() == Admin.Init() && Valid()
    {
      domain := d;
      connectors, resources, routes := map[], [], map[];
      disk := AppState(map[], []);
      booted, pending, validated := false, {}, {};
    }

    /** `AppState::save`. */
    method Save(save: Save) returns (ok: bool)
      modifies this`disk
      ensures ok <==> save == Written
      ensures disk == if save == Untouched then old(disk) else AppState(connectors, resources)
    {
      if save != Untouched {
        disk := AppState(connectors, resources);
      }
      ok := save == Written;
    }

    method SetResource(r: Route)
      modifies this`routes
      ensures routes == old(routes)[Fqdn(domain, r.subdomain) := r]
    {
      routes := routes[Fqdn(domain, r.subdomain) := r];
    }

    method RemoveResource(sub: string)
      modifies this`routes
      ensures routes == old(routes) - {Fqdn(domain, sub)}
    {
      routes := routes - {Fqdn(domain, sub)};
    }

    method PublishResource(r: Resource)
      modifies this`routes
      ensures routes == Publish(domain, old(routes), r)
      ensures Shown(Fqdn(domain, r.subdomain), r, old(routes), routes)
    {
      if r.enabled {
        SetResource(ViewOf(r));
      } else {
        RemoveResource(r.subdomain);
      }
    }

    /** The part of `create_resource` under the write lock. */
    method Insert(r: Resource, save: Save) returns (reply: Reply<Resource>)
      requires Valid() && Can(Now(), CreateStep(r, save)) && (r.target, r.connector) in validated
      modifies this`resources, this`disk, this`routes
      ensures Now() == Create(domain, old(Now()), r, save)
      ensures reply ==
        if InUse(old(resources), r.subdomain, None) then Err(Conflict)
        else if !HasConnector(old(Now()).mem, r.connector) then Err(BadRequest)
        else if save != Written then Err(InternalError)
        else Ok(r)
    {
      hide Inv, Publish, Shown;
      if InUse(resources, r.subdomain, None) { return Err(Conflict); }
      if r.connector.Some? && r.connector.value !in connectors { return Err(BadRequest); }
      resources := resources + [r];
      var ok := Save(save);
      if !ok {
        WithoutFresh(old(resources), r);
        resources := Without(resources, r.id);
        return Err(InternalError);
      }
      PublishResource(r);
      reply := Ok(r);
    }

    /** `clients` is the parsed allowlist, `verdict` the answer of `validate_target`. */
    method CreateResource(subdomain: string, target: string, connector: Option<string>, clients: Option<seq<string>>,
                          id: string, verdict: Reply<()>, save: Save) returns (reply: Reply<Resource>)
      requires Valid() && forall i :: 0 <= i < |resources| ==> resources[i].id != id
      modifies this
      ensures Valid()
      ensures
        if clients.Some? && Storable(Lower(Trim(subdomain))) && verdict.Ok? then
          var r := Resource(id, Lower(Trim(subdomain)), target, true, Normalized(connector), clients.value);
          Now() == Next(domain, old(Now()), CreateStep(r, save)) && (reply.Ok? ==> reply == Ok(r))
        else Now() == old(Now()) && reply.Err?
      ensures reply.Ok? <==>
        && clients.Some? && Storable(Lower(Trim(subdomain))) && verdict.Ok? && save == Written
        && !Taken(old(resources), Lower(Trim(subdomain)), id)
        && (Normalized(connector).Some? ==> Normalized(connector).value in connectors)
      ensures connectors == old(connectors)
      ensures resources == old(resources) + if reply.Ok? then [reply.value] else []
      ensures reply.Ok? ==> disk == AppState(connectors, resources)
    {
      hide Inv, Publish, ValidLabel, Reserved;
      var sub := Lower(Trim(subdomain));
      var _ :- ValidateSubdomain(sub);
      if clients.None? { return Err(BadRequest); }
      var _ :- verdict;
      var r := Resource(id, sub, target, true, Normalized(connector), clients.value);
      InUseIsTaken(resources, sub, id);
      validated := validated + {(r.target, r.connector)};
      NormalizedIsStorable(Trim(subdomain));
      ValidatedInv(domain, old(Now()), r);
      StepInv(domain, old(Now()), CreateStep(r, save));
      reply := Insert(r, save);
    }

    /** The read half of `update_resource`: whatever happens before the other half, this
        candidate and the pair it was validated with stay as they are. */
    method BeginUpdate(id: string, c: Changes, verdict: Reply<()>) returns (reply: Reply<Resource>)
      requires Valid()
      modifies this`pending, this`validated
      ensures Valid()
      ensures reply.Err? ==> Now() == old(Now())
      ensures reply.Ok? <==>
        && (exists r :: r in resources && r.id == id) && verdict.Ok?
        && (c.subdomain.Some? ==> Storable(Lower(Trim(c.subdomain.value))))
        && (c.clients.Some? ==> c.clients.value.Some?)
      ensures reply.Ok? ==>
        && (c.clients.Some? ==> c.clients.value.Some?)
        && (exists r :: r in resources && r.id == id && Updates(r, c, reply.value))
        && Can(old(Now()), Admin.BeginUpdate(reply.value))
        && Now() == Next(domain, old(Now()), Admin.BeginUpdate(reply.value))
    {
      hide Inv, ValidLabel, Reserved;
      if c.subdomain.Some? {
        var _ :- ValidateSubdomain(Lower(Trim(c.subdomain.value)));
        NormalizedIsStorable(Trim(c.subdomain.value));
      }
      if c.clients.Some? && c.clients.value.None? { return Err(BadRequest); }
      var k := Find(resources, id);
      if k.None? { return Err(NotFound); }
      var resource := Merged(resources[k.value], c);
      assert resources[k.value] in resources;
      var _ :- verdict;
      StepInv(domain, Now(), Admin.BeginUpdate(resource));
      validated := validated + {(resource.target, resource.connector)};
      pending := pending + {resource};
      reply := Ok(resource);
    }

    /** The part of `update_resource` under the write lock. */
    method Replace(r: Resource, save: Save) returns (reply: Reply<Resource>)
      modifies this`resources, this`disk, this`routes
      ensures Now() == Update(domain, old(Now()), r, save)
      ensures reply ==
        if InUse(old(resources), r.subdomain, Some(r.id)) then Err(Conflict)
        else if !HasConnector(old(Now()).mem, r.connector) then Err(BadRequest)
        else if Find(old(resources), r.id).None? then Err(NotFound)
        else if save != Written then Err(InternalError)
        else Ok(r)
    {
      hide Publish, InUse, Shown;
      if InUse(resources, r.subdomain, Some(r.id)) { return Err(Conflict); }
      if r.connector.Some? && r.connector.value !in connectors { return Err(BadRequest); }
      var k := Find(resources, r.id);
      if k.None? { return Err(NotFound); }
      var idx := k.value;
      var was := resources[idx];
      resources := resources[idx := r];
      var ok := Save(save);
      if !ok {
        resources := resources[idx := was];
        assert resources == old(resources);
        return Err(InternalError);
      }
      RemoveResource(was.subdomain);
      PublishResource(r);
      reply := Ok(r);
    }

    /** The write half. */
    method FinishUpdate(resource: Resource, save: Save) returns (reply: Reply<Resource>)
      requires Valid() && resource in pending
      modifies this
      ensures Valid()
      ensures Now() == Next(domain, old(Now()), Admin.FinishUpdate(resource, save))
      ensures reply.Ok? <==>
        && save == Written && !Taken(old(resources), resource.subdomain, resource.id)
        && (resource.connector.Some? ==> resource.connector.value in connectors)
        && (exists r :: r in old(resources) && r.id == resource.id)
      ensures connectors == old(connectors)
      ensures if reply.Ok? then Swapped(old(resources), resource, resources) else resources == old(resources)
      ensures reply.Ok? ==> reply.value == resource && disk == AppState(connectors, resources)
    {
      FoundIs(domain, Now(), resource);
      InUseIsTaken(resources, resource.subdomain, resource.id);
      StepInv(domain, Now(), Admin.FinishUpdate(resource, save));
      hide Inv, Publish, InUse, Taken, Swapped;
      pending := pending - {resource};
      reply := Replace(resource, save);
    }

    /** The part of `delete_resource` under the write lock. */
    method Withdraw(id: string, save: Save) returns (reply: Reply<()>)
      modifies this`resources, this`disk, this`routes
      ensures Now() == Delete(domain, old(Now()), id, save)
      ensures reply ==
        if Find(old(resources), id).None? then Err(NotFound)
        else if save != Written then Err(InternalError) else Ok(())
    {
      hide Fqdn;
      var k := Find(resources, id);
      if k.None? { return Err(NotFound); }
      var index := k.value;
      var removed := resources[index];
      resources := resources[..index] + resources[index + 1..];
      var ok := Save(save);
      if !ok {
        resources := resources[..index] + [removed] + resources[index..];
        assert resources == old(resources);
        return Err(InternalError);
      }
      RemoveResource(removed.subdomain);
      reply := Ok(());
    }

    method DeleteResource(id: string, save: Save) returns (reply: Reply<()>)
      requires Valid()
      modifies this
      ensures Valid()
      ensures Now() == Next(domain, old(Now()), DeleteStep(id, save))
      ensures reply.Ok? <==> save == Written && exists r :: r in old(resources) && r.id == id
      ensures connectors == old(connectors)
      ensures if reply.Ok? then Excised(old(resources), id, resources) else resources == old(resources)
      ensures reply.Ok? ==> disk == AppState(connectors, resources)
    {
      ExcisedIs(domain, Now(), id);
      StepInv(domain, Now(), DeleteStep(id, save));
      hide Inv, Fqdn, Excised, Find;
      reply := Withdraw(id, save);
    }

    /** `named` is the check on the characters of the name; `hash` the new token's. */
    method CreateConnector(id: string, name: string, named: bool, hash: string, save: Save) returns (reply: Reply<()>)
      requires Valid() && id !in connectors
      modifies this
      ensures Valid()
      ensures var c := Connector(id, name, hash, false);
        Now() == if named then Next(domain, old(Now()), CreateConnectorStep(c, save)) else old(Now())
      ensures reply.Ok? <==>
        named && save == Written && forall k :: k in old(connectors) ==> old(connectors)[k].name != name
      ensures resources == old(resources)
      ensures connectors == if reply.Ok? then old(connectors)[id := Connector(id, name, hash, false)]
                            else old(connectors)
      ensures reply.Ok? ==> disk == AppState(connectors, resources)
    {
      hide Inv;
      if !named { return Err(BadRequest); }
      StepInv(domain, Now(), CreateConnectorStep(Connector(id, name, hash, false), save));
      if Named(AppState(connectors, resources), name) { return Err(Conflict); }
      connectors := connectors[id := Connector(id, name, hash, false)];
      var ok := Save(save);
      if !ok {
        connectors := connectors - {id};
        assert connectors == old(connectors);
        return Err(InternalError);
      }
      reply := Ok(());
    }

    method DeleteConnector(id: string, save: Save) returns (reply: Reply<()>)
      requires Valid()
      modifies this
      ensures Valid()
      ensures Now() == Next(domain, old(Now()), DeleteConnectorStep(id, save))
      ensures reply.Ok? <==>
        save == Written && id in old(connectors) && forall r :: r in resources ==> r.connector != Some(id)
      ensures resources == old(resources)
      ensures connectors == if reply.Ok? then old(connectors) - {id} else old(connectors)
      ensures reply.Ok? ==> disk == AppState(connectors, resources)
    {
      hide Inv;
      StepInv(domain, Now(), DeleteConnectorStep(id, save));
      if Linked(resources, id) { return Err(Conflict); }
      if id !in connectors { return Err(NotFound); }
      var connector := connectors[id];
      connectors := connectors - {id};
      var ok := Save(save);
      if !ok {
        connectors := connectors[id := connector];
        assert connectors == old(connectors);
        return Err(InternalError);
      }
      reply := Ok(());
    }

    method RegenerateToken(id: string, hash: string, save: Save) returns (reply: Reply<()>)
      requires Valid()
      modifies this
      ensures Valid()
      ensures Now() == Next(domain, old(Now()), RegenerateStep(id, hash, save))
      ensures reply.Ok? <==> save == Written && id in old(connectors)
      ensures resources == old(resources)
      ensures connectors == if reply.Ok? then old(connectors)[id := old(connectors)[id].(tokenHash := hash)]
                            else old(connectors)
      ensures reply.Ok? ==> disk == AppState(connectors, resources)
    {
      hide Integrity, RoutesSound, RoutesComplete;
      StepInv(domain, Now(), RegenerateStep(id, hash, save));
      if id !in connectors { return Err(NotFound); }
      KeyIsId(Now().mem, validated, id);
      var oldHash := connectors[id].tokenHash;
      connectors := connectors[id := connectors[id].(tokenHash := hash)];
      var ok := Save(save);
      if !ok {
        if id in connectors {
          connectors := connectors[id := connectors[id].(tokenHash := oldHash)];
        }
        assert connectors == old(connectors);
        return Err(InternalError);
      }
      reply := Ok(());
    }

    method UpdateConnector(id: string, force: bool, save: Save) returns (reply: Reply<Connector>)
      requires Valid()
      modifies this
      ensures Valid()
      ensures Now() == Next(domain, old(Now()), ForceWssStep(id, force, save))
      ensures reply.Ok? <==> id in old(connectors)
      ensures reply.Ok? ==> reply.value == connectors[id] && reply.value.forceWss == force
      ensures resources == old(resources)
      ensures connectors == if reply.Ok? then old(connectors)[id := old(connectors)[id].(forceWss := force)]
                            else old(connectors)
    {
      hide Integrity, RoutesSound, RoutesComplete;
      StepInv(domain, Now(), ForceWssStep(id, force, save));
      if id !in connectors { return Err(NotFound); }
      KeyIsId(Now().mem, validated, id);
      var changed := connectors[id].forceWss != force;
      connectors := connectors[id := connectors[id].(forceWss := force)];
      if changed {
        var _ := Save(save);
      } else {
        assert connectors == old(connectors);
      }
      reply := Ok(connectors[id]);
    }

    /** The boot-time load, with handlers already serving. */
    method LoadRoutes()
      requires Valid() && !booted
      modifies this`routes, this`booted
      ensures Valid()
      ensures Now() == Next(domain, old(Now()), Boot)
    {
      hide Inv, Publish;
      StepInv(domain, Now(), Boot);
      for n := 0 to |resources|
        invariant routes == Loaded(domain, resources, old(routes), n)
      {
        if resources[n].enabled {
          PublishResource(resources[n]);
        }
      }
      booted := true;
    }
  }
}
