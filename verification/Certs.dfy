/** The certificate and its key on disk: two files replaced one after the other, with crashes,
    failed writes and failed syncs at any point.  A rename is visible at once but survives a
    crash for certain only after the directory is synced. */
module Certs {
  import opened Wrappers
  import opened SecureFile

  const RENEWAL_THRESHOLD_DAYS: int := 30
  const DAY: int := 86400

  type Key = nat
  datatype Cert = Cert(key: Key, notAfter: int)

  /** Rust's integer division, towards zero. */
  function Truncated(a: int, b: int): int
    requires b > 0
  {
    if a >= 0 then a / b else -((-a) / b)
  }

  function DaysLeft(c: Cert, now: int): int { Truncated(c.notAfter - now, DAY) }

  /** `None` or one that `ensure_certs` will replace. */
  predicate Stale(c: Option<Cert>, now: int) { c.Some? ==> DaysLeft(c.value, now) < RENEWAL_THRESHOLD_DAYS }

  /** Thirty days, of 86400 seconds, before it ends. */
  lemma StaleIs(c: Cert, now: int)
    ensures Stale(Some(c), now) <==> c.notAfter - now < 2_592_000
  {}

  lemma StaleStays(c: Option<Cert>, a: int, b: int)
    requires Stale(c, a) && a <= b
    ensures Stale(c, b)
  {}

  /** The files as the process sees them, and for each the contents a crash may leave. */
  datatype Disk = Disk(key: Option<Key>, cert: Option<Cert>, keys: set<Option<Key>>, certs: set<Option<Cert>>)

  // Where `ensure_certs` stands; the new pair matches.
  datatype Task =
    | Idle
    | Ordering
    | Holding(c: Cert)       // order finished, nothing written
    | KeyRenamed(c: Cert)
    | KeySynced(c: Cert)
    | CertRenamed(c: Cert)

  /** `serving` is what `CertStore` hands out; `ensured` that the last `ensure_certs` has
      succeeded and no other has started. */
  datatype World = World(disk: Disk, task: Task, now: int, serving: Option<(Key, Cert)>, ensured: bool)

  function Init(now: int): World {
    World(Disk(None, None, {None}, {None}), Idle, now, None, false)
  }

  datatype Step =
    | Wait(now: int)
    | Check
    | Ordered(key: Key, notAfter: int)
    | Fail                                    // the order, or a write before its rename
    | RenameKey | RenameCert
    | Sync(ok: bool)
    | Reload
    | Crash(leftKey: Option<Key>, leftCert: Option<Cert>)

  predicate Can(w: World, st: Step) {
    match st
    case Wait(now) => w.now <= now
    case Check => w.task.Idle?
    case Ordered(_, _) => w.task.Ordering?
    case Fail => w.task.Ordering? || w.task.Holding? || w.task.KeySynced?
    case RenameKey => w.task.Holding?
    case RenameCert => w.task.KeySynced?
    case Sync(_) => w.task.KeyRenamed? || w.task.CertRenamed?
    case Reload => w.task.Idle?
    case Crash(k, c) => k in w.disk.keys && c in w.disk.certs
  }

  predicate UpToDate(w: World) { !Stale(w.disk.cert, w.now) && w.disk.key.Some? }

  predicate Matches(d: Disk) { d.cert.Some? && d.key == Some(d.cert.value.key) }

  function Next(w: World, st: Step): World
    requires Can(w, st)
  {
    var d := w.disk;
    match st
    case Wait(now) => w.(now := now)
    case Check => if UpToDate(w) then w.(ensured := true) else w.(task := Ordering, ensured := false)
    case Ordered(k, notAfter) => w.(task := Holding(Cert(k, notAfter)))
    case Fail => w.(task := Idle)
    case RenameKey =>
      var k := Some(w.task.c.key);
      w.(disk := d.(key := k, keys := d.keys + {k}), task := KeyRenamed(w.task.c))
    case RenameCert =>
      var c := Some(w.task.c);
      w.(disk := d.(cert := c, certs := d.certs + {c}), task := CertRenamed(w.task.c))
    case Sync(ok) =>
      if !ok then w.(task := Idle)
      else
        var synced := d.(keys := {d.key}, certs := {d.cert});
        w.(disk := synced, task := if w.task.KeyRenamed? then KeySynced(w.task.c) else Idle,
           ensured := w.task.CertRenamed?)
    case Reload =>
      if Matches(d) then w.(serving := Some((d.cert.value.key, d.cert.value))) else w
    case Crash(k, c) => World(Disk(k, c, {k}, {c}), Idle, w.now, None, false)
  }

  /** The only certificate on disk that may still be fresh is the visible one, and then the
      key is settled and belongs to it. */
  predicate Settled(d: Disk, now: int) {
    && d.key in d.keys && d.cert in d.certs
    && forall c :: c in d.certs && !Stale(c, now) ==> c == d.cert && d.keys == {Some(c.value.key)}
  }

  predicate AllStale(d: Disk, now: int) { forall c :: c in d.certs ==> Stale(c, now) }

  ghost predicate Inv(w: World) {
    && Settled(w.disk, w.now)
    && (w.task.Ordering? || w.task.Holding? || w.task.KeyRenamed? || w.task.KeySynced? ==> AllStale(w.disk, w.now))
    && (w.task.KeyRenamed? ==> w.disk.key == Some(w.task.c.key))
    && (w.task.KeySynced? ==> w.disk.keys == {Some(w.task.c.key)})
    && (w.task.CertRenamed? ==> w.disk.keys == {Some(w.task.c.key)} && w.disk.cert == Some(w.task.c))
    && (w.serving.Some? ==> w.serving.value.0 == w.serving.value.1.key)
    && (w.ensured ==> w.task.Idle? && Matches(w.disk))
  }

  lemma WaitInv(w: World, now: int)
    requires Inv(w) && w.now <= now
    ensures Inv(Next(w, Wait(now)))
  {
    hide Stale;
    forall c | c in w.disk.certs && Stale(c, w.now) ensures Stale(c, now) { StaleStays(c, w.now, now); }
  }

  /** The heart of it: a certificate that is not replaced has a key, and its own. */
  lemma CheckInv(w: World)
    requires Inv(w) && Can(w, Check)
    ensures Inv(Next(w, Check))
    ensures UpToDate(w) ==> Matches(w.disk)
  {
    hide Stale;
    NoneIsStale(w.now);
    if !Stale(w.disk.cert, w.now) {
      assert w.disk.key in w.disk.keys;
    }
  }

  lemma NoneIsStale(now: int)
    ensures Stale(None, now)
  {}

  lemma CrashInv(w: World, k: Option<Key>, c: Option<Cert>)
    requires Inv(w) && Can(w, Crash(k, c))
    ensures Inv(Next(w, Crash(k, c)))
  {
    hide Stale;
  }

  lemma StepInv(w: World, st: Step)
    requires Inv(w) && Can(w, st)
    ensures Inv(Next(w, st))
  {
    hide Stale;
    NoneIsStale(w.now);
    match st
    case Wait(now) => WaitInv(w, now);
    case Check => CheckInv(w);
    case Crash(k, c) => CrashInv(w, k, c);
    case _ =>
  }

  // ----- Runs -----

  predicate Path(run: seq<World>, steps: seq<Step>) {
    && |run| == |steps| + 1
    && forall i :: 0 <= i < |steps| ==> Can(run[i], steps[i]) && run[i + 1] == Next(run[i], steps[i])
  }

  predicate IsRun(run: seq<World>, steps: seq<Step>) {
    Path(run, steps) && run[0] == Init(run[0].now)
  }

  lemma {:induction false} RunInv(run: seq<World>, steps: seq<Step>, i: nat)
    requires IsRun(run, steps) && i < |run|
    ensures Inv(run[i])
  {
    hide Next, Stale;
    if i == 0 {
      NoneIsStale(run[0].now);
    } else {
      RunInv(run, steps, i - 1);
      StepInv(run[i - 1], steps[i - 1]);
    }
  }

  /** From an empty directory, whatever crashes and fails and whenever: whichever of the
      possible contents a crash leaves, there is no certificate, or one due for renewal, or one
      that matches the key beside it. */
  lemma CrashSafe(run: seq<World>, steps: seq<Step>, i: nat, k: Option<Key>, c: Option<Cert>)
    requires IsRun(run, steps) && i < |run| && k in run[i].disk.keys && c in run[i].disk.certs
    ensures Stale(c, run[i].now) || k == Some(c.value.key)
  {
    hide IsRun, Stale;
    RunInv(run, steps, i);
    NoneIsStale(run[i].now);
  }

  /** So after any successful `ensure_certs` the pair on disk loads, and what is served always
      matches: a failed reload keeps the old pair. */
  lemma EnsuredPairLoads(run: seq<World>, steps: seq<Step>, i: nat)
    requires IsRun(run, steps) && i < |run|
    ensures run[i].ensured ==> Matches(run[i].disk)
    ensures run[i].serving.Some? ==> run[i].serving.value.0 == run[i].serving.value.1.key
    ensures run[i].task.Idle? && run[i].ensured ==>
      Next(run[i], Reload).serving == Some((run[i].disk.key.value, run[i].disk.cert.value))
    ensures run[i].task.Idle? && !Matches(run[i].disk) ==> Next(run[i], Reload).serving == run[i].serving
  {
    hide IsRun, Stale;
    RunInv(run, steps, i);
  }

  /** The first write of a manager that writes the certificate before the key. */
  function CertFirst(w: World): World
    requires w.task.Holding?
  {
    var c := Some(w.task.c);
    w.(disk := w.disk.(cert := c, certs := w.disk.certs + {c}))
  }

  /** The order matters.  Let a run come to hold a new pair while the key of another is on disk.
      Written certificate first, a crash before the key can leave a certificate that
      `ensure_certs` takes to be up to date beside a key that is not its own: it reports success,
      and the pair does not load. */
  lemma CertFirstIsUnsafe(run: seq<World>, steps: seq<Step>, c: Cert, k: Key)
    requires IsRun(run, steps) && run[|steps|].task == Holding(c)
    requires run[|steps|].disk.key == Some(k) && k != c.key && !Stale(Some(c), run[|steps|].now)
    ensures var wrong := CertFirst(run[|steps|]);
      && Can(wrong, Crash(Some(k), Some(c)))
      && var after := Next(wrong, Crash(Some(k), Some(c)));
         && UpToDate(after) && !Matches(after.disk)
         && Next(after, Check).ensured && Next(Next(after, Check), Reload).serving == None
  {
    RunInv(run, steps, |steps|);
  }

  lemma Extends(run: seq<World>, steps: seq<Step>, st: Step)
    requires IsRun(run, steps) && Can(run[|steps|], st)
    ensures IsRun(run + [Next(run[|steps|], st)], steps + [st])
  {
    hide Next, Can;
  }

  /** Such a run: a certificate that is due at once, and the next order finished. */
  lemma SecondOrder(now: int) returns (run: seq<World>, steps: seq<Step>, c: Cert, k: Key)
    ensures IsRun(run, steps) && run[|steps|].task == Holding(c)
    ensures run[|steps|].disk.key == Some(k) && k != c.key && !Stale(Some(c), run[|steps|].now)
  {
    c, k := Cert(1, now + 90 * DAY), 0;
    run, steps := FirstOrder(now);
    Extends(run, steps, Check);
    run, steps := run + [Next(run[|steps|], Check)], steps + [Check];
    Extends(run, steps, Ordered(1, now + 90 * DAY));
    run, steps := run + [Next(run[|steps|], Ordered(1, now + 90 * DAY))], steps + [Ordered(1, now + 90 * DAY)];
  }

  lemma FirstOrder(now: int) returns (run: seq<World>, steps: seq<Step>)
    ensures IsRun(run, steps)
    ensures var d := Disk(Some(0), Some(Cert(0, now)), {Some(0)}, {Some(Cert(0, now))});
      run[|steps|] == World(d, Idle, now, None, true)
  {
    var w0 := Init(now);
    var w1 := Next(w0, Check);
    var w2 := Next(w1, Ordered(0, now));
    var w3 := Next(w2, RenameKey);
    var w4 := Next(w3, Sync(true));
    var w5 := Next(w4, RenameCert);
    var w6 := Next(w5, Sync(true));
    run, steps := [w0, w1, w2, w3, w4, w5, w6], [Check, Ordered(0, now), RenameKey, Sync(true), RenameCert, Sync(true)];
  }

  // ----- The manager as it works -----

  ghost predicate Leads(run: seq<World>, steps: seq<Step>, a: World, b: World) {
    Path(run, steps) && run[0] == a && run[|steps|] == b
  }

  /** Every state on the way, not only the last, keeps the invariant. */
  lemma {:induction false} LeadsInv(run: seq<World>, steps: seq<Step>, a: World, b: World, i: nat)
    requires Leads(run, steps, a, b) && Inv(a) && i < |run|
    ensures Inv(run[i])
  {
    hide Next, Inv;
    if i > 0 {
      LeadsInv(run, steps, a, b, i - 1);
      StepInv(run[i - 1], steps[i - 1]);
    }
  }

  lemma Start(a: World)
    ensures Leads([a], [], a, a)
  {}

  lemma EnsuredMatches(w: World)
    requires Inv(w)
    ensures w.ensured ==> Matches(w.disk)
  {}

  ghost method Log(run: seq<World>, steps: seq<Step>, a: World, b: World, st: Step)
    returns (run': seq<World>, steps': seq<Step>)
    requires Leads(run, steps, a, b) && Can(b, st)
    ensures Leads(run', steps', a, Next(b, st))
  {
    hide Next, Can;
    run', steps' := run + [Next(b, st)], steps + [st];
  }

  class CertHost {
    var disk: Disk
    var serving: Option<(Key, Cert)>
    var now: int
    ghost var task: Task
    ghost var ensured: bool

    ghost function Now(): World
      reads this
    {
      World(disk, task, now, serving, ensured)
    }

    ghost predicate Valid()
      reads this
    {
      Inv(Now()) && task.Idle?
    }

    constructor (t: int)
      ensures Now() == Init(t) && Valid()
    {
      disk, serving, now := Disk(None, None, {None}, {None}), None, t;
      task, ensured := Idle, false;
    }

    /** `save_secure_file` for the key. */
    method SaveKey(c: Cert, save: Save, ghost a: World, ghost run: seq<World>, ghost steps: seq<Step>)
      returns (ok: bool, ghost run': seq<World>, ghost steps': seq<Step>)
      requires task == Holding(c) && !ensured && Inv(Now()) && Leads(run, steps, a, Now())
      modifies this`disk, this`task
      ensures Inv(Now()) && Leads(run', steps', a, Now())
      ensures ok <==> save == Written
      ensures task == if ok then KeySynced(c) else Idle
    {
      hide Inv, Leads;
      run', steps', ok := run, steps, false;
      if save == Untouched {
        StepInv(Now(), Fail);
        run', steps' := Log(run', steps', a, Now(), Fail);
        task := Idle;
        return;
      }
      StepInv(Now(), RenameKey);
      run', steps' := Log(run', steps', a, Now(), RenameKey);
      disk := disk.(key := Some(c.key), keys := disk.keys + {Some(c.key)});
      task := KeyRenamed(c);
      ok := save == Written;
      StepInv(Now(), Sync(ok));
      run', steps' := Log(run', steps', a, Now(), Sync(ok));
      if ok {
        disk := disk.(keys := {disk.key}, certs := {disk.cert});
      }
      task := if ok then KeySynced(c) else Idle;
    }

    /** `save_secure_file` for the certificate. */
    method SaveCert(c: Cert, save: Save, ghost a: World, ghost run: seq<World>, ghost steps: seq<Step>)
      returns (ok: bool, ghost run': seq<World>, ghost steps': seq<Step>)
      requires task == KeySynced(c) && !ensured && Inv(Now()) && Leads(run, steps, a, Now())
      modifies this`disk, this`task, this`ensured
      ensures Inv(Now()) && Leads(run', steps', a, Now()) && task == Idle
      ensures ok <==> save == Written
      ensures ok ==> ensured && disk.cert == Some(c) && disk.keys == {disk.key} && disk.certs == {disk.cert}
    {
      hide Inv, Leads;
      run', steps', ok := run, steps, false;
      if save == Untouched {
        StepInv(Now(), Fail);
        run', steps' := Log(run', steps', a, Now(), Fail);
        task := Idle;
        return;
      }
      StepInv(Now(), RenameCert);
      run', steps' := Log(run', steps', a, Now(), RenameCert);
      disk := disk.(cert := Some(c), certs := disk.certs + {Some(c)});
      task := CertRenamed(c);
      ok := save == Written;
      StepInv(Now(), Sync(ok));
      run', steps' := Log(run', steps', a, Now(), Sync(ok));
      if ok {
        disk := disk.(keys := {disk.key}, certs := {disk.cert});
        ensured := true;
      }
      task := Idle;
    }

    /** `obtain_certificate`: the key first, the certificate is the commit. */
    method Obtain(order: Option<(Key, int)>, saveKey: Save, saveCert: Save,
                  ghost a: World, ghost run: seq<World>, ghost steps: seq<Step>)
      returns (ok: bool, ghost run': seq<World>, ghost steps': seq<Step>)
      requires task == Ordering && !ensured && Inv(Now()) && Leads(run, steps, a, Now())
      modifies this`disk, this`task, this`ensured
      ensures Inv(Now()) && Leads(run', steps', a, Now()) && task == Idle
      ensures ok <==> order.Some? && saveKey == Written && saveCert == Written
      ensures ok ==> ensured && disk.cert == Some(Cert(order.value.0, order.value.1))
      ensures ok ==> disk.keys == {disk.key} && disk.certs == {disk.cert}
    {
      hide Inv, Leads;
      if order.None? {
        StepInv(Now(), Fail);
        run', steps' := Log(run, steps, a, Now(), Fail);
        task := Idle;
        return false, run', steps';
      }
      var c := Cert(order.value.0, order.value.1);
      StepInv(Now(), Ordered(c.key, c.notAfter));
      run', steps' := Log(run, steps, a, Now(), Ordered(c.key, c.notAfter));
      task := Holding(c);
      ok, run', steps' := SaveKey(c, saveKey, a, run', steps');
      if ok {
        ok, run', steps' := SaveCert(c, saveCert, a, run', steps');
      }
    }

    /** One call of `ensure_certs`: `order` is what the certificate authority gave, `saveKey` and
        `saveCert` what became of the two writes.  It is a run of the steps above, so a crash at
        any point of it is covered. */
    method EnsureCerts(order: Option<(Key, int)>, saveKey: Save, saveCert: Save)
      returns (r: Option<bool>, ghost run: seq<World>, ghost steps: seq<Step>)
      requires Valid()
      modifies this
      ensures Valid() && Leads(run, steps, old(Now()), Now())
      ensures r.Some? ==> Matches(disk)
      ensures r == Some(false) <==> old(UpToDate(Now()))
      ensures r == Some(true) <==> old(!UpToDate(Now())) && order.Some? && saveKey == Written && saveCert == Written
      ensures r == Some(true) ==> disk.cert == Some(Cert(order.value.0, order.value.1)) && disk.certs == {disk.cert}
    {
      hide Inv, Leads, Stale;
      ghost var a := Now();
      run, steps := [a], [];
      Start(a);
      CheckInv(a);
      run, steps := Log(run, steps, a, a, Check);
      if !Stale(disk.cert, now) && disk.key.Some? {
        ensured := true;
        return Some(false), run, steps;
      }
      task, ensured := Ordering, false;
      var ok;
      ok, run, steps := Obtain(order, saveKey, saveCert, a, run, steps);
      r := if ok then Some(true) else None;
      EnsuredMatches(Now());
    }

    /** `CertStore::load` and `CertStore::reload`. */
    method ReloadCerts() returns (ok: bool)
      requires Valid()
      modifies this`serving
      ensures Valid() && Now() == Next(old(Now()), Reload)
      ensures ok <==> Matches(disk)
      ensures serving == if ok then Some((disk.key.value, disk.cert.value)) else old(serving)
    {
      hide Inv;
      StepInv(Now(), Reload);
      ok := disk.cert.Some? && disk.key == Some(disk.cert.value.key);
      if ok {
        serving := Some((disk.key.value, disk.cert.value));
      }
    }
  }
}
