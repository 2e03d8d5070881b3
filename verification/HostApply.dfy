/**
  Applying a diff on a host, step by step: checking out every changed app, then
  activating: manifest links, managed directories, and the units.
 */
module HostApply {
  import opened Wrappers
  import opened Paths
  import opened Trees
  import opened Plan
  import opened Desired
  import opened Activation
  import opened Commands
  import opened Filesystem
  import opened ManagedLinks
  import opened ManifestLinks
  import opened Checkout
  import opened HostState

  // ----- Checking out the changed apps -----

  /** One app after any part of a checkout at version `p`. */
  ghost predicate AppPartly(x: map<Name, AppDir>, y: map<Name, AppDir>, diffs: map<Name, AppDiff>, p: Prefix, a: Name) {
    if a !in diffs then SameApp(x, y, a)
    else if diffs[a].Remove? then a in y ==> a in x
    else (a in x ==> a in y) && (a in y ==> Interrupted(DirOf(x, a), y[a], p))
  }

  ghost predicate AppsInterrupted(x: map<Name, AppDir>, y: map<Name, AppDir>, diffs: map<Name, AppDiff>, p: Prefix) {
    forall a :: AppPartly(x, y, diffs, p, a)
  }

  lemma InterruptedIsPartly(x: map<Name, AppDir>, y: map<Name, AppDir>, diffs: map<Name, AppDiff>, p: Prefix)
    requires AppsInterrupted(x, y, diffs, p)
    ensures AppsPartly(x, y, diffs)
  {
    hide Interrupted;
    forall a | a !in diffs ensures SameApp(x, y, a) {
      assert AppPartly(x, y, diffs, p, a);
    }
  }

  /** What an interrupted checkout left behind does not show after the rerun, in any app. */
  lemma {:induction false} RerunApps(x: map<Name, AppDir>, y: map<Name, AppDir>, z: map<Name, AppDir>,
                                     diffs: map<Name, AppDiff>, p: Prefix)
    requires AppsInterrupted(x, y, diffs, p) && AppsDone(y, z, diffs, p, Fresh)
    ensures AppsDone(x, z, diffs, p, Fresh)
  {
    hide Interrupted, CheckedOut;
    forall a ensures AppDone(x, z, diffs, p, Fresh, a) {
      assert AppPartly(x, y, diffs, p, a) && AppDone(y, z, diffs, p, Fresh, a);
      if a in diffs && !diffs[a].Remove? && a in y {
        RerunCheckout(DirOf(x, a), y[a], p, diffs[a].After());
      }
    }
  }

  /** Interrupted checkouts at the same version add up to one. */
  lemma {:induction false} InterruptedAppsTransitive(x: map<Name, AppDir>, y: map<Name, AppDir>, z: map<Name, AppDir>,
                                                     diffs: map<Name, AppDiff>, p: Prefix)
    requires AppsInterrupted(x, y, diffs, p) && AppsInterrupted(y, z, diffs, p)
    ensures AppsInterrupted(x, z, diffs, p)
  {
    hide Interrupted;
    forall a ensures AppPartly(x, z, diffs, p, a) {
      assert AppPartly(x, y, diffs, p, a) && AppPartly(y, z, diffs, p, a);
      if a in diffs && !diffs[a].Remove? && a in y && a in z {
        InterruptedTransitive(DirOf(x, a), y[a], z[a], p);
      }
    }
  }

  /** Check out or remove every changed app, in any order; stop at the first error. */
  method CheckoutHost(fs: HostFs, diffs: map<Name, AppDiff>, p: Prefix, mode: CheckoutMode) returns (ok: bool)
    modifies fs`apps, fs`faults
    ensures old(fs.faults) <= fs.faults && (!ok ==> old(fs.faults) < fs.faults)
    ensures AppsInterrupted(old(fs.apps), fs.apps, diffs, p)
    ensures ok ==> AppsDone(old(fs.apps), fs.apps, diffs, p, mode)
  {
    hide CheckedOut, Interrupted;
    ghost var before := fs.apps;
    var rest := diffs.Keys;
    while rest != {}
      invariant rest <= diffs.Keys
      invariant forall a :: a in rest || a !in diffs ==> SameApp(before, fs.apps, a)
      invariant forall a :: a in diffs && a !in rest ==> AppDone(before, fs.apps, diffs, p, mode, a)
      invariant old(fs.faults) <= fs.faults
      decreases rest
    {
      var app :| app in rest;
      ghost var was := fs.apps;
      var ok := CheckoutOne(fs, app, diffs[app], p, mode);
      forall a | a != app
        ensures SameApp(before, was, a) ==> SameApp(before, fs.apps, a)
        ensures AppDone(before, was, diffs, p, mode, a) ==> AppDone(before, fs.apps, diffs, p, mode, a)
      {
        assert SameApp(was, fs.apps, a);
      }
      if !ok {
        forall a ensures AppPartly(before, fs.apps, diffs, p, a) {
          AppAfterStop(before, was, fs.apps, diffs, p, mode, rest, app, a);
        }
        return false;
      }
      rest := rest - {app};
    }
    forall a ensures AppDone(before, fs.apps, diffs, p, mode, a) {}
    forall a ensures AppPartly(before, fs.apps, diffs, p, a) {
      DonePartly(before, fs.apps, diffs, p, mode, a);
    }
    return true;
  }

  lemma DonePartly(x: map<Name, AppDir>, y: map<Name, AppDir>, diffs: map<Name, AppDiff>, p: Prefix,
                   mode: CheckoutMode, a: Name)
    requires AppDone(x, y, diffs, p, mode, a)
    ensures AppPartly(x, y, diffs, p, a)
  {
  }

  lemma AppAfterStop(before: map<Name, AppDir>, was: map<Name, AppDir>, now: map<Name, AppDir>,
                     diffs: map<Name, AppDiff>, p: Prefix, mode: CheckoutMode, rest: set<Name>, app: Name, a: Name)
    requires app in rest && rest <= diffs.Keys && AppPartly(was, now, diffs, p, app)
    requires a != app ==> SameApp(was, now, a)
    requires a in rest || a !in diffs ==> SameApp(before, was, a)
    requires a in diffs && a !in rest ==> AppDone(before, was, diffs, p, mode, a)
    ensures AppPartly(before, now, diffs, p, a)
  {
  }

  method CheckoutOne(fs: HostFs, app: Name, d: AppDiff, p: Prefix, mode: CheckoutMode) returns (ok: bool)
    modifies fs`apps, fs`faults
    ensures old(fs.faults) <= fs.faults && (!ok ==> old(fs.faults) < fs.faults)
    ensures forall a :: a != app ==> SameApp(old(fs.apps), fs.apps, a)
    ensures AppPartly(old(fs.apps), fs.apps, map[app := d], p, app)
    ensures ok ==> AppDone(old(fs.apps), fs.apps, map[app := d], p, mode, app)
  {
    hide CheckedOut, Interrupted;
    match d {
      case Remove(_) => ok := RemoveApp(fs, app);
      case _ => ok := CheckoutApp(fs, app, p, d.After(), mode);
    }
  }

  // ----- Collecting garbage in all apps -----

  /** Links as before, and at least the versions that they name. */
  ghost predicate CollectedApp(dir: AppDir, e: AppDir) {
    && e == dir.(versions := e.versions)
    && e.versions.Keys <= dir.versions.Keys
    && (forall q :: q in Keep(dir) && q in dir.versions ==> q in e.versions && e.versions[q] == dir.versions[q])
  }

  ghost predicate Collected(x: map<Name, AppDir>, y: map<Name, AppDir>) {
    y.Keys == x.Keys && forall a :: a in x ==> CollectedApp(x[a], y[a])
  }

  /** The links are as they were, and no version is added. */
  ghost predicate OnlyRemoved(x: map<Name, AppDir>, y: map<Name, AppDir>) {
    && y.Keys == x.Keys
    && forall a :: a in x ==> y[a] == x[a].(versions := y[a].versions) && y[a].versions.Keys <= x[a].versions.Keys
  }

  /** No app has a version that none of its links names. */
  ghost predicate OnlyNamed(apps: map<Name, AppDir>) {
    forall a :: a in apps ==> apps[a].versions.Keys <= Keep(apps[a])
  }

  /** Versions that a link names stay, unless reading such a link failed. */
  method GcOldCheckouts(fs: HostFs) returns (clean: bool)
    modifies fs`apps, fs`faults, fs`misreads
    ensures old(fs.faults) <= fs.faults && (!clean ==> old(fs.faults) < fs.faults)
    ensures OnlyRemoved(old(fs.apps), fs.apps) && old(fs.misreads) <= fs.misreads
    ensures fs.misreads == old(fs.misreads) ==> Collected(old(fs.apps), fs.apps)
    ensures clean ==> OnlyNamed(fs.apps) && fs.faults - old(fs.faults) == fs.misreads - old(fs.misreads)
  {
    ghost var before := fs.apps;
    var readFails := fs.MayFail();
    if readFails {
      return false;
    }
    clean := true;
    var rest := fs.apps.Keys;
    while rest != {}
      invariant rest <= before.Keys && fs.apps.Keys == before.Keys && old(fs.misreads) <= fs.misreads
      invariant OnlyRemoved(before, fs.apps)
      invariant forall a :: a in rest ==> fs.apps[a] == before[a]
      invariant fs.misreads == old(fs.misreads) ==> forall a :: a in before && a !in rest ==>
                CollectedApp(before[a], fs.apps[a])
      invariant clean ==> forall a :: a in before && a !in rest ==> fs.apps[a].versions.Keys <= Keep(fs.apps[a])
      invariant old(fs.faults) <= fs.faults && (!clean ==> old(fs.faults) < fs.faults)
      invariant clean ==> fs.faults - old(fs.faults) == fs.misreads - old(fs.misreads)
      decreases rest
    {
      hide Keep, Gathered;
      var app :| app in rest;
      ghost var was := fs.apps;
      var cleanApp;
      ghost var keep;
      cleanApp, keep := GcAppDir(fs, app);
      GatheredParts(was[app], keep, if cleanApp then map[] else fs.apps[app].versions);
      assert forall a :: a in before && a != app ==> fs.apps[a] == was[a];
      clean := clean && cleanApp;
      rest := rest - {app};
    }
  }

  lemma GatheredParts(dir: AppDir, keep: set<Prefix>, left: map<Prefix, Tree>)
    ensures var e := Gathered(dir, keep, left);
            && e == dir.(versions := e.versions) && e.versions.Keys <= dir.versions.Keys && Keep(e) == Keep(dir)
            && forall q :: q in keep && q in dir.versions ==> q in e.versions && e.versions[q] == dir.versions[q]
  {
  }

  /** Collecting garbage leaves every app's content as it is. */
  lemma CollectedKeepsApps(x: map<Name, AppDir>, y: map<Name, AppDir>, apps: Apps)
    requires Collected(x, y) && AppsAre(x, apps)
    ensures AppsAre(y, apps)
  {
  }

  // ----- Activation -----

  /** The desired links of all managed directories. */
  method DesiredStateOf(appsDir: Path, apps: Apps) returns (r: Result<DesiredState, StoreError>)
    ensures r.Ok? ==> IsDesiredState(r.value, appsDir, apps)
    ensures r.Ok? <==> forall s, a :: s in SUBDIRS && a in apps ==> SubdirEntries(apps[a], s).Ok?
  {
    hide IsDesiredSubdir, SubdirEntries;
    var networkd :- DesiredSubdirSymlinks(appsDir, apps, NETWORKD);
    var quadlets :- DesiredSubdirSymlinks(appsDir, apps, QUADLETS);
    var sysusers :- DesiredSubdirSymlinks(appsDir, apps, SYSUSERS);
    var units :- DesiredSubdirSymlinks(appsDir, apps, UNITS);
    return Ok(DesiredState(networkd, quadlets, sysusers, units));
  }

  const NOTHING_DESIRED := DesiredState(map[], map[], map[], map[])

  /** Nothing but what is strictly below `root` differs. */
  ghost predicate OnlyBelow(before: Fs, after: Fs, root: Path) {
    && WellFormed(after)
    && forall p :: !(root < p) ==> SameAt(before, after, p)
  }

  ghost predicate OnlyLess(before: Fs, after: Fs) {
    forall p :: p in after ==> p in before && after[p] == before[p]
  }

  lemma OnlyBelowStep(before: Fs, mid: Fs, after: Fs, root: Path, p: Path)
    requires OnlyBelow(before, mid, root) && root < p && WellFormed(after)
    requires forall q :: q != p ==> SameAt(mid, after, q)
    ensures OnlyBelow(before, after, root)
  {
    hide WellFormed;
    forall q | !(root < q) ensures SameAt(before, after, q) {
      assert SameAt(before, mid, q) && SameAt(mid, after, q);
    }
  }

  lemma OnlyBelowTransitive(x: Fs, m: Fs, y: Fs, root: Path)
    requires OnlyBelow(x, m, root) && OnlyBelow(m, y, root)
    ensures OnlyBelow(x, y, root)
  {
    hide WellFormed;
    forall p | !(root < p) ensures SameAt(x, y, p) {
      assert SameAt(x, m, p) && SameAt(m, y, p);
    }
  }

  /** Disable each unit, with all that this does below the units directory. */
  method DisableUnits(fs: HostFs, units: Path, names: seq<string>)
    requires WellFormed(fs.tree) && units != []
    modifies fs`tree, fs`faults, fs`ran
    ensures OnlyBelow(old(fs.tree), fs.tree, units) && OnlyLess(old(fs.tree), fs.tree)
    ensures old(fs.faults) <= fs.faults
    ensures Performs(old(fs.ran), fs.ran, Disables(names), true)
  {
    hide WellFormed, OnlyBelow, Performs;
    NoneBelow(fs.tree, units);
    PerformsNone(fs.ran);
    assert Disables(names[..0]) == [];
    for i := 0 to |names|
      invariant OnlyBelow(old(fs.tree), fs.tree, units) && OnlyLess(old(fs.tree), fs.tree)
      invariant old(fs.faults) <= fs.faults && Performs(old(fs.ran), fs.ran, Disables(names[..i]), true)
    {
      ghost var mid, log := fs.tree, fs.ran;
      BelowTree(old(fs.tree), fs.tree, units);
      var good := fs.Execute(Disable(names[i]));
      DisableEffects(fs, units);
      OnlyBelowTransitive(old(fs.tree), mid, fs.tree, units);
      PerformsOne(log, Disable(names[i]), good);
      PerformsThen(old(fs.ran), log, fs.ran, Disables(names[..i]), [Disable(names[i])], true);
      assert Disables(names[..i]) + [Disable(names[i])] == Disables(names[..i + 1]);
    }
    assert names[..|names|] == names;
  }

  lemma NoneBelow(fs: Fs, root: Path)
    requires WellFormed(fs)
    ensures OnlyBelow(fs, fs, root)
  {
  }

  /** `systemctl disable`: removes any links below the units directory, and directories that are empty. */
  method DisableEffects(fs: HostFs, units: Path)
    requires WellFormed(fs.tree) && units != []
    modifies fs`tree, fs`faults
    ensures OnlyBelow(old(fs.tree), fs.tree, units) && OnlyLess(old(fs.tree), fs.tree)
    ensures old(fs.faults) <= fs.faults
  {
    var removed: seq<Path> := *;
    for i := 0 to |removed|
      invariant WellFormed(fs.tree) && OnlyBelow(old(fs.tree), fs.tree, units) && OnlyLess(old(fs.tree), fs.tree)
      invariant old(fs.faults) <= fs.faults
    {
      hide WellFormed, OnlyBelow;
      var p := removed[i];
      if units < p {
        ghost var mid := fs.tree;
        if p in fs.tree && fs.tree[p].Link? {
          var _ := fs.RemoveFile(p);
        } else {
          var _ := fs.RemoveDir(p);
        }
        OnlyBelowStep(old(fs.tree), mid, fs.tree, units, p);
      }
    }
  }

  lemma SameManagedStep(before: Fs, mid: Fs, after: Fs, appsDir: Path, p: Path)
    requires forall q :: SameManagedNode(before, mid, appsDir, q)
    requires !IsManaged(mid, appsDir, p) && !IsManaged(after, appsDir, p)
    requires forall q :: q != p ==> SameAt(mid, after, q)
    ensures forall q :: SameManagedNode(before, after, appsDir, q)
  {
    hide PointsThroughCurrent;
    forall q ensures SameManagedNode(before, after, appsDir, q) {
      assert SameManagedNode(before, mid, appsDir, q);
      assert q != p ==> SameAt(mid, after, q);
    }
  }

  /**
    `systemctl enable`: adds links to unit files, resolved through `current`,
    in directories below the units directory.
   */
  method EnableEffects(fs: HostFs, appsDir: Path, units: Path)
    requires WellFormed(fs.tree) && units != []
    modifies fs`tree, fs`faults
    ensures OnlyBelow(old(fs.tree), fs.tree, units)
    ensures forall p :: SameManagedNode(old(fs.tree), fs.tree, appsDir, p)
    ensures forall p :: p !in fs.enablement ==> SameAt(old(fs.tree), fs.tree, p)
    ensures old(fs.faults) <= fs.faults
  {
    var writes: seq<(Path, Path)> := *;
    for i := 0 to |writes|
      invariant WellFormed(fs.tree) && OnlyBelow(old(fs.tree), fs.tree, units)
      invariant forall p :: SameManagedNode(old(fs.tree), fs.tree, appsDir, p)
      invariant forall p :: p !in fs.enablement ==> SameAt(old(fs.tree), fs.tree, p)
      invariant old(fs.faults) <= fs.faults
    {
      hide WellFormed, OnlyBelow, PointsThroughCurrent, SameManagedNode;
      var (p, target) := writes[i];
      if p in fs.enablement && units < p && !IsManaged(fs.tree, appsDir, p) && !PointsThroughCurrent(appsDir, target) {
        ghost var mid := fs.tree;
        var makesDir := *;
        if p in fs.tree && fs.tree[p].Link? {
          var _ := fs.RemoveFile(p);
        } else if makesDir {
          EnableDir(fs, p);
        } else {
          var _, _ := fs.Symlink(target, p);
        }
        OnlyBelowStep(old(fs.tree), mid, fs.tree, units, p);
        SameManagedStep(old(fs.tree), mid, fs.tree, appsDir, p);
      }
    }
  }

  /** Enable each unit, with all that this does below the units directory. */
  method EnableUnits(fs: HostFs, appsDir: Path, units: Path, names: seq<string>)
    requires WellFormed(fs.tree) && units != []
    modifies fs`tree, fs`faults, fs`ran
    ensures OnlyBelow(old(fs.tree), fs.tree, units)
    ensures forall p :: SameManagedNode(old(fs.tree), fs.tree, appsDir, p)
    ensures forall p :: p !in fs.enablement ==> SameAt(old(fs.tree), fs.tree, p)
    ensures old(fs.faults) <= fs.faults
    ensures Performs(old(fs.ran), fs.ran, Enables(names), true)
  {
    hide WellFormed, OnlyBelow, Performs, PointsThroughCurrent;
    NoneBelow(fs.tree, units);
    PerformsNone(fs.ran);
    assert Enables(names[..0]) == [];
    for i := 0 to |names|
      invariant OnlyBelow(old(fs.tree), fs.tree, units)
      invariant forall p :: SameManagedNode(old(fs.tree), fs.tree, appsDir, p)
      invariant forall p :: p !in fs.enablement ==> SameAt(old(fs.tree), fs.tree, p)
      invariant old(fs.faults) <= fs.faults && Performs(old(fs.ran), fs.ran, Enables(names[..i]), true)
    {
      ghost var mid, log := fs.tree, fs.ran;
      BelowTree(old(fs.tree), fs.tree, units);
      var good := fs.Execute(Enable(names[i]));
      EnableEffects(fs, appsDir, units);
      OnlyBelowTransitive(old(fs.tree), mid, fs.tree, units);
      EnableTransitive(old(fs.tree), mid, fs.tree, appsDir, fs.enablement);
      PerformsOne(log, Enable(names[i]), good);
      PerformsThen(old(fs.ran), log, fs.ran, Enables(names[..i]), [Enable(names[i])], true);
      assert Enables(names[..i]) + [Enable(names[i])] == Enables(names[..i + 1]);
    }
    assert names[..|names|] == names;
  }

  lemma EnableTransitive(x: Fs, m: Fs, y: Fs, appsDir: Path, enablement: iset<Path>)
    requires forall p :: SameManagedNode(x, m, appsDir, p) && SameManagedNode(m, y, appsDir, p)
    requires forall p :: p !in enablement ==> SameAt(x, m, p) && SameAt(m, y, p)
    ensures forall p :: SameManagedNode(x, y, appsDir, p)
    ensures forall p :: p !in enablement ==> SameAt(x, y, p)
  {
    hide PointsThroughCurrent;
    forall p ensures SameManagedNode(x, y, appsDir, p) {
      assert SameManagedNode(x, m, appsDir, p) && SameManagedNode(m, y, appsDir, p);
    }
    forall p | p !in enablement ensures SameAt(x, y, p) {
      assert SameAt(x, m, p) && SameAt(m, y, p);
    }
  }

  /** Run a command if it is needed. */
  method ExecuteIf(fs: HostFs, needed: bool, a: Action) returns (ok: bool)
    modifies fs`faults, fs`ran
    ensures Performs(old(fs.ran), fs.ran, If(needed, a), ok)
    ensures old(fs.faults) <= fs.faults && (fs.faults == old(fs.faults) <==> ok)
  {
    ok := true;
    if needed {
      var good := fs.Execute(a);
      ok := good || !a.MustSucceed();
    }
  }

  /** Start all jobs, without waiting for them. */
  method SpawnJobs(fs: HostFs, restart: bool, units: seq<string>) returns (ok: bool)
    modifies fs`faults, fs`ran
    ensures Performs(old(fs.ran), fs.ran, Starts(restart, units), ok)
    ensures old(fs.faults) <= fs.faults && (fs.faults == old(fs.faults) <==> ok)
  {
    hide Performs;
    PerformsNone(fs.ran);
    assert Starts(restart, units[..0]) == [];
    for i := 0 to |units|
      invariant Performs(old(fs.ran), fs.ran, Starts(restart, units[..i]), true)
      invariant fs.faults == old(fs.faults)
    {
      ghost var log := fs.ran;
      var job := if restart then Restart(units[i]) else Start(units[i]);
      var spawned := fs.Execute(job);
      PerformsOne(log, job, spawned);
      PerformsThen(old(fs.ran), log, fs.ran, Starts(restart, units[..i]), [job], spawned);
      OneMoreStart(restart, units, i);
      if !spawned {
        PerformsStop(old(fs.ran), fs.ran, Starts(restart, units[..i + 1]), Starts(restart, units[i + 1..]));
        return false;
      }
    }
    assert units[..|units|] == units;
    return true;
  }

  lemma OneMoreStart(restart: bool, units: seq<string>, i: nat)
    requires i < |units|
    ensures Starts(restart, units[..i]) + [if restart then Restart(units[i]) else Start(units[i])]
            == Starts(restart, units[..i + 1])
    ensures Starts(restart, units[..i + 1]) + Starts(restart, units[i + 1..]) == Starts(restart, units)
  {
  }

  /** Start all jobs, and then wait for the units. The answer is how they came out. */
  method StartUnits(fs: HostFs, restart: bool, units: seq<string>) returns (ok: bool)
    requires fs.JobsEnd()
    modifies fs`faults, fs`ran, fs`watched
    ensures Performs(old(fs.ran), fs.ran, StartPlan(restart, units), ok)
    ensures old(fs.faults) <= fs.faults && (fs.faults == old(fs.faults) <==> ok)
    ensures UnitsWaited(fs.watches, old(fs.watched), fs.watched, units, ok)
  {
    hide Performs, Starts, CameUp, HostFs.JobsEnd;
    PerformsNone(fs.ran);
    if units == [] {
      return true;
    }
    ok := SpawnJobs(fs, restart, units);
    if !ok {
      PerformsStop(old(fs.ran), fs.ran, Starts(restart, units), [AwaitUnits(units)]);
      return;
    }
    ghost var log := fs.ran;
    ok := WaitForUnits(fs, units);
    PerformsOne(log, AwaitUnits(units), ok);
    PerformsThen(old(fs.ran), log, fs.ran, Starts(restart, units), [AwaitUnits(units)], ok);
  }

  /** If the units were waited for, the outcome of the wait is the answer; a good answer takes a wait. */
  ghost predicate UnitsWaited(watches: nat -> Watch, before: nat, after: nat, units: seq<string>, ok: bool) {
    && before <= after <= before + 1
    && (after > before ==> (ok <==> CameUp(|units|, watches(before).polls)))
    && (ok ==> (after > before <==> units != []))
  }

  method WaitForUnits(fs: HostFs, units: seq<string>) returns (ok: bool)
    requires fs.JobsEnd() && units != []
    modifies fs`faults, fs`ran, fs`watched
    ensures fs.ran == old(fs.ran) + [Ran(AwaitUnits(units), ok)] && fs.watched == old(fs.watched) + 1
    ensures fs.faults == old(fs.faults) + if ok then 0 else 1
    ensures ok <==> CameUp(|units|, fs.watches(old(fs.watched)).polls)
  {
    var watch := fs.watches(fs.watched);
    ghost var last := LastJob(|units|, watch);
    var r, e, _ := Activation.AwaitUnits(|units|, watch.start, watch.polls, last);
    if r.Err? {
      NoneSeen(|units|, watch.polls, e);
    }
    DecidedAt(|units|, watch.polls, e, if r.Ok? then r.value else []);
    ok := r == Ok([]);
    fs.watched := fs.watched + 1;
    fs.ran := fs.ran + [Ran(AwaitUnits(units), ok)];
    fs.faults := fs.faults + if ok then 0 else 1;
  }

  /** One directory made, if nothing is there. */
  method EnableDir(fs: HostFs, p: Path)
    requires WellFormed(fs.tree)
    modifies fs`tree
    ensures WellFormed(fs.tree)
    ensures fs.tree == old(fs.tree) || (p !in old(fs.tree) && fs.tree == old(fs.tree)[p := Directory])
  {
    if |p| > 1 && p !in fs.tree && IsDir(fs.tree, Parent(p)) {
      assert p[0] == Parent(p)[0];
      fs.tree := fs.tree[p := Directory];
    }
  }

  lemma BelowInArea(before: Fs, after: Fs, roots: Roots, s: Name)
    requires s in SUBDIRS && OnlyBelow(before, after, roots.Of(s))
    ensures ManagedAreaOnly(before, after, roots)
  {
    hide WellFormed, Leading;
    forall p | Outside(roots, p) ensures SameAt(before, after, p) {
      assert !(roots.Of(s) < p);
    }
  }

  lemma BelowKeepsLinks(before: Fs, after: Fs, appsDir: Path, roots: Roots, s: Name, t: Name)
    requires roots.Valid() && s in SUBDIRS && t in SUBDIRS && s != t && OnlyBelow(before, after, roots.Of(s))
    ensures Managed(after, appsDir, roots.Of(t)) == Managed(before, appsDir, roots.Of(t))
  {
    var root, other := roots.Of(s), roots.Of(t);
    assert !(root <= other) && !(other <= root);
    hide Managed, WellFormed, Roots.Valid, PointsThroughCurrent;
    forall n ensures SameManagedNode(before, after, appsDir, other + n) {
      NotBelow(root, other, n);
      assert SameAt(before, after, other + n);
    }
    ManagedSame(before, after, appsDir, other);
  }

  /** The directories in `done` have their desired links. */
  ghost predicate ManagedSome(fs: Fs, appsDir: Path, roots: Roots, d: DesiredState, done: set<Name>) {
    forall s :: s in SUBDIRS && s in done ==> Managed(fs, appsDir, roots.Of(s)) == d.Of(s) && Enterable(fs, roots.Of(s))
  }

  lemma AllManaged(fs: Fs, appsDir: Path, roots: Roots, d: DesiredState, done: set<Name>)
    requires ManagedSome(fs, appsDir, roots, d, done) && SUBDIRS <= done
    ensures ManagedAre(fs, appsDir, roots, d) && RootsEnterable(fs, roots)
  {
  }

  ghost predicate DesiredOk(appsDir: Path, d: DesiredState) {
    forall s :: s in SUBDIRS ==> DesiredValid(appsDir, d.Of(s))
  }

  lemma DesiredStateOk(d: DesiredState, appsDir: Path, apps: Apps)
    requires IsDesiredState(d, appsDir, apps)
    ensures DesiredOk(appsDir, d)
  {
    hide IsDesiredSubdir, DesiredValid;
    forall s | s in SUBDIRS ensures DesiredValid(appsDir, d.Of(s)) {
      DesiredGoesThroughCurrent(d.Of(s), appsDir, apps, s);
    }
  }

  /** Nothing keeps a managed directory from getting its desired links. */
  ghost predicate SubdirRuns(fs: Fs, appsDir: Path, roots: Roots, d: DesiredState, s: Name)
    requires s in SUBDIRS
  {
    PrefixFree(d.Of(s)) && Unobstructed(fs, appsDir, roots.Of(s), d.Of(s))
  }

  ghost predicate ManagedRuns(fs: Fs, appsDir: Path, roots: Roots, d: DesiredState) {
    forall s :: s in SUBDIRS ==> SubdirRuns(fs, appsDir, roots, d, s)
  }

  /** Reconciling one directory puts nothing in the way of another. */
  lemma OthersStillRun(before: Fs, after: Fs, appsDir: Path, roots: Roots, d: DesiredState, s: Name, t: Name,
                       desired: map<Path, Path>)
    requires roots.Valid() && s in SUBDIRS && t in SUBDIRS && s != t
    requires Framed(before, after, appsDir, roots.Of(s), desired) && SubdirRuns(before, appsDir, roots, d, t)
    requires DesiredOk(appsDir, d)
    ensures SubdirRuns(after, appsDir, roots, d, t)
  {
    var root, other := roots.Of(s), roots.Of(t);
    assert !(root <= other) && !(other <= root);
    hide WellFormed, Framed, Roots.Valid, ManagedAreaOnly, Enterable, PrefixFree, Unobstructed;
    FramedInArea(before, after, appsDir, roots, s, desired);
    assert Enterable(before, other) by { WayIsEnterable(before, appsDir, other, d.Of(t)); }
    AreaStaysEnterable(before, after, roots, t);
    forall q | other < q ensures SameAt(before, after, q) {
      SameInOther(before, after, appsDir, root, other, desired, q);
    }
    StillUnobstructed(before, after, appsDir, other, d.Of(t));
  }

  lemma WayIsEnterable(fs: Fs, appsDir: Path, root: Path, desired: map<Path, Path>)
    requires Unobstructed(fs, appsDir, root, desired)
    ensures Enterable(fs, root)
  {
  }

  lemma SameInOther(before: Fs, after: Fs, appsDir: Path, root: Path, other: Path, desired: map<Path, Path>, q: Path)
    requires Framed(before, after, appsDir, root, desired) && !(root <= other) && !(other <= root) && other < q
    ensures SameAt(before, after, q)
  {
    hide WellFormed, Framed;
    assert q == other + q[|other|..];
    NotBelow(root, other, q[|other|..]);
    FramedAt(before, after, appsDir, root, desired, q);
  }

  lemma StillUnobstructed(before: Fs, after: Fs, appsDir: Path, root: Path, desired: map<Path, Path>)
    requires Unobstructed(before, appsDir, root, desired) && Enterable(after, root)
    requires forall n, q :: n in desired && root < q && q <= root + n ==> SameAt(before, after, q)
    requires DesiredValid(appsDir, desired)
    ensures Unobstructed(after, appsDir, root, desired)
  {
    hide Enterable, PointsThroughCurrent;
    forall n | n in desired && root + n in after ensures !after[root + n].Directory? {
      assert root < root + n;
      assert SameAt(before, after, root + n);
    }
    forall n, q | n in desired && q in after && root < q && q < root + n
      ensures after[q].Directory? || IsManaged(after, appsDir, q)
    {
      assert SameAt(before, after, q);
    }
  }

  /** Nor does taking things away below the units directory. */
  lemma LessStillRuns(before: Fs, after: Fs, appsDir: Path, roots: Roots, d: DesiredState, s: Name)
    requires roots.Valid() && s in SUBDIRS && OnlyLess(before, after) && SubdirRuns(before, appsDir, roots, d, s)
    ensures SubdirRuns(after, appsDir, roots, d, s)
  {
    hide Roots.Valid, PrefixFree, PointsThroughCurrent;
  }

  /**
    Desired links that an activation for `d` leaves room for: they include its
    names, and `systemctl` writes to none of theirs.
   */
  ghost predicate Wider(e: DesiredState, d: DesiredState, appsDir: Path, roots: Roots, enablement: iset<Path>) {
    && DesiredOk(appsDir, e)
    && (forall s :: s in SUBDIRS ==> d.Of(s).Keys <= e.Of(s).Keys)
    && (forall n, p :: n in e.units && p in enablement ==> !(p <= roots.units + n))
  }

  /** Where wider desired links could be made before, they still can. */
  ghost predicate StillRuns(before: Fs, after: Fs, appsDir: Path, roots: Roots, d: DesiredState,
                            enablement: iset<Path>) {
    forall e :: Wider(e, d, appsDir, roots, enablement) && ManagedRuns(before, appsDir, roots, e) ==>
      ManagedRuns(after, appsDir, roots, e)
  }

  lemma ReconcileStillRuns(before: Fs, after: Fs, appsDir: Path, roots: Roots, d: DesiredState, s: Name,
                           enablement: iset<Path>)
    requires roots.Valid() && s in SUBDIRS && Framed(before, after, appsDir, roots.Of(s), d.Of(s))
    ensures StillRuns(before, after, appsDir, roots, d, enablement)
  {
    hide Framed, Roots.Valid, Unobstructed, PrefixFree, PointsThroughCurrent;
    forall e | Wider(e, d, appsDir, roots, enablement) && ManagedRuns(before, appsDir, roots, e)
      ensures ManagedRuns(after, appsDir, roots, e)
    {
      forall t | t in SUBDIRS ensures SubdirRuns(after, appsDir, roots, e, t) {
        assert SubdirRuns(before, appsDir, roots, e, t);
        if t == s {
          assert d.Of(s).Keys <= e.Of(s).Keys;
          StillUnobstructedByLinks(before, after, appsDir, roots.Of(s), d.Of(s), e.Of(s));
        } else {
          OthersStillRun(before, after, appsDir, roots, e, s, t, d.Of(s));
        }
      }
    }
  }

  lemma DisableStillRuns(before: Fs, after: Fs, appsDir: Path, roots: Roots, d: DesiredState, enablement: iset<Path>)
    requires roots.Valid() && OnlyLess(before, after)
    ensures StillRuns(before, after, appsDir, roots, d, enablement)
  {
    hide Roots.Valid, SubdirRuns, OnlyLess;
    forall e | ManagedRuns(before, appsDir, roots, e) ensures ManagedRuns(after, appsDir, roots, e) {
      forall s | s in SUBDIRS ensures SubdirRuns(after, appsDir, roots, e, s) {
        LessStillRuns(before, after, appsDir, roots, e, s);
      }
    }
  }

  lemma EnableStillRuns(before: Fs, after: Fs, appsDir: Path, roots: Roots, d: DesiredState, enablement: iset<Path>)
    requires roots.Valid() && OnlyBelow(before, after, roots.Of(UNITS)) && ManagedAreaOnly(before, after, roots)
    requires forall p :: p !in enablement ==> SameAt(before, after, p)
    ensures StillRuns(before, after, appsDir, roots, d, enablement)
  {
    hide Roots.Valid, SubdirRuns, OnlyBelow, ManagedAreaOnly, DesiredOk, PrefixFree;
    forall e | Wider(e, d, appsDir, roots, enablement) && ManagedRuns(before, appsDir, roots, e)
      ensures ManagedRuns(after, appsDir, roots, e)
    {
      forall s | s in SUBDIRS ensures SubdirRuns(after, appsDir, roots, e, s) {
        assert SubdirRuns(before, appsDir, roots, e, s);
        EnableStillRunsIn(before, after, appsDir, roots, e, s, enablement);
      }
    }
  }

  lemma EnableStillRunsIn(before: Fs, after: Fs, appsDir: Path, roots: Roots, e: DesiredState, s: Name,
                          enablement: iset<Path>)
    requires roots.Valid() && OnlyBelow(before, after, roots.Of(UNITS)) && ManagedAreaOnly(before, after, roots)
    requires forall p :: p !in enablement ==> SameAt(before, after, p)
    requires s in SUBDIRS && SubdirRuns(before, appsDir, roots, e, s)
    requires DesiredOk(appsDir, e) && forall n, p :: n in e.units && p in enablement ==> !(p <= roots.units + n)
    ensures SubdirRuns(after, appsDir, roots, e, s)
  {
    var root := roots.Of(s);
    hide Roots.Valid, PrefixFree, PointsThroughCurrent, ManagedAreaOnly, WellFormed, Enterable, Unobstructed;
    assert Enterable(before, root) by { WayIsEnterable(before, appsDir, root, e.Of(s)); }
    AreaStaysEnterable(before, after, roots, s);
    forall n, q | n in e.Of(s) && root < q && q <= root + n ensures SameAt(before, after, q) {
      if s == UNITS {
        assert q !in enablement;
      } else {
        SameInOtherRoot(before, after, roots, s, q);
      }
    }
    StillUnobstructed(before, after, appsDir, root, e.Of(s));
  }

  lemma SameInOtherRoot(before: Fs, after: Fs, roots: Roots, s: Name, q: Path)
    requires roots.Valid() && s in SUBDIRS && s != UNITS && OnlyBelow(before, after, roots.Of(UNITS)) && roots.Of(s) < q
    ensures SameAt(before, after, q)
  {
    var root := roots.Of(s);
    assert !(root <= roots.Of(UNITS)) && !(roots.Of(UNITS) <= root);
    hide Roots.Valid, WellFormed;
    assert q == root + q[|root|..];
    NotBelow(roots.Of(UNITS), root, q[|root|..]);
  }

  lemma StillRunsTransitive(x: Fs, m: Fs, y: Fs, appsDir: Path, roots: Roots, d: DesiredState, enablement: iset<Path>)
    requires StillRuns(x, m, appsDir, roots, d, enablement) && StillRuns(m, y, appsDir, roots, d, enablement)
    ensures StillRuns(x, y, appsDir, roots, d, enablement)
  {
    hide Wider, ManagedRuns;
  }

  /** Reconcile one managed directory; those that are done stay as they are. */
  method ReconcileSubdir(fs: HostFs, appsDir: Path, roots: Roots, desired: DesiredState, s: Name, ghost done: set<Name>)
    returns (ok: bool)
    requires WellFormed(fs.tree) && roots.Valid() && DesiredOk(appsDir, desired)
    requires s in SUBDIRS && s !in done && ManagedSome(fs.tree, appsDir, roots, desired, done)
    modifies fs`tree, fs`faults, fs`ran
    ensures fs.ran == old(fs.ran) + [Ran(Reconcile(s), ok)]
    ensures WellFormed(fs.tree) && ManagedAreaOnly(old(fs.tree), fs.tree, roots)
    ensures ok ==> ManagedSome(fs.tree, appsDir, roots, desired, done + {s})
    ensures old(fs.faults) <= fs.faults
    ensures SubdirRuns(old(fs.tree), appsDir, roots, desired, s) && fs.faults == old(fs.faults) ==> ok
    ensures OthersRun(old(fs.tree), fs.tree, appsDir, roots, desired, s)
    ensures StillRuns(old(fs.tree), fs.tree, appsDir, roots, desired, fs.enablement)
  {
    RootOf(roots, s);
    hide Managed, Framed, PrefixFree, WellFormed, DesiredValid, ManagedAreaOnly, Enterable, Roots.Valid, ManagedSome;
    hide Unobstructed;
    hide OthersRun, StillRuns;
    ghost var before := fs.tree;
    ok := ReconcileManagedSymlinks(fs, desired.Of(s), appsDir, roots.Of(s));
    fs.ran := fs.ran + [Ran(Reconcile(s), ok)];
    FramedInArea(before, fs.tree, appsDir, roots, s, desired.Of(s));
    FramedTree(before, fs.tree, appsDir, roots.Of(s), desired.Of(s));
    OthersStay(before, fs.tree, appsDir, roots, desired, s);
    ReconcileStillRuns(before, fs.tree, appsDir, roots, desired, s, fs.enablement);
    if ok {
      OneMoreManaged(before, fs.tree, appsDir, roots, desired, s, done);
    }
  }

  /** Where nothing was in the way of the other directories, still nothing is. */
  ghost predicate OthersRun(before: Fs, after: Fs, appsDir: Path, roots: Roots, d: DesiredState, s: Name) {
    forall t :: t in SUBDIRS && t != s && SubdirRuns(before, appsDir, roots, d, t) ==>
      SubdirRuns(after, appsDir, roots, d, t)
  }

  lemma OthersStay(before: Fs, after: Fs, appsDir: Path, roots: Roots, d: DesiredState, s: Name)
    requires roots.Valid() && s in SUBDIRS && Framed(before, after, appsDir, roots.Of(s), d.Of(s))
    requires DesiredOk(appsDir, d)
    ensures OthersRun(before, after, appsDir, roots, d, s)
  {
    hide Framed, SubdirRuns, Roots.Valid, DesiredOk;
    forall t | t in SUBDIRS && t != s && SubdirRuns(before, appsDir, roots, d, t)
      ensures SubdirRuns(after, appsDir, roots, d, t)
    {
      OthersStillRun(before, after, appsDir, roots, d, s, t, d.Of(s));
    }
  }

  lemma RootOf(roots: Roots, s: Name)
    requires roots.Valid() && s in SUBDIRS
    ensures roots.Of(s) != [] && roots.Of(s)[0] == ROOT
  {
  }

  lemma OneMoreManaged(before: Fs, after: Fs, appsDir: Path, roots: Roots, d: DesiredState, s: Name, done: set<Name>)
    requires roots.Valid() && s in SUBDIRS && s !in done && ManagedSome(before, appsDir, roots, d, done)
    requires Framed(before, after, appsDir, roots.Of(s), d.Of(s)) && ManagedAreaOnly(before, after, roots)
    requires Managed(after, appsDir, roots.Of(s)) == d.Of(s) && Enterable(before, roots.Of(s))
    ensures ManagedSome(after, appsDir, roots, d, done + {s})
  {
    hide Managed, Framed, ManagedAreaOnly, Enterable, Roots.Valid;
    AreaStaysEnterable(before, after, roots, s);
    forall t | t in SUBDIRS && t in done
      ensures Managed(after, appsDir, roots.Of(t)) == d.Of(t) && Enterable(after, roots.Of(t))
    {
      OtherRootsKeepLinks(before, after, appsDir, roots, s, t, d.Of(s));
      AreaStaysEnterable(before, after, roots, t);
    }
  }

  lemma AreaRefl(fs: Fs, roots: Roots)
    requires WellFormed(fs)
    ensures ManagedAreaOnly(fs, fs, roots)
  {
  }

  lemma StoppedAt(base: Fs, t: Fs, x: Fs, roots: Roots, c: SymlinkChanges<Path>)
    requires LinksPartly(base, t, c) && ManagedAreaOnly(t, x, roots)
    ensures TreeStopped(base, x, roots, c)
  {
  }

  /** The managed directories in their order, each with the command that its change asks for, and the units last. */
  function ManagedPlan(restart: bool, desired: DesiredState, changes: SystemDiff<Path>): seq<Action> {
    DirsPlan(changes) + UnitsPlan(restart, desired, changes.unitActions)
  }

  function DirsPlan(changes: SystemDiff<Path>): seq<Action> {
    [Reconcile(NETWORKD)] + If(changes.networkd.contentChanged, ReloadNetworkd)
    + [Reconcile(QUADLETS)] + [Reconcile(SYSUSERS)] + If(changes.sysusers.contentChanged, MakeSysusers)
  }

  /** All but the units. */
  method ActivateDirs(fs: HostFs, appsDir: Path, roots: Roots, desired: DesiredState, changes: SystemDiff<Path>)
    returns (ok: bool)
    requires WellFormed(fs.tree) && roots.Valid() && DesiredOk(appsDir, desired)
    modifies fs`tree, fs`faults, fs`ran
    ensures WellFormed(fs.tree) && ManagedAreaOnly(old(fs.tree), fs.tree, roots)
    ensures ok ==> ManagedSome(fs.tree, appsDir, roots, desired, {NETWORKD, QUADLETS, SYSUSERS})
    ensures old(fs.faults) <= fs.faults
    ensures ManagedRuns(old(fs.tree), appsDir, roots, desired) ==>
              (fs.faults == old(fs.faults) ==> ok) && SubdirRuns(fs.tree, appsDir, roots, desired, UNITS)
    ensures StillRuns(old(fs.tree), fs.tree, appsDir, roots, desired, fs.enablement)
    ensures Performs(old(fs.ran), fs.ran, DirsPlan(changes), ok)
  {
    hide Managed, WellFormed, ManagedAreaOnly, DesiredOk, ManagedSome, Roots.Valid, SubdirRuns, StillRuns, Performs;
    NoneManaged(fs.tree, appsDir, roots, desired);
    ghost var start, log := fs.tree, fs.ran;
    ghost var afterNetworkd := [Reconcile(NETWORKD)] + If(changes.networkd.contentChanged, ReloadNetworkd);
    ok := ReconcileSubdir(fs, appsDir, roots, desired, NETWORKD, {});
    PerformsOne(log, Reconcile(NETWORKD), ok);
    if ok {
      ghost var l := fs.ran;
      ok := ExecuteIf(fs, changes.networkd.contentChanged, ReloadNetworkd);
      PerformsThen(log, l, fs.ran, [Reconcile(NETWORKD)], If(changes.networkd.contentChanged, ReloadNetworkd), ok);
    } else {
      PerformsStop(log, fs.ran, [Reconcile(NETWORKD)], If(changes.networkd.contentChanged, ReloadNetworkd));
    }
    ghost var rest := [Reconcile(QUADLETS)] + [Reconcile(SYSUSERS)] + If(changes.sysusers.contentChanged, MakeSysusers);
    assert afterNetworkd + rest == DirsPlan(changes);
    if !ok {
      PerformsStop(log, fs.ran, afterNetworkd, rest);
      return;
    }
    ghost var mid, l := fs.tree, fs.ran;
    assert {} + {NETWORKD} == {NETWORKD};
    ok := ActivateMoreDirs(fs, appsDir, roots, desired, changes);
    PerformsThen(log, l, fs.ran, afterNetworkd, rest, ok);
    ManagedAreaTransitive(start, mid, fs.tree, roots);
    StillRunsTransitive(start, mid, fs.tree, appsDir, roots, desired, fs.enablement);
  }

  /** Quadlets and system users, after the network. */
  method ActivateMoreDirs(fs: HostFs, appsDir: Path, roots: Roots, desired: DesiredState, changes: SystemDiff<Path>)
    returns (ok: bool)
    requires WellFormed(fs.tree) && roots.Valid() && DesiredOk(appsDir, desired)
    requires ManagedSome(fs.tree, appsDir, roots, desired, {NETWORKD})
    modifies fs`tree, fs`faults, fs`ran
    ensures WellFormed(fs.tree) && ManagedAreaOnly(old(fs.tree), fs.tree, roots)
    ensures ok ==> ManagedSome(fs.tree, appsDir, roots, desired, {NETWORKD, QUADLETS, SYSUSERS})
    ensures old(fs.faults) <= fs.faults
    ensures SubdirRuns(old(fs.tree), appsDir, roots, desired, QUADLETS) ==>
              SubdirRuns(old(fs.tree), appsDir, roots, desired, SYSUSERS) && fs.faults == old(fs.faults) ==> ok
    ensures SubdirRuns(old(fs.tree), appsDir, roots, desired, UNITS) ==>
              SubdirRuns(fs.tree, appsDir, roots, desired, UNITS)
    ensures StillRuns(old(fs.tree), fs.tree, appsDir, roots, desired, fs.enablement)
    ensures Performs(old(fs.ran), fs.ran,
                     [Reconcile(QUADLETS)] + [Reconcile(SYSUSERS)]
                     + If(changes.sysusers.contentChanged, MakeSysusers), ok)
  {
    hide Managed, WellFormed, ManagedAreaOnly, DesiredOk, ManagedSome, Roots.Valid, SubdirRuns, StillRuns, Performs;
    ghost var start, log, users := fs.tree, fs.ran, If(changes.sysusers.contentChanged, MakeSysusers);
    assert {NETWORKD} + {QUADLETS} == {NETWORKD, QUADLETS};
    assert {NETWORKD, QUADLETS} + {SYSUSERS} == {NETWORKD, QUADLETS, SYSUSERS};
    ok := ReconcileSubdir(fs, appsDir, roots, desired, QUADLETS, {NETWORKD});
    PerformsOne(log, Reconcile(QUADLETS), ok);
    if !ok {
      PerformsStop(log, fs.ran, [Reconcile(QUADLETS)], [Reconcile(SYSUSERS)] + users);
      assert [Reconcile(QUADLETS)] + ([Reconcile(SYSUSERS)] + users)
             == [Reconcile(QUADLETS)] + [Reconcile(SYSUSERS)] + users;
      return;
    }
    ghost var mid, l := fs.tree, fs.ran;
    ok := ReconcileSubdir(fs, appsDir, roots, desired, SYSUSERS, {NETWORKD, QUADLETS});
    PerformsOne(l, Reconcile(SYSUSERS), ok);
    PerformsThen(log, l, fs.ran, [Reconcile(QUADLETS)], [Reconcile(SYSUSERS)], ok);
    ManagedAreaTransitive(start, mid, fs.tree, roots);
    StillRunsTransitive(start, mid, fs.tree, appsDir, roots, desired, fs.enablement);
    if !ok {
      PerformsStop(log, fs.ran, [Reconcile(QUADLETS)] + [Reconcile(SYSUSERS)], users);
      return;
    }
    l := fs.ran;
    ok := ExecuteIf(fs, changes.sysusers.contentChanged, MakeSysusers);
    PerformsThen(log, l, fs.ran, [Reconcile(QUADLETS)] + [Reconcile(SYSUSERS)], users, ok);
  }

  /** The managed directories and the units, after the manifest links are done. */
  method ActivateManaged(fs: HostFs, restart: bool, appsDir: Path, roots: Roots, desired: DesiredState,
                         changes: SystemDiff<Path>)
    returns (ok: bool)
    requires WellFormed(fs.tree) && roots.Valid() && DesiredOk(appsDir, desired) && fs.JobsEnd()
    modifies fs`tree, fs`faults, fs`ran, fs`watched
    ensures ManagedAreaOnly(old(fs.tree), fs.tree, roots)
    ensures ok ==> ManagedAre(fs.tree, appsDir, roots, desired) && RootsEnterable(fs.tree, roots)
    ensures old(fs.faults) <= fs.faults
    ensures ManagedRuns(old(fs.tree), appsDir, roots, desired) && fs.faults == old(fs.faults) ==> ok
    ensures StillRuns(old(fs.tree), fs.tree, appsDir, roots, desired, fs.enablement)
    ensures Performs(old(fs.ran), fs.ran, ManagedPlan(restart, desired, changes), ok)
    ensures UnitsWaited(fs.watches, old(fs.watched), fs.watched, changes.unitActions.Touched(), ok)
  {
    hide ManagedAre, WellFormed, ManagedAreaOnly, DesiredOk, ManagedSome, Roots.Valid, SubdirRuns, StillRuns, Performs;
    hide RootsEnterable, ManagedRuns, CameUp;
    ghost var start, log, units := fs.tree, fs.ran, UnitsPlan(restart, desired, changes.unitActions);
    ok := ActivateDirs(fs, appsDir, roots, desired, changes);
    if !ok {
      PerformsStop(log, fs.ran, DirsPlan(changes), units);
      return;
    }
    ghost var l := fs.ran;
    ok := ActivateUnits(fs, restart, appsDir, roots, desired, changes.unitActions, start);
    PerformsThen(log, l, fs.ran, DirsPlan(changes), units, ok);
  }

  lemma NoneManaged(fs: Fs, appsDir: Path, roots: Roots, d: DesiredState)
    ensures ManagedSome(fs, appsDir, roots, d, {})
  {
  }

  /** Whether there is anything for systemd to reload. */
  predicate ManagesSystemd(desired: DesiredState, actions: UnitActions) {
    desired.quadlets != map[] || desired.units != map[] || actions != UnitActions([], [], [])
  }

  /** There is: a quadlet or a unit that is desired, or a unit to act on. */
  lemma {:induction false} ReloadNeeded(desired: DesiredState, actions: UnitActions)
    ensures ManagesSystemd(desired, actions) <==>
              || (exists n :: n in desired.quadlets || n in desired.units)
              || (exists u :: u in actions.enable || u in actions.restart || u in actions.disable)
  {
    if desired.quadlets != map[] {
      assert exists n :: n in desired.quadlets;
    }
    if desired.units != map[] {
      assert exists n :: n in desired.units;
    }
    SomeUnit(actions.enable);
    SomeUnit(actions.restart);
    SomeUnit(actions.disable);
  }

  lemma SomeUnit(units: seq<string>)
    ensures units != [] <==> exists u :: u in units
  {
    if units != [] {
      assert units[0] in units;
    }
  }

  function UnitsPlan(restart: bool, desired: DesiredState, actions: UnitActions): seq<Action> {
    Disables(actions.disable) + [Reconcile(UNITS)] + AfterUnits(restart, desired, actions)
  }

  function AfterUnits(restart: bool, desired: DesiredState, actions: UnitActions): seq<Action> {
    Enables(actions.Touched()) + If(ManagesSystemd(desired, actions), ReloadDaemon)
    + StartPlan(restart, actions.Touched())
  }

  /** Disable, reconcile, enable, reload, start. */
  method ActivateUnits(fs: HostFs, restart: bool, appsDir: Path, roots: Roots, desired: DesiredState,
                       actions: UnitActions, ghost start: Fs)
    returns (ok: bool)
    requires WellFormed(fs.tree) && roots.Valid() && DesiredOk(appsDir, desired) && fs.JobsEnd()
    requires ManagedAreaOnly(start, fs.tree, roots) && StillRuns(start, fs.tree, appsDir, roots, desired, fs.enablement)
    requires ManagedSome(fs.tree, appsDir, roots, desired, {NETWORKD, QUADLETS, SYSUSERS})
    modifies fs`tree, fs`faults, fs`ran, fs`watched
    ensures ManagedAreaOnly(start, fs.tree, roots) && StillRuns(start, fs.tree, appsDir, roots, desired, fs.enablement)
    ensures ok ==> ManagedAre(fs.tree, appsDir, roots, desired) && RootsEnterable(fs.tree, roots)
    ensures old(fs.faults) <= fs.faults
    ensures SubdirRuns(old(fs.tree), appsDir, roots, desired, UNITS) && fs.faults == old(fs.faults) ==> ok
    ensures Performs(old(fs.ran), fs.ran, UnitsPlan(restart, desired, actions), ok)
    ensures UnitsWaited(fs.watches, old(fs.watched), fs.watched, actions.Touched(), ok)
  {
    hide Managed, WellFormed, ManagedAreaOnly, DesiredOk, OnlyBelow, ManagedSome, Enterable;
    hide ManagedAre, RootsEnterable, SubdirRuns, OthersRun, OnlyLess, StillRuns, Performs, CameUp;
    RootOf(roots, UNITS);
    hide Roots.Valid;
    ghost var others, log, disables := {NETWORKD, QUADLETS, SYSUSERS}, fs.ran, Disables(actions.disable);
    ghost var before, l := fs.tree, fs.ran;
    DisableUnits(fs, roots.units, actions.disable);
    AfterDisable(start, before, fs.tree, appsDir, roots, desired, fs.enablement);
    before, l := fs.tree, fs.ran;
    ok := ReconcileSubdir(fs, appsDir, roots, desired, UNITS, others);
    PerformsOne(l, Reconcile(UNITS), ok);
    PerformsThen(log, l, fs.ran, disables, [Reconcile(UNITS)], ok);
    ManagedAreaTransitive(start, before, fs.tree, roots);
    StillRunsTransitive(start, before, fs.tree, appsDir, roots, desired, fs.enablement);
    if !ok {
      PerformsStop(log, fs.ran, disables + [Reconcile(UNITS)], AfterUnits(restart, desired, actions));
      return;
    }
    AllManaged(fs.tree, appsDir, roots, desired, others + {UNITS});
    l := fs.ran;
    ok := FinishUnits(fs, restart, appsDir, roots, desired, actions, start);
    PerformsThen(log, l, fs.ran, disables + [Reconcile(UNITS)], AfterUnits(restart, desired, actions), ok);
  }

  lemma AfterDisable(start: Fs, before: Fs, after: Fs, appsDir: Path, roots: Roots, d: DesiredState,
                     enablement: iset<Path>)
    requires roots.Valid() && ManagedAreaOnly(start, before, roots)
    requires StillRuns(start, before, appsDir, roots, d, enablement)
    requires ManagedSome(before, appsDir, roots, d, {NETWORKD, QUADLETS, SYSUSERS})
    requires OnlyBelow(before, after, roots.units) && OnlyLess(before, after)
    ensures WellFormed(after) && ManagedAreaOnly(start, after, roots)
    ensures StillRuns(start, after, appsDir, roots, d, enablement)
    ensures ManagedSome(after, appsDir, roots, d, {NETWORKD, QUADLETS, SYSUSERS})
    ensures SubdirRuns(before, appsDir, roots, d, UNITS) ==> SubdirRuns(after, appsDir, roots, d, UNITS)
  {
    hide WellFormed, ManagedAreaOnly, OnlyBelow, OnlyLess, StillRuns, ManagedSome, SubdirRuns, Roots.Valid;
    BelowTree(before, after, roots.units);
    BelowInArea(before, after, roots, UNITS);
    ManagedAreaTransitive(start, before, after, roots);
    OthersKept(before, after, appsDir, roots, d);
    DisableStillRuns(before, after, appsDir, roots, d, enablement);
    StillRunsTransitive(start, before, after, appsDir, roots, d, enablement);
    if SubdirRuns(before, appsDir, roots, d, UNITS) {
      LessStillRuns(before, after, appsDir, roots, d, UNITS);
    }
  }

  /** Enable, reload, start: with all managed links in place. */
  method FinishUnits(fs: HostFs, restart: bool, appsDir: Path, roots: Roots, desired: DesiredState,
                     actions: UnitActions, ghost start: Fs)
    returns (ok: bool)
    requires WellFormed(fs.tree) && roots.Valid() && fs.JobsEnd()
    requires ManagedAreaOnly(start, fs.tree, roots) && StillRuns(start, fs.tree, appsDir, roots, desired, fs.enablement)
    requires ManagedAre(fs.tree, appsDir, roots, desired) && RootsEnterable(fs.tree, roots)
    modifies fs`tree, fs`faults, fs`ran, fs`watched
    ensures ManagedAreaOnly(start, fs.tree, roots) && StillRuns(start, fs.tree, appsDir, roots, desired, fs.enablement)
    ensures ManagedAre(fs.tree, appsDir, roots, desired) && RootsEnterable(fs.tree, roots)
    ensures old(fs.faults) <= fs.faults && (fs.faults == old(fs.faults) ==> ok)
    ensures Performs(old(fs.ran), fs.ran, AfterUnits(restart, desired, actions), ok)
    ensures UnitsWaited(fs.watches, old(fs.watched), fs.watched, actions.Touched(), ok)
  {
    hide WellFormed, ManagedAreaOnly, OnlyBelow, SameManagedNode, ManagedAre, RootsEnterable, StillRuns, Performs;
    hide CameUp;
    RootOf(roots, UNITS);
    hide Roots.Valid;
    ghost var before, log, touched := fs.tree, fs.ran, actions.Touched();
    ghost var reload := If(ManagesSystemd(desired, actions), ReloadDaemon);
    EnableUnits(fs, appsDir, roots.units, actions.Touched());
    BelowInArea(before, fs.tree, roots, UNITS);
    ManagedAreaTransitive(start, before, fs.tree, roots);
    EnabledKeeps(before, fs.tree, appsDir, roots, desired);
    EnableStillRuns(before, fs.tree, appsDir, roots, desired, fs.enablement);
    StillRunsTransitive(start, before, fs.tree, appsDir, roots, desired, fs.enablement);
    ghost var l := fs.ran;
    ok := ExecuteIf(fs, ManagesSystemd(desired, actions), ReloadDaemon);
    ReloadPasses(l, fs.ran, ManagesSystemd(desired, actions), ok);
    PerformsThen(log, l, fs.ran, Enables(touched), reload, ok);
    l := fs.ran;
    ok := StartUnits(fs, restart, actions.Touched());
    PerformsThen(log, l, fs.ran, Enables(touched) + reload, StartPlan(restart, touched), ok);
  }

  /** A failing reload passes. */
  lemma ReloadPasses(before: seq<Ran>, after: seq<Ran>, needed: bool, ok: bool)
    requires Performs(before, after, If(needed, ReloadDaemon), ok)
    ensures ok
  {
  }

  lemma BelowTree(before: Fs, after: Fs, root: Path)
    requires OnlyBelow(before, after, root)
    ensures WellFormed(after)
  {
  }

  lemma OthersKept(before: Fs, after: Fs, appsDir: Path, roots: Roots, d: DesiredState)
    requires roots.Valid() && OnlyBelow(before, after, roots.Of(UNITS))
    requires ManagedSome(before, appsDir, roots, d, {NETWORKD, QUADLETS, SYSUSERS})
    ensures ManagedSome(after, appsDir, roots, d, {NETWORKD, QUADLETS, SYSUSERS})
  {
    hide Managed, OnlyBelow, Roots.Valid, Enterable, ManagedAreaOnly;
    BelowInArea(before, after, roots, UNITS);
    forall s | s in {NETWORKD, QUADLETS, SYSUSERS}
      ensures Managed(after, appsDir, roots.Of(s)) == Managed(before, appsDir, roots.Of(s))
      ensures Enterable(after, roots.Of(s))
    {
      BelowKeepsLinks(before, after, appsDir, roots, UNITS, s);
      AreaStaysEnterable(before, after, roots, s);
    }
  }

  /** Enabling units leaves all managed links as they are. */
  lemma EnabledKeeps(before: Fs, after: Fs, appsDir: Path, roots: Roots, d: DesiredState)
    requires roots.Valid() && OnlyBelow(before, after, roots.units) && ManagedAreaOnly(before, after, roots)
    requires forall p :: SameManagedNode(before, after, appsDir, p)
    requires ManagedAre(before, appsDir, roots, d) && RootsEnterable(before, roots)
    ensures ManagedAre(after, appsDir, roots, d) && RootsEnterable(after, roots)
  {
    hide Managed, OnlyBelow, Roots.Valid, Enterable, ManagedAreaOnly, SameManagedNode;
    forall s | s in SUBDIRS
      ensures Managed(after, appsDir, roots.Of(s)) == Managed(before, appsDir, roots.Of(s))
      ensures Enterable(after, roots.Of(s))
    {
      ManagedSame(before, after, appsDir, roots.Of(s));
      AreaStaysEnterable(before, after, roots, s);
    }
  }

  /** Nothing keeps an activation from succeeding: the link changes get through, and then every managed directory. */
  ghost predicate Activates(fs: Fs, apps: map<Name, AppDir>, appsDir: Path, roots: Roots, c: SymlinkChanges<Path>,
                            d: DesiredState) {
    ConfigRuns(fs, apps, appsDir, c) && ManagedRuns(LinksRun(fs, c), appsDir, roots, d)
  }

  /** Link changes, some or all of them, and then managed directories that leave room for wider desired links. */
  ghost predicate StoppedRuns(base: Fs, x: Fs, appsDir: Path, roots: Roots, c: SymlinkChanges<Path>, d: DesiredState,
                              enablement: iset<Path>) {
    exists t ::
      LinksPartly(base, t, c) && ManagedAreaOnly(t, x, roots) && StillRuns(t, x, appsDir, roots, d, enablement)
  }

  lemma StoppedRunsAt(base: Fs, t: Fs, x: Fs, appsDir: Path, roots: Roots, c: SymlinkChanges<Path>, d: DesiredState,
                      enablement: iset<Path>)
    requires LinksPartly(base, t, c) && ManagedAreaOnly(t, x, roots) && StillRuns(t, x, appsDir, roots, d, enablement)
    ensures StoppedRuns(base, x, appsDir, roots, c, d, enablement)
  {
  }

  lemma StillRunsRefl(fs: Fs, appsDir: Path, roots: Roots, d: DesiredState, enablement: iset<Path>)
    ensures StillRuns(fs, fs, appsDir, roots, d, enablement)
  {
  }

  /**
    Manifest links first, then the managed directories, then the units: the
    planned actions in their order, up to the first one that fails and may not.
    The answer is whether there is none, so the touched units have come up. If
    no primitive fails and nothing is in the way, activation succeeds.
   */
  method Activate(fs: HostFs, restart: bool, appsDir: Path, roots: Roots, desired: DesiredState,
                  changes: SystemDiff<Path>)
    returns (ok: bool)
    requires WellFormed(fs.tree) && roots.Valid() && DesiredOk(appsDir, desired) && fs.JobsEnd()
    modifies fs`tree, fs`faults, fs`ran, fs`watched
    ensures Performs(old(fs.ran), fs.ran, [LinkManifests] + ManagedPlan(restart, desired, changes), ok)
    ensures UnitsWaited(fs.watches, old(fs.watched), fs.watched, changes.unitActions.Touched(), ok)
    ensures TreeStopped(old(fs.tree), fs.tree, roots, changes.symlinks)
    ensures ForeignKept(old(fs.tree), fs.tree, appsDir, roots, changes.symlinks)
    ensures ok ==> TreeDone(old(fs.tree), fs.tree, appsDir, roots, changes.symlinks, desired)
    ensures old(fs.faults) <= fs.faults
    ensures Activates(old(fs.tree), fs.apps, appsDir, roots, changes.symlinks, desired) ==>
              (fs.faults == old(fs.faults) ==> ok)
    ensures StoppedRuns(old(fs.tree), fs.tree, appsDir, roots, changes.symlinks, desired, fs.enablement)
  {
    hide ConfigRuns, ManagedRuns, StillRuns, StoppedRuns, Performs, CameUp;
    hide WellFormed, ManagedAreaOnly, DesiredOk, LinksRun, LinksPartly, TreeStopped, Roots.Valid, Spared, ForeignKept;
    hide Removable;
    hide RemovesRun, ChangesRun;
    ghost var base, log, managed := fs.tree, fs.ran, ManagedPlan(restart, desired, changes);
    ok := ReconcileConfigSymlinks(fs, appsDir, changes.symlinks);
    fs.ran := fs.ran + [Ran(LinkManifests, ok)];
    PerformsOne(log, LinkManifests, ok);
    ghost var linked := fs.tree;
    assert WellFormed(linked) by { PartlyWellFormed(base, linked, changes.symlinks); }
    AreaRefl(linked, roots);
    StillRunsRefl(linked, appsDir, roots, desired, fs.enablement);
    if ok {
      ghost var l := fs.ran;
      ok := ActivateManaged(fs, restart, appsDir, roots, desired, changes);
      PerformsThen(log, l, fs.ran, [LinkManifests], managed, ok);
    } else {
      PerformsStop(log, fs.ran, [LinkManifests], managed);
    }
    StoppedRunsAt(base, linked, fs.tree, appsDir, roots, changes.symlinks, desired, fs.enablement);
    StoppedAt(base, linked, fs.tree, roots, changes.symlinks);
    SparedKeepsForeign(base, linked, fs.tree, fs.apps, appsDir, roots, changes.symlinks);
  }
}
