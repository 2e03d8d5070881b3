/** Version directories of apps: checking out, rotating `current` and `previous`, and collecting garbage. */
module Checkout {
  import opened Wrappers
  import opened Paths
  import opened Trees
  import opened Plan
  import opened Filesystem
  import opened History

  /** The first 10 of the 40 hexadecimal digits of an object id name its version directories. */
  const PREFIX_SCALE: nat := 0x100_0000_0000_0000_0000_0000_0000_0000

  function OidPrefix(oid: Oid): Prefix {
    oid / PREFIX_SCALE
  }

  datatype CheckoutMode = Fresh | Reuse

  /** An app's directory after checking out version `p`. */
  function CheckedOut(dir: AppDir, p: Prefix, t: Tree, mode: CheckoutMode): AppDir {
    var versions := if mode == Fresh || p !in dir.versions then dir.versions[p := t] else dir.versions;
    if dir.current == Some(p) then dir.(versions := versions)
    else AppDir(versions, Some(p), if dir.current.Some? then dir.current else dir.previous, None)
  }

  /**
    After any part of a checkout of `p`: other versions are as they were, the
    links are before, between or after the rotation.
   */
  ghost predicate Interrupted(dir: AppDir, e: AppDir, p: Prefix) {
    && (forall q :: q != p ==>
          (q in e.versions <==> q in dir.versions) && (q in e.versions ==> e.versions[q] == dir.versions[q]))
    && if dir.current == Some(p) then e.current == dir.current && e.previous == dir.previous && e.next == dir.next
       else
         || (e.current == dir.current && e.previous == dir.previous
             && (e.next == dir.next || e.next == None || e.next == Some(p)))
         || (dir.current.Some? && e.current == None && e.previous == dir.current
             && (e.next == None || e.next == Some(p)))
         || (e.current == Some(p) && e.previous == (if dir.current.Some? then dir.current else dir.previous)
             && e.next == None)
  }

  /** The same for an app whose directory may not be there. */
  ghost predicate AppInterrupted(before: map<Name, AppDir>, after: map<Name, AppDir>, app: Name, p: Prefix) {
    && (forall a :: a != app ==> (a in after <==> a in before) && (a in after ==> after[a] == before[a]))
    && (app in before ==> app in after)
    && (app in after ==> Interrupted(DirOf(before, app), after[app], p))
  }

  /** Interrupted checkouts of the same version add up to one. */
  lemma {:induction false} InterruptedTransitive(dir: AppDir, e: AppDir, f: AppDir, p: Prefix)
    requires Interrupted(dir, e, p) && Interrupted(e, f, p)
    ensures Interrupted(dir, f, p)
  {
  }

  /** A checkout that was interrupted after any step, and is rerun, ends as if it had not been. */
  lemma {:induction false} RerunCheckout(dir: AppDir, e: AppDir, p: Prefix, t: Tree)
    requires Interrupted(dir, e, p)
    ensures CheckedOut(e, p, t, Fresh) == CheckedOut(dir, p, t, Fresh)
  {
  }

  /** Any number of interrupted checkouts of one version, and then one that completes. */
  lemma {:induction false} RerunManyCheckouts(dirs: seq<AppDir>, p: Prefix, t: Tree)
    requires dirs != [] && forall i :: 0 <= i < |dirs| - 1 ==> Interrupted(dirs[i], dirs[i + 1], p)
    ensures CheckedOut(dirs[|dirs| - 1], p, t, Fresh) == CheckedOut(dirs[0], p, t, Fresh)
    decreases |dirs|
  {
    if |dirs| > 1 {
      RerunManyCheckouts(dirs[1..], p, t);
      RerunCheckout(dirs[0], dirs[1], p, t);
    }
  }

  /** `version_dir`, empty or not there, filled with the app's tree. */
  method FillVersion(fs: HostFs, app: Name, p: Prefix, t: Tree) returns (ok: bool)
    modifies fs`apps, fs`faults
    ensures old(fs.faults) <= fs.faults && (!ok ==> old(fs.faults) < fs.faults)
    ensures AppInterrupted(old(fs.apps), fs.apps, app, p)
    ensures ok ==> app in fs.apps && var dir := DirOf(old(fs.apps), app);
              fs.apps[app] == dir.(versions := dir.versions[p := t])
  {
    ok := true;
    if app in fs.apps && p in fs.apps[app].versions {
      ok := fs.RemoveVersion(app, p);
    }
    if ok {
      ok := fs.CreateVersion(app, p);
    }
    if ok {
      ok := fs.WriteVersion(app, p, t);
    }
  }

  /** Point `next` at the version, rotate `current` to `previous`, and `next` to `current`. */
  method RotateLinks(fs: HostFs, app: Name, p: Prefix) returns (ok: bool)
    requires app in fs.apps && fs.apps[app].current != Some(p)
    modifies fs`apps, fs`faults
    ensures old(fs.faults) <= fs.faults && (!ok ==> old(fs.faults) < fs.faults)
    ensures AppInterrupted(old(fs.apps), fs.apps, app, p)
    ensures ok ==> app in fs.apps && var dir := old(fs.apps)[app];
              fs.apps[app]
              == AppDir(dir.versions, Some(p), if dir.current.Some? then dir.current else dir.previous, None)
  {
    if fs.apps[app].next.Some? {
      ok := fs.UnlinkVersion(app, Next);
      if !ok {
        return;
      }
    }
    ok := fs.LinkVersion(app, p, Next);
    if !ok {
      return;
    }
    if fs.apps[app].current.Some? {
      ok := fs.RenameLink(app, Current, Previous);
      if !ok {
        return;
      }
    }
    ok := fs.RenameLink(app, Next, Current);
  }

  /** Check out version `p` of an app and make it current. */
  method CheckoutApp(fs: HostFs, app: Name, p: Prefix, t: Tree, mode: CheckoutMode) returns (ok: bool)
    modifies fs`apps, fs`faults
    ensures old(fs.faults) <= fs.faults && (!ok ==> old(fs.faults) < fs.faults)
    ensures AppInterrupted(old(fs.apps), fs.apps, app, p)
    ensures ok ==> app in fs.apps && fs.apps[app] == CheckedOut(DirOf(old(fs.apps), app), p, t, mode)
  {
    var needsCheckout := mode == Fresh || !(app in fs.apps && p in fs.apps[app].versions);
    if needsCheckout {
      ok := FillVersion(fs, app, p, t);
      if !ok {
        return;
      }
    }
    if fs.apps[app].current == Some(p) {
      return true;
    }
    ghost var mid := fs.apps;
    ok := RotateLinks(fs, app, p);
    InterruptedTransitive(DirOf(old(fs.apps), app), mid[app], fs.apps[app], p);
  }

  method RemoveApp(fs: HostFs, app: Name) returns (ok: bool)
    modifies fs`apps, fs`faults
    ensures old(fs.faults) <= fs.faults && (!ok ==> old(fs.faults) < fs.faults)
    ensures ok ==> fs.apps == old(fs.apps) - {app}
    ensures forall a :: a != app ==>
              (a in fs.apps <==> a in old(fs.apps)) && (a in fs.apps ==> fs.apps[a] == old(fs.apps)[a])
    ensures app in fs.apps ==> app in old(fs.apps)
  {
    ok := true;
    if app in fs.apps {
      ok := fs.RemoveAppDir(app);
    }
  }

  // ----- Garbage collection -----

  function Named(link: Option<Prefix>): set<Prefix> {
    if link.Some? then {link.value} else {}
  }

  /** The versions that `current` and `previous` point to. */
  function Keep(dir: AppDir): set<Prefix> {
    Named(dir.current) + Named(dir.previous)
  }

  /** After a collection that keeps the versions in `keep`; of others, `left` says what failed removals leave. */
  function Gathered(dir: AppDir, keep: set<Prefix>, left: map<Prefix, Tree>): AppDir {
    dir.(versions := map q | q in dir.versions && (q in keep || q in left) ::
           if q in keep then dir.versions[q] else left[q])
  }

  /** A collection keeps the versions that the links name exactly when it could read the links to them. */
  lemma {:induction false} GatheredKeeps(dir: AppDir, keep: set<Prefix>)
    ensures (forall q :: q in Keep(dir) && q in dir.versions ==> q in Gathered(dir, keep, map[]).versions)
            <==> Keep(dir) * dir.versions.Keys <= keep
  {
    var e := Gathered(dir, keep, map[]);
    assert e.versions.Keys == dir.versions.Keys * keep;
    if forall q :: q in Keep(dir) && q in dir.versions ==> q in e.versions {
      forall q | q in Keep(dir) * dir.versions.Keys ensures q in keep {
        assert q in e.versions.Keys;
      }
    }
  }

  datatype AppOp = Install(p: Prefix, t: Tree, mode: CheckoutMode) | Collect(left: map<Prefix, Tree>)

  function AfterOp(dir: AppDir, op: AppOp): AppDir {
    match op
    case Install(p, t, mode) => CheckedOut(dir, p, t, mode)
    case Collect(left) => Gathered(dir, Keep(dir), left)
  }

  /**
    Remove the versions that neither link is read to name. Failures are passed
    over: of a removal, reported here as `clean == false`, and of a read, which
    makes the named version one to remove.
   */
  method GcAppDir(fs: HostFs, app: Name) returns (clean: bool, ghost keep: set<Prefix>)
    requires app in fs.apps
    modifies fs`apps, fs`faults, fs`misreads
    ensures old(fs.faults) <= fs.faults && (!clean ==> old(fs.faults) < fs.faults)
    ensures app in fs.apps && fs.apps == old(fs.apps)[app := fs.apps[app]]
    ensures keep <= Keep(old(fs.apps)[app]) && old(fs.misreads) <= fs.misreads
    ensures fs.misreads == old(fs.misreads) ==> keep == Keep(old(fs.apps)[app])
    ensures clean ==> fs.faults - old(fs.faults) == fs.misreads - old(fs.misreads)
    ensures var dir, dir' := old(fs.apps)[app], fs.apps[app];
            && dir' == Gathered(dir, keep, if clean then map[] else dir'.versions)
            && (forall p :: p in keep && p in dir.versions ==>
                  p in dir'.versions && dir'.versions[p] == dir.versions[p])
            && (clean ==> dir'.versions.Keys == dir.versions.Keys * keep)
  {
    clean := true;
    var current := fs.ReadLink(fs.apps[app].current);
    var previous := fs.ReadLink(fs.apps[app].previous);
    var kept := Named(current) + Named(previous);
    keep := kept;
    var rest := fs.apps[app].versions.Keys;
    ghost var dir, misreads := fs.apps[app], fs.misreads;
    while rest != {}
      invariant rest <= dir.versions.Keys && fs.misreads == misreads
      invariant app in fs.apps && fs.apps == old(fs.apps)[app := fs.apps[app]]
      invariant fs.apps[app] == dir.(versions := fs.apps[app].versions)
      invariant fs.apps[app].versions.Keys <= dir.versions.Keys && rest <= fs.apps[app].versions.Keys
      invariant forall p :: p in keep && p in dir.versions ==>
                  p in fs.apps[app].versions && fs.apps[app].versions[p] == dir.versions[p]
      invariant clean ==> forall p :: p in fs.apps[app].versions ==> p in rest || p in keep
      invariant old(fs.faults) <= fs.faults && (!clean ==> old(fs.faults) < fs.faults)
      invariant clean ==> fs.faults - old(fs.faults) == fs.misreads - old(fs.misreads)
      decreases rest
    {
      var p :| p in rest;
      if p !in kept {
        var ok := fs.RemoveVersion(app, p);
        if !ok {
          clean := false;
        }
      }
      rest := rest - {p};
    }
  }

  /** In an app's directory that no crash has hit: the links name existing, distinct versions. */
  ghost predicate Healthy(dir: AppDir) {
    && (dir.current.Some? ==> dir.current.value in dir.versions)
    && (dir.previous.Some? ==> dir.current.Some? && dir.previous.value in dir.versions && dir.previous != dir.current)
  }

  /** Every checkout, fresh or reused, keeps it that way, and so does collecting garbage. */
  lemma {:induction false} CheckoutKeepsHealthy(dir: AppDir, p: Prefix, t: Tree, mode: CheckoutMode)
    requires Healthy(dir)
    ensures Healthy(CheckedOut(dir, p, t, mode)) && CheckedOut(dir, p, t, mode).current == Some(p)
    ensures var e := CheckedOut(dir, p, t, mode);
            Healthy(Gathered(e, Keep(e), map[])) && Keep(e) <= e.versions.Keys
  {
  }

  function AfterOps(dir: AppDir, ops: seq<AppOp>): AppDir
    decreases |ops|
  {
    if ops == [] then dir else AfterOps(AfterOp(dir, ops[0]), ops[1..])
  }

  /**
    In crash-free runs, whatever removals fail, `current` and `previous` stay
    distinct and name existing directories, and a collection that can remove
    everything leaves exactly those.
   */
  lemma {:induction false} CrashFreeRuns(dir: AppDir, ops: seq<AppOp>)
    requires Healthy(dir)
    ensures Healthy(AfterOps(dir, ops))
    ensures AfterOp(AfterOps(dir, ops), Collect(map[])).versions.Keys == Keep(AfterOps(dir, ops))
    decreases |ops|
  {
    if ops != [] {
      if ops[0].Install? {
        CheckoutKeepsHealthy(dir, ops[0].p, ops[0].t, ops[0].mode);
      }
      CrashFreeRuns(AfterOp(dir, ops[0]), ops[1..]);
    }
  }

  /** What an app was last installed with stays behind `current`, through any number of collections. */
  lemma {:induction false} InstalledStays(dir: AppDir, p: Prefix, t: Tree, ops: seq<AppOp>)
    requires dir.current == Some(p) && p in dir.versions && dir.versions[p] == t
    requires forall i :: 0 <= i < |ops| ==> ops[i].Collect?
    ensures var e := AfterOps(dir, ops);
            e.current == Some(p) && e.previous == dir.previous && p in e.versions && e.versions[p] == t
    decreases |ops|
  {
    if ops != [] {
      InstalledStays(AfterOp(dir, ops[0]), p, t, ops[1..]);
    }
  }
}
