/**
  What a deploy or a rollback does to a host: its apps, its manifest links and
  its managed directories, when it completes and when it stops part-way.
 */
module HostState {
  import opened Wrappers
  import opened Paths
  import opened Trees
  import opened Plan
  import opened Desired
  import opened Filesystem
  import opened ManagedLinks
  import opened ManifestLinks
  import opened Checkout

  /** The managed directories. */
  datatype Roots = Roots(networkd: Path, quadlets: Path, sysusers: Path, units: Path) {
    function Of(s: Name): Path
      requires s in SUBDIRS
    {
      if s == NETWORKD then networkd else if s == QUADLETS then quadlets else if s == SYSUSERS then sysusers else units
    }

    /** Absolute, and none inside another. */
    ghost predicate Valid() {
      && (forall s :: s in SUBDIRS ==> Of(s) != [] && Of(s)[0] == ROOT)
      && (forall s, t :: s in SUBDIRS && t in SUBDIRS && s != t ==> !(Of(s) <= Of(t)))
    }
  }

  /** `p` is not strictly inside a managed directory. */
  ghost predicate Outside(roots: Roots, p: Path) {
    forall s :: s in SUBDIRS ==> !(roots.Of(s) < p)
  }

  /** `p` is a managed directory or leads to one. */
  ghost predicate Leading(roots: Roots, p: Path) {
    exists s :: s in SUBDIRS && p <= roots.Of(s)
  }

  /** Outside the managed directories only directories that lead to them are added. */
  ghost predicate ManagedAreaOnly(before: Fs, after: Fs, roots: Roots) {
    && WellFormed(after)
    && (forall p :: Outside(roots, p) && p in before ==> p in after && after[p] == before[p])
    && (forall p :: Outside(roots, p) && p in after && p !in before ==> after[p].Directory? && Leading(roots, p))
  }

  lemma ManagedAreaTransitive(a: Fs, b: Fs, c: Fs, roots: Roots)
    requires ManagedAreaOnly(a, b, roots) && ManagedAreaOnly(b, c, roots)
    ensures ManagedAreaOnly(a, c, roots)
  {
    hide WellFormed, Outside, Leading;
  }

  /** Reconciling one managed directory stays in the managed area, and leaves the links of the others alone. */
  lemma FramedInArea(before: Fs, after: Fs, appsDir: Path, roots: Roots, s: Name, desired: map<Path, Path>)
    requires roots.Valid() && s in SUBDIRS && Framed(before, after, appsDir, roots.Of(s), desired)
    ensures ManagedAreaOnly(before, after, roots)
  {
    hide Framed, WellFormed, Leading, Roots.Valid;
    var root := roots.Of(s);
    forall p | Outside(roots, p)
      ensures p in before ==> p in after && after[p] == before[p]
      ensures p in after && p !in before ==> after[p].Directory? && Leading(roots, p)
    {
      assert !(root < p);
      FramedAt(before, after, appsDir, root, desired, p);
      if p in after && p !in before {
        LeadsHere(roots, s, p);
      }
    }
    FramedTree(before, after, appsDir, root, desired);
  }

  lemma LeadsHere(roots: Roots, s: Name, p: Path)
    requires s in SUBDIRS && p <= roots.Of(s)
    ensures Leading(roots, p)
  {
  }

  lemma FramedTree(before: Fs, after: Fs, appsDir: Path, root: Path, desired: map<Path, Path>)
    requires Framed(before, after, appsDir, root, desired)
    ensures WellFormed(after)
  {
  }

  lemma OtherRootsKeepLinks(before: Fs, after: Fs, appsDir: Path, roots: Roots, s: Name, t: Name,
                            desired: map<Path, Path>)
    requires roots.Valid() && s in SUBDIRS && t in SUBDIRS && s != t
    requires Framed(before, after, appsDir, roots.Of(s), desired)
    ensures Managed(after, appsDir, roots.Of(t)) == Managed(before, appsDir, roots.Of(t))
  {
    var root, other := roots.Of(s), roots.Of(t);
    assert !(root <= other) && !(other <= root);
    hide Managed, WellFormed, Framed, Roots.Valid, IsManaged;
    forall n ensures SameManagedNode(before, after, appsDir, other + n) {
      NotBelow(root, other, n);
      FramedAt(before, after, appsDir, root, desired, other + n);
    }
    ManagedSame(before, after, appsDir, other);
  }

  ghost predicate SameManagedNode(before: Fs, after: Fs, appsDir: Path, p: Path) {
    && (IsManaged(after, appsDir, p) <==> IsManaged(before, appsDir, p))
    && (IsManaged(after, appsDir, p) ==> after[p] == before[p])
  }

  lemma ManagedSame(before: Fs, after: Fs, appsDir: Path, root: Path)
    requires forall n :: SameManagedNode(before, after, appsDir, root + n)
    ensures Managed(after, appsDir, root) == Managed(before, appsDir, root)
  {
  }

  lemma FramedAt(before: Fs, after: Fs, appsDir: Path, root: Path, desired: map<Path, Path>, p: Path)
    requires Framed(before, after, appsDir, root, desired) && !(root < p)
    ensures p in before ==> p in after && after[p] == before[p]
    ensures p in after && p !in before ==> after[p].Directory? && p <= root
    ensures IsManaged(after, appsDir, p) <==> IsManaged(before, appsDir, p)
    ensures IsManaged(after, appsDir, p) ==> after[p] == before[p]
  {
    assert PathFramed(before, after, appsDir, root, desired, p);
    assert p in after && p !in before ==> Appears(after, root, desired, p);
    if p in before {
      assert Kept(before, appsDir, root, desired, p);
    } else if p in after {
      assert LeadsTo(root, desired, p);
      var n :| n in desired && p < root + n;
      PrefixesCompare(p, root, root + n);
    }
    hide WellFormed, PointsThroughCurrent;
  }

  lemma NotBelow(root: Path, other: Path, n: Path)
    requires !(root <= other) && !(other <= root)
    ensures !(root < other + n)
  {
  }

  // ----- Desired state -----

  datatype DesiredState = DesiredState(networkd: map<Path, Path>, quadlets: map<Path, Path>,
                                       sysusers: map<Path, Path>, units: map<Path, Path>) {
    function Of(s: Name): map<Path, Path>
      requires s in SUBDIRS
    {
      if s == NETWORKD then networkd else if s == QUADLETS then quadlets else if s == SYSUSERS then sysusers else units
    }
  }

  ghost predicate IsDesiredState(d: DesiredState, appsDir: Path, apps: Apps) {
    forall s :: s in SUBDIRS ==> IsDesiredSubdir(d.Of(s), appsDir, apps, s)
  }

  /** Desired links go through `current`, so reconciling recognises them again. */
  lemma DesiredGoesThroughCurrent(m: map<Path, Path>, appsDir: Path, apps: Apps, s: Name)
    requires IsDesiredSubdir(m, appsDir, apps, s)
    ensures DesiredValid(appsDir, m)
  {
    hide Files;
    forall p | p in m ensures p != [] && PointsThroughCurrent(appsDir, m[p]) {
      var a :| a in apps && p in Files(apps[a], s) && m[p] == FileTarget(appsDir, a, s, p);
      TargetGoesThroughCurrent(appsDir, a, s, p);
      FileNotRoot(apps[a], s, p);
    }
  }

  lemma TargetGoesThroughCurrent(appsDir: Path, a: Name, s: Name, p: Path)
    ensures PointsThroughCurrent(appsDir, FileTarget(appsDir, a, s, p))
  {
  }

  lemma FileNotRoot(t: Tree, s: Name, p: Path)
    requires p in Files(t, s)
    ensures p != []
  {
  }

  /** A valid host's desired state is unique. */
  lemma DesiredUnique(d: DesiredState, e: DesiredState, appsDir: Path, apps: Apps)
    requires ValidHost(apps) && IsDesiredState(d, appsDir, apps) && IsDesiredState(e, appsDir, apps)
    ensures d == e
  {
    hide ValidHost, Files;
    forall s | s in SUBDIRS ensures d.Of(s) == e.Of(s) {
      DesiredSubdirIsUnion(d.Of(s), appsDir, apps, s);
      DesiredSubdirIsUnion(e.Of(s), appsDir, apps, s);
      assert d.Of(s).Keys == e.Of(s).Keys;
      forall p | p in d.Of(s) ensures d.Of(s)[p] == e.Of(s)[p] {
        var a :| a in apps && p in Files(apps[a], s);
      }
    }
    assert d.networkd == d.Of(NETWORKD) && d.quadlets == d.Of(QUADLETS) && d.sysusers == d.Of(SYSUSERS)
      && d.units == d.Of(UNITS);
    assert e.networkd == e.Of(NETWORKD) && e.quadlets == e.Of(QUADLETS) && e.sysusers == e.Of(SYSUSERS)
      && e.units == e.Of(UNITS);
  }

  // ----- When a managed directory can be reconciled at all -----

  /** No app's file sits where another app's file needs a directory. */
  ghost predicate NoFileBelowAnother(apps: Apps, s: Name) {
    forall a, b, p, q :: a in apps && b in apps && a != b && p in Files(apps[a], s) && q in Files(apps[b], s) ==>
      !(p < q)
  }

  /** Reconciling can succeed only if desired names are prefix-free, and that is a condition between apps alone. */
  lemma {:induction false} PrefixFreeIff(m: map<Path, Path>, appsDir: Path, apps: Apps, s: Name)
    requires IsDesiredSubdir(m, appsDir, apps, s)
    ensures PrefixFree(m) <==> NoFileBelowAnother(apps, s)
  {
    hide Files;
    forall a, b, p, q | a in apps && b in apps && p in Files(apps[a], s) && q in Files(apps[b], s) && p < q
      ensures a != b && !PrefixFree(m)
    {
      assert p in m && q in m;
      if a == b {
        FilesPrefixFree(apps[a], s, p, q);
      }
    }
    forall p, q | p in m && q in m && p <= q && p != q ensures !NoFileBelowAnother(apps, s) {
      var a :| a in apps && p in Files(apps[a], s);
      var b :| b in apps && q in Files(apps[b], s);
      assert p < q;
    }
  }

  lemma FilesPrefixFree(t: Tree, s: Name, p: Path, q: Path)
    requires p in Files(t, s) && q in Files(t, s) && p <= q
    ensures p == q
  {
    BlobPathsAreBlobs(t.entries[s], p);
    BlobPathsAreBlobs(t.entries[s], q);
    BlobPathsPrefixFree(t.entries[s], p, q);
  }

  const SOME_FILE := Blob(Content("", None))

  const FILE_TREE := Dir(map["x" := SOME_FILE])

  const DIRECTORY_TREE := Dir(map["x" := Dir(map["y" := SOME_FILE])])

  /** One app has the file `x` for a managed directory, the other `x/y`. */
  const FILE_AND_DIRECTORY: Apps := map["a" := Dir(map[UNITS := FILE_TREE]), "b" := Dir(map[UNITS := DIRECTORY_TREE])]

  lemma TwoTrees()
    ensures BlobPaths(FILE_TREE) == {["x"]} && BlobPaths(DIRECTORY_TREE) == {["x", "y"]}
  {
    assert BlobPaths(SOME_FILE) == {[]};
    OneEntry("x", SOME_FILE);
    OneEntry("y", SOME_FILE);
    OneEntry("x", Dir(map["y" := SOME_FILE]));
    assert ["x"] + [] == ["x"] && ["y"] + [] == ["y"] && ["x"] + ["y"] == ["x", "y"];
  }

  lemma OneFileApp(t: Tree, files: set<Path>)
    requires t.Dir? && BlobPaths(t) == files
    ensures var app := Dir(map[UNITS := t]);
            && Files(app, UNITS) == files && (forall s :: s in SUBDIRS && s != UNITS ==> Files(app, s) == {})
            && Links(app) == map[] && Readable(app) && LinksAcceptable(app)
  {
  }

  lemma TwoApps()
    ensures var a, b := FILE_AND_DIRECTORY["a"], FILE_AND_DIRECTORY["b"];
            && Files(a, UNITS) == {["x"]} && Files(b, UNITS) == {["x", "y"]}
            && (forall s :: s in SUBDIRS && s != UNITS ==> Files(a, s) == Files(b, s) == {})
            && Links(a) == Links(b) == map[]
            && Readable(a) && Readable(b) && LinksAcceptable(a) && LinksAcceptable(b)
  {
    hide Files, Links, Readable, LinksAcceptable, BlobPaths;
    TwoTrees();
    OneFileApp(FILE_TREE, {["x"]});
    OneFileApp(DIRECTORY_TREE, {["x", "y"]});
  }

  /** Validation does not ask for it: it accepts a host whose units can never be reconciled. */
  lemma ValidHostMayNotReconcile(appsDir: Path, m: map<Path, Path>)
    ensures ValidHost(FILE_AND_DIRECTORY)
    ensures IsDesiredSubdir(m, appsDir, FILE_AND_DIRECTORY, UNITS) ==> !PrefixFree(m)
  {
    hide Files, Links, Readable, LinksAcceptable, IsDesiredSubdir, PrefixFree, FILE_TREE, DIRECTORY_TREE;
    var apps := FILE_AND_DIRECTORY;
    TwoApps();
    assert |["x"]| != |["x", "y"]| && ["x"] < ["x", "y"];
    assert NothingShared(apps["a"], apps["b"]) && NothingShared(apps["b"], apps["a"]);
    assert "a" in apps && "b" in apps && ["x"] in Files(apps["a"], UNITS) && ["x", "y"] in Files(apps["b"], UNITS);
    if IsDesiredSubdir(m, appsDir, apps, UNITS) {
      PrefixFreeIff(m, appsDir, apps, UNITS);
    }
  }

  lemma OneEntry(n: Name, t: Tree)
    ensures BlobPaths(Dir(map[n := t])) == set p | p in BlobPaths(t) :: [n] + p
  {
  }

  // ----- A host at a commit -----

  /** Every app is there, with the commit's tree behind `current`. */
  ghost predicate AppsAre(dirs: map<Name, AppDir>, apps: Apps) {
    && dirs.Keys == apps.Keys
    && forall a :: a in apps ==>
         && dirs[a].current.Some? && dirs[a].current.value in dirs[a].versions
         && dirs[a].versions[dirs[a].current.value] == apps[a]
  }

  ghost predicate LinksAre(fs: Fs, appsDir: Path, apps: Apps) {
    LinksMatch(fs, LinksOf(appsDir, apps))
  }

  ghost predicate ManagedAre(fs: Fs, appsDir: Path, roots: Roots, d: DesiredState) {
    forall s :: s in SUBDIRS ==> Managed(fs, appsDir, roots.Of(s)) == d.Of(s)
  }

  /** No manifest link lies inside a managed directory. */
  ghost predicate LinksOutside(roots: Roots, apps: Apps) {
    forall a, l, link :: Declares(apps, a, l, link) ==> Outside(roots, link)
  }

  // ----- Deploying the apps -----

  ghost predicate SameApp(x: map<Name, AppDir>, y: map<Name, AppDir>, a: Name) {
    (a in y <==> a in x) && (a in x ==> y[a] == x[a])
  }

  /** The apps after a checkout of all changed apps, at version `p`. */
  ghost predicate AppDone(x: map<Name, AppDir>, y: map<Name, AppDir>, diffs: map<Name, AppDiff>, p: Prefix,
                          mode: CheckoutMode, a: Name) {
    if a !in diffs then SameApp(x, y, a)
    else if diffs[a].Remove? then a !in y
    else a in y && y[a] == CheckedOut(DirOf(x, a), p, diffs[a].After(), mode)
  }

  ghost predicate AppsDone(x: map<Name, AppDir>, y: map<Name, AppDir>, diffs: map<Name, AppDiff>, p: Prefix,
                           mode: CheckoutMode) {
    forall a :: AppDone(x, y, diffs, p, mode, a)
  }

  /** After any part of it: apps that do not change are as they were. */
  ghost predicate AppsPartly(x: map<Name, AppDir>, y: map<Name, AppDir>, diffs: map<Name, AppDiff>) {
    forall a :: a !in diffs ==> SameApp(x, y, a)
  }

  /** A fresh checkout of all changed apps takes the apps from the old commit to the new one. */
  lemma FreshCheckoutArrives(x: map<Name, AppDir>, y: map<Name, AppDir>, oldApps: Apps, newApps: Apps,
                             diffs: map<Name, AppDiff>, p: Prefix)
    requires IsAppDiffs(oldApps, newApps, diffs) && AppsDone(x, y, diffs, p, Fresh)
    requires exists base :: AppsAre(base, oldApps) && AppsPartly(base, x, diffs)
    ensures AppsAre(y, newApps)
  {
    var base :| AppsAre(base, oldApps) && AppsPartly(base, x, diffs);
    forall a
      ensures a in y <==> a in newApps
      ensures a in newApps ==>
                && y[a].current.Some? && y[a].current.value in y[a].versions
                && y[a].versions[y[a].current.value] == newApps[a]
    {
      assert AppDone(x, y, diffs, p, Fresh, a);
      assert a in diffs <==> Differs(oldApps, newApps, a);
      if a in diffs {
        assert IsAppDiff(oldApps, newApps, a, diffs[a]);
      } else {
        assert SameApp(base, x, a);
      }
    }
  }

  /** Version directories named after `p` hold that commit's trees. */
  ghost predicate VersionsComplete(dirs: map<Name, AppDir>, apps: Apps, p: Prefix) {
    forall a :: a in dirs && a in apps && p in dirs[a].versions ==> dirs[a].versions[p] == apps[a]
  }

  /** A rollback reuses version directories: after a complete checkout elsewhere it restores every app's content. */
  lemma ReuseCheckoutRestores(x: map<Name, AppDir>, y: map<Name, AppDir>, z: map<Name, AppDir>, oldApps: Apps,
                              newApps: Apps, diffs: map<Name, AppDiff>, back: map<Name, AppDiff>, p: Prefix, q: Prefix)
    requires IsAppDiffs(oldApps, newApps, diffs) && IsAppDiffs(newApps, oldApps, back) && p != q
    requires AppsAre(x, oldApps) && VersionsComplete(x, oldApps, q)
    requires AppsDone(x, y, diffs, p, Fresh) && AppsDone(y, z, back, q, Reuse)
    ensures AppsAre(z, oldApps)
  {
    forall a
      ensures a in z <==> a in oldApps
      ensures a in oldApps ==>
                && z[a].current.Some? && z[a].current.value in z[a].versions
                && z[a].versions[z[a].current.value] == oldApps[a]
    {
      assert AppDone(x, y, diffs, p, Fresh, a) && AppDone(y, z, back, q, Reuse, a);
      assert Differs(oldApps, newApps, a) <==> Differs(newApps, oldApps, a);
      assert a in diffs <==> a in back;
      if a in diffs {
        assert IsAppDiff(oldApps, newApps, a, diffs[a]) && IsAppDiff(newApps, oldApps, a, back[a]);
      }
    }
  }

  // ----- The tree outside the apps directory -----

  /** After any part of a deploy with link changes `c`: outside the managed directories only those links differ. */
  ghost predicate TreePartly(base: Fs, x: Fs, roots: Roots, c: SymlinkChanges<Path>) {
    && WellFormed(x)
    && (forall p :: Outside(roots, p) && !Touched(c, p) && p in base ==> p in x && x[p] == base[p])
    && (forall p :: Outside(roots, p) && !Touched(c, p) && p in x && p !in base ==>
          x[p].Directory? && Leading(roots, p))
  }

  /** The links in the middle of a deploy, and then whatever was done in the managed directories. */
  ghost predicate TreeStopped(base: Fs, x: Fs, roots: Roots, c: SymlinkChanges<Path>) {
    exists t :: LinksPartly(base, t, c) && ManagedAreaOnly(t, x, roots)
  }

  /** The changes remove or create the link at `p`. */
  ghost predicate LinkedAnew(c: SymlinkChanges<Path>, p: Path) {
    p in c.remove || exists s :: (p, s) in c.create
  }

  /** Not for Deptool to touch: a directory, or a foreign link where none is removed or created. */
  ghost predicate Protected(appsDir: Path, c: SymlinkChanges<Path>, p: Path, node: FsNode) {
    node.Directory? || (Foreign(appsDir, node) && !LinkedAnew(c, p))
  }

  /** Outside the managed directories, what is protected stays. */
  ghost predicate ForeignKept(x: Fs, y: Fs, appsDir: Path, roots: Roots, c: SymlinkChanges<Path>) {
    forall p :: Outside(roots, p) && p in x && Protected(appsDir, c, p, x[p]) ==> p in y && y[p] == x[p]
  }

  lemma ForeignKeptRefl(x: Fs, appsDir: Path, roots: Roots, c: SymlinkChanges<Path>)
    ensures ForeignKept(x, x, appsDir, roots, c)
  {
  }

  lemma ForeignKeptTransitive(x: Fs, m: Fs, y: Fs, appsDir: Path, roots: Roots, c: SymlinkChanges<Path>,
                              d: SymlinkChanges<Path>)
    requires ForeignKept(x, m, appsDir, roots, c) && ForeignKept(m, y, appsDir, roots, d)
    requires forall p :: LinkedAnew(d, p) ==> LinkedAnew(c, p)
    ensures ForeignKept(x, y, appsDir, roots, c)
  {
    hide Outside, Foreign, LinkedAnew;
  }

  lemma SameAnew(c: SymlinkChanges<Path>, d: SymlinkChanges<Path>)
    requires SameChanges(c, d)
    ensures forall p :: LinkedAnew(d, p) ==> LinkedAnew(c, p)
  {
    SameMembers(c, d);
    hide SameChanges, Touched;
  }

  /** Link changes take nothing protected away, and the managed directories are elsewhere. */
  lemma SparedKeepsForeign(base: Fs, t: Fs, x: Fs, apps: map<Name, AppDir>, appsDir: Path, roots: Roots,
                           c: SymlinkChanges<Path>)
    requires Spared(base, t, apps, appsDir, c) && ManagedAreaOnly(t, x, roots)
    ensures ForeignKept(base, x, appsDir, roots, c)
  {
    hide WellFormed, Outside, Leading, Spared;
    forall p | Outside(roots, p) && p in base && Protected(appsDir, c, p, base[p]) ensures p in x && x[p] == base[p] {
      if !Unchanged(base, t, p) {
        SparedAt(base, t, apps, appsDir, c, p);
      }
    }
  }

  lemma SparedAt(base: Fs, t: Fs, apps: map<Name, AppDir>, appsDir: Path, c: SymlinkChanges<Path>, p: Path)
    requires Spared(base, t, apps, appsDir, c) && p in base && !Unchanged(base, t, p)
    ensures MayReplace(base, apps, appsDir, c, p)
  {
  }

  /** All managed directories are real directories, or not there. */
  ghost predicate RootsEnterable(fs: Fs, roots: Roots) {
    forall s :: s in SUBDIRS ==> Enterable(fs, roots.Of(s))
  }

  /** Whatever is done in the managed area leaves it so. */
  lemma AreaStaysEnterable(before: Fs, after: Fs, roots: Roots, s: Name)
    requires roots.Valid() && s in SUBDIRS && ManagedAreaOnly(before, after, roots) && Enterable(before, roots.Of(s))
    ensures Enterable(after, roots.Of(s))
  {
    var root := roots.Of(s);
    hide WellFormed, Leading, Prefixes;
    forall q | q in Prefixes(root) && q in after ensures after[q].Directory? {
      InPrefixes(root, q);
      AboveIsOutside(roots, s, q);
    }
  }

  lemma AboveIsOutside(roots: Roots, s: Name, q: Path)
    requires roots.Valid() && s in SUBDIRS && q <= roots.Of(s)
    ensures Outside(roots, q)
  {
    forall t | t in SUBDIRS ensures roots.Of(t) < q ==> roots.Of(t) < roots.Of(s) {
    }
  }

  /** All link changes done, and then every managed directory as desired. */
  ghost predicate TreeDone(x: Fs, y: Fs, appsDir: Path, roots: Roots, c: SymlinkChanges<Path>, d: DesiredState) {
    ManagedAreaOnly(LinksRun(x, c), y, roots) && ManagedAre(y, appsDir, roots, d) && RootsEnterable(y, roots)
  }

  lemma StoppedIsPartly(base: Fs, x: Fs, roots: Roots, c: SymlinkChanges<Path>)
    requires TreeStopped(base, x, roots, c)
    ensures TreePartly(base, x, roots, c)
  {
  }

  /** Attempts whose link changes touch the same paths add up. */
  lemma {:induction false} TreePartlyTransitive(base: Fs, x: Fs, y: Fs, roots: Roots, c: SymlinkChanges<Path>,
                                                d: SymlinkChanges<Path>)
    requires forall p :: Touched(d, p) ==> Touched(c, p)
    requires TreePartly(base, x, roots, c) && TreePartly(x, y, roots, d)
    ensures TreePartly(base, y, roots, c)
  {
  }

  /** What running the changes makes of a touched path does not depend on what was there. */
  lemma LinksRunTouched(x: Fs, t: Fs, c: SymlinkChanges<Path>, d: SymlinkChanges<Path>, p: Path)
    requires Functional(c.change) && Functional(c.create) && Functional(d.change) && Functional(d.create)
    requires SameChanges(c, d) && Touched(c, p)
    ensures p in LinksRun(x, c) <==> p in LinksRun(t, d)
    ensures p in LinksRun(x, c) ==> LinksRun(x, c)[p] == LinksRun(t, d)[p]
  {
    SameMembers(c, d);
    LinksRunAt(x, c, p);
    LinksRunAt(t, d, p);
    hide LinksRun, Functional, SameChanges;
  }

  lemma LinksRunUntouched(x: Fs, c: SymlinkChanges<Path>, p: Path)
    requires Functional(c.change) && Functional(c.create) && !Touched(c, p)
    ensures (p in LinksRun(x, c) <==> p in x) && (p in x ==> LinksRun(x, c)[p] == x[p])
  {
    LinksRunAt(x, c, p);
    hide LinksRun, Functional;
  }

  ghost predicate SameAt(x: Fs, y: Fs, p: Path) {
    (p in x <==> p in y) && (p in x ==> x[p] == y[p])
  }

  /** The same, or one of them has a directory there, on the way to a managed one, that the other lacks. */
  ghost predicate SameAround(x: Fs, y: Fs, roots: Roots, p: Path) {
    || SameAt(x, y, p)
    || (Leading(roots, p) && (p in x ==> x[p].Directory?) && (p in y ==> y[p].Directory?))
  }

  /**
    A retry that completes leaves the same manifest links, and the same tree
    around them, as a single attempt would have.
   */
  lemma {:induction false} RetriedTree(base: Fs, x: Fs, once: Fs, retried: Fs, appsDir: Path, roots: Roots,
                                       c: SymlinkChanges<Path>, d: SymlinkChanges<Path>, e: DesiredState, p: Path)
    requires SameChanges(c, d)
    requires Functional(c.change) && Functional(c.create) && Functional(d.change) && Functional(d.create)
    requires TreePartly(base, x, roots, c)
    requires TreeDone(base, once, appsDir, roots, c, e) && TreeDone(x, retried, appsDir, roots, d, e)
    requires Outside(roots, p)
    ensures SameAround(once, retried, roots, p)
  {
    SameMembers(c, d);
    hide LinksRun, Functional, SameChanges, WellFormed, Outside, Leading;
    if Touched(c, p) {
      LinksRunTouched(base, x, c, d, p);
    } else {
      LinksRunUntouched(base, c, p);
      LinksRunUntouched(x, d, p);
    }
  }

  /** One path outside the managed directories: kept, or added as a directory that leads to one. */
  ghost predicate AreaAt(before: Fs, after: Fs, roots: Roots, p: Path) {
    && (p in before ==> p in after && after[p] == before[p])
    && (p in after && p !in before ==> after[p].Directory? && Leading(roots, p))
  }

  lemma AreaOfPaths(before: Fs, after: Fs, roots: Roots)
    ensures ManagedAreaOnly(before, after, roots) <==>
              WellFormed(after) && forall p :: Outside(roots, p) ==> AreaAt(before, after, roots, p)
  {
  }

  /** One path through a stopped deploy `base` to `t` to `x` and its rollback to `y`. */
  lemma RolledBackAt(roots: Roots, c: SymlinkChanges<Path>, d: SymlinkChanges<Path>, base: Fs, t: Fs, x: Fs, y: Fs,
                     p: Path)
    requires Functional(d.change) && Functional(d.create) && LinksRun(t, d) == base
    requires AreaAt(t, x, roots, p) && AreaAt(LinksRun(x, d), y, roots, p)
    ensures AreaAt(base, y, roots, p)
  {
    hide LinksRun, Functional, Leading, Touched;
    if Touched(d, p) {
      SameChangesRefl(d);
      LinksRunTouched(x, t, d, d, p);
    } else {
      LinksRunUntouched(x, d, p);
      LinksRunUntouched(t, d, p);
    }
  }

  lemma SameChangesRefl(c: SymlinkChanges<Path>)
    ensures SameChanges(c, c)
  {
  }

  /** A rollback that completes leaves everything outside the managed directories as it was before the deploy. */
  lemma {:induction false} RolledBackTree(oldApps: Apps, newApps: Apps, diffs: map<Name, AppDiff>,
                                          back: map<Name, AppDiff>, appsDir: Path,
                                          roots: Roots, c: SymlinkChanges<Path>, d: SymlinkChanges<Path>, base: Fs,
                                          x: Fs, y: Fs)
    requires IsAppDiffs(oldApps, newApps, diffs) && AggregatesLinks(c, appsDir, diffs) && c.IsRollbackSafe()
    requires IsAppDiffs(newApps, oldApps, back) && AggregatesLinks(d, appsDir, back)
    requires AllAgree(appsDir, oldApps) && LinksAre(base, appsDir, oldApps)
    requires TreeStopped(base, x, roots, c) && ManagedAreaOnly(LinksRun(x, d), y, roots)
    ensures ManagedAreaOnly(base, y, roots)
  {
    hide LinksRun, Functional, IsAppDiffs, AggregatesLinks, AllAgree, LinksPartly, Leading, WellFormed,
      ManagedAreaOnly, AreaAt, Outside, LinksMatch, SymlinkChanges.IsRollbackSafe;
    var t :| LinksPartly(base, t, c) && ManagedAreaOnly(t, x, roots);
    LinksOfDesired(appsDir, oldApps);
    AgreeingFunctional(newApps, oldApps, back, appsDir, d);
    LinksRollBack(oldApps, newApps, diffs, back, appsDir, c, d, base, t, LinksOf(appsDir, oldApps));
    AreaOfPaths(t, x, roots);
    AreaOfPaths(LinksRun(x, d), y, roots);
    AreaOfPaths(base, y, roots);
    forall p | Outside(roots, p) ensures AreaAt(base, y, roots, p) {
      RolledBackAt(roots, c, d, base, t, x, y, p);
    }
  }

  /** What lies outside the managed directories includes the manifest links. */
  lemma LinksStay(base: Fs, y: Fs, appsDir: Path, roots: Roots, apps: Apps)
    requires ManagedAreaOnly(base, y, roots) && LinksAre(base, appsDir, apps) && LinksOutside(roots, apps)
    ensures LinksAre(y, appsDir, apps)
  {
    LinksOfDesired(appsDir, apps);
    hide WellFormed, Outside, Leading, LinksOf, Links, ToPath;
    forall l | l in LinksOf(appsDir, apps) ensures l in y && y[l] == Link(LinksOf(appsDir, apps)[l]) {
      var a, k :| Declares(apps, a, k, l);
      assert Outside(roots, l);
    }
  }

  /** The link is gone; a directory may be there on the way to a managed one. */
  ghost predicate LinkDropped(y: Fs, roots: Roots, l: Path) {
    l in y ==> y[l].Directory? && Leading(roots, l)
  }

  /** A deploy that completes from the old commit's links has the new commit's, and dropped the others. */
  lemma {:induction false} DeployedLinks(oldApps: Apps, newApps: Apps, diffs: map<Name, AppDiff>, appsDir: Path,
                                         roots: Roots, c: SymlinkChanges<Path>, e: DesiredState, x: Fs, y: Fs)
    requires IsAppDiffs(oldApps, newApps, diffs) && AggregatesLinks(c, appsDir, diffs)
    requires AllAgree(appsDir, newApps) && NoneIsStranded(oldApps, newApps) && LinksOutside(roots, newApps)
    requires LinksAre(x, appsDir, oldApps) && TreeDone(x, y, appsDir, roots, c, e)
    ensures LinksAre(y, appsDir, newApps)
    ensures forall l :: l in LinksOf(appsDir, oldApps) && l !in LinksOf(appsDir, newApps) && Outside(roots, l) ==>
              LinkDropped(y, roots, l)
  {
    LinksOfDesired(appsDir, oldApps);
    LinksOfDesired(appsDir, newApps);
    hide LinksRun, IsAppDiffs, AggregatesLinks, AllAgree, NoneIsStranded, LinksOf, WellFormed, IsDesiredLinks, Outside;
    hide Leading, ManagedAre;
    hide LinksOutside;
    LinksConverge(oldApps, newApps, diffs, appsDir, c, x, LinksOf(appsDir, oldApps), LinksOf(appsDir, newApps));
    LinksStay(LinksRun(x, c), y, appsDir, roots, newApps);
    forall l | l in LinksOf(appsDir, oldApps) && l !in LinksOf(appsDir, newApps) && Outside(roots, l)
      ensures LinkDropped(y, roots, l)
    {
      assert LinkArrives(x, LinksRun(x, c), LinksOf(appsDir, oldApps), LinksOf(appsDir, newApps), l);
    }
  }
}
