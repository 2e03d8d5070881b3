/**
  What can keep a rollback from succeeding: nothing that the failed deploy
  left. On a host where the old commit's links could be made before the deploy,
  they still can after it stopped anywhere.
 */
module Obstacles {
  import opened Wrappers
  import opened Paths
  import opened Trees
  import opened Plan
  import opened Desired
  import opened Filesystem
  import opened ManagedLinks
  import opened ManifestLinks
  import opened HostState
  import opened HostApply
  import opened Recovery

  /**
    Nothing keeps an activation for `apps` from succeeding, whatever files
    could be adopted: its subdirectories can be read, the link changes get
    through, and then every managed directory gets its links.
   */
  ghost predicate Unhindered(fs: Fs, place: Place, links: SymlinkChanges<Path>, apps: Apps) {
    && (forall s, a :: s in SUBDIRS && a in apps ==> SubdirEntries(apps[a], s).Ok?)
    && forall d :: IsDesiredState(d, place.appsDir, apps) ==> Activates(fs, map[], place.appsDir, place.roots, links, d)
  }

  lemma UnhinderedReadable(fs: Fs, place: Place, links: SymlinkChanges<Path>, apps: Apps)
    ensures Unhindered(fs, place, links, apps) ==> forall s, a :: s in SUBDIRS && a in apps ==>
              SubdirEntries(apps[a], s).Ok?
  {
  }

  lemma UnhinderedActivates(fs: Fs, dirs: map<Name, AppDir>, place: Place, links: SymlinkChanges<Path>, apps: Apps,
                            d: DesiredState)
    requires Unhindered(fs, place, links, apps) && IsDesiredState(d, place.appsDir, apps)
    ensures Activates(fs, dirs, place.appsDir, place.roots, links, d)
  {
    hide IsDesiredState, ManagedRuns, RemovesRun, ChangesRun, LinksRun, PutLinks;
    assert Activates(fs, map[], place.appsDir, place.roots, links, d);
  }

  // ----- The managed directories -----

  /** What a completed deploy leaves is in its own way nowhere. */
  lemma {:induction false} PresentRuns(fs: Fs, appsDir: Path, roots: Roots, d: DesiredState)
    requires WellFormed(fs) && roots.Valid() && ManagedAre(fs, appsDir, roots, d) && RootsEnterable(fs, roots)
    ensures ManagedRuns(fs, appsDir, roots, d)
  {
    hide WellFormed, Roots.Valid, Enterable, PointsThroughCurrent, Managed;
    forall s | s in SUBDIRS ensures SubdirRuns(fs, appsDir, roots, d, s) {
      var root := roots.Of(s);
      RootOf(roots, s);
      forall n | n in d.Of(s) ensures root + n in fs && fs[root + n].Link? {
        ManagedAt(fs, appsDir, root, n);
      }
      LinksPrefixFree(fs, root, d.Of(s));
      forall n, q | n in d.Of(s) && q in fs && root < q && q < root + n ensures fs[q].Directory? {
        OnlyDirsHaveEntries(fs, q, root + n);
      }
    }
  }

  /** Whether links can be made does not depend on where they point. */
  lemma SameNamesRun(fs: Fs, appsDir: Path, apps: Apps, roots: Roots, d: DesiredState, e: DesiredState)
    requires ManagedRuns(fs, appsDir, roots, d) && IsDesiredState(d, appsDir, apps) && IsDesiredState(e, appsDir, apps)
    ensures ManagedRuns(fs, appsDir, roots, e)
  {
    hide Unobstructed, PrefixFree, Files;
    forall s | s in SUBDIRS ensures SubdirRuns(fs, appsDir, roots, e, s) {
      assert SubdirRuns(fs, appsDir, roots, d, s);
      SameNames(appsDir, apps, s, d.Of(s), e.Of(s));
      NamesOnly(fs, appsDir, roots.Of(s), d.Of(s), e.Of(s));
    }
  }

  lemma SameNames(appsDir: Path, apps: Apps, s: Name, m: map<Path, Path>, n: map<Path, Path>)
    requires IsDesiredSubdir(m, appsDir, apps, s) && IsDesiredSubdir(n, appsDir, apps, s)
    ensures m.Keys == n.Keys
  {
    hide Files, FileTarget;
    assert forall p :: p in m <==> p in n;
  }

  lemma NamesOnly(fs: Fs, appsDir: Path, root: Path, m: map<Path, Path>, n: map<Path, Path>)
    requires m.Keys == n.Keys && PrefixFree(m) && Unobstructed(fs, appsDir, root, m)
    ensures PrefixFree(n) && Unobstructed(fs, appsDir, root, n)
  {
    hide Enterable, PointsThroughCurrent;
    assert forall p :: p in m <==> p in n;
  }

  /** A rollback-safe change desires no name that was not desired before. */
  lemma SafeNarrows(appsDir: Path, oldApps: Apps, newApps: Apps, d: DesiredState, e: DesiredState)
    requires SafeHostChange(oldApps, newApps) && IsDesiredState(d, appsDir, newApps)
    requires IsDesiredState(e, appsDir, oldApps)
    ensures forall s :: s in SUBDIRS ==> d.Of(s).Keys <= e.Of(s).Keys
  {
    hide Files, Links, Enabled;
    forall s, n | s in SUBDIRS && n in d.Of(s) ensures n in e.Of(s) {
      var a :| a in newApps && n in Files(newApps[a], s);
      SafeFile(oldApps, newApps, a, s, n);
    }
  }

  lemma SafeFile(oldApps: Apps, newApps: Apps, a: Name, s: Name, n: Path)
    requires SafeHostChange(oldApps, newApps) && s in SUBDIRS && a in newApps && n in Files(newApps[a], s)
    ensures a in oldApps && n in Files(oldApps[a], s)
  {
    if Differs(oldApps, newApps, a) {
      assert SafeChange(TreeOf(oldApps, a), TreeOf(newApps, a));
      assert Files(TreeOf(newApps, a), s) <= Files(TreeOf(oldApps, a), s);
    }
  }

  /** Away from the managed directories and from what leads to them. */
  ghost predicate Aside(roots: Roots, p: Path) {
    Outside(roots, p) && !Leading(roots, p)
  }

  lemma AsideRuns(before: Fs, after: Fs, appsDir: Path, roots: Roots, e: DesiredState)
    requires forall p :: !Aside(roots, p) ==> SameAt(before, after, p)
    requires ManagedRuns(before, appsDir, roots, e) && DesiredOk(appsDir, e)
    ensures ManagedRuns(after, appsDir, roots, e)
  {
    hide PrefixFree, PointsThroughCurrent, Prefixes, IsManaged, Unobstructed;
    forall s | s in SUBDIRS ensures SubdirRuns(after, appsDir, roots, e, s) {
      var root := roots.Of(s);
      assert SubdirRuns(before, appsDir, roots, e, s);
      WayIsEnterable(before, appsDir, root, e.Of(s));
      forall q | q in Prefixes(root) && q in after ensures after[q].Directory? {
        InPrefixes(root, q);
        assert Leading(roots, q);
        assert SameAt(before, after, q);
      }
      forall q | root < q ensures SameAt(before, after, q) {
        assert !Outside(roots, q);
      }
      StillUnobstructed(before, after, appsDir, root, e.Of(s));
    }
  }

  // ----- The manifest links -----

  /** How the link changes of a rollback-safe deploy and of the way back relate to the links that were there. */
  ghost predicate LinksBack(appsDir: Path, was: map<Path, Path>, c: SymlinkChanges<Path>, back: SymlinkChanges<Path>) {
    && c.create == [] && back.remove == [] && SourcesInside(appsDir, c) && SourcesInside(appsDir, back)
    && (forall l :: l in was ==> StartsWith(was[l], appsDir))
    && (forall l :: Touched(c, l) ==> l in was)
    && (forall l, s :: (l, s) in back.change || (l, s) in back.create ==> l in was && was[l] == s)
    && (forall l, s :: (l, s) in c.change ==> exists t :: (l, t) in back.change)
  }

  lemma SafeLinksBack(oldApps: Apps, newApps: Apps, diffs: map<Name, AppDiff>, others: map<Name, AppDiff>,
                      appsDir: Path, c: SymlinkChanges<Path>, back: SymlinkChanges<Path>)
    requires IsAppDiffs(oldApps, newApps, diffs) && AggregatesLinks(c, appsDir, diffs) && c.create == []
    requires IsAppDiffs(newApps, oldApps, others) && AggregatesLinks(back, appsDir, others)
    requires ValidHost(oldApps) && ValidHost(newApps) && AllAgree(appsDir, oldApps)
    ensures LinksBack(appsDir, LinksOf(appsDir, oldApps), c, back)
  {
    var was := LinksOf(appsDir, oldApps);
    LinksOfDesired(appsDir, oldApps);
    SameDiffers(oldApps, newApps, diffs, others);
    hide AggregatesLinks, IsAppDiffs, Links, ToPath, ValidHost, AllAgree, LinksOf, SourcesInside, Touched, Differs;
    DiffSourcesInside(oldApps, newApps, diffs, appsDir, c);
    DiffSourcesInside(newApps, oldApps, others, appsDir, back);
    OldSourcesInside(appsDir, oldApps, was);
    forall l ensures l !in back.remove && (Touched(c, l) ==> l in was) {
      BackFacts(oldApps, newApps, diffs, others, appsDir, c, back, l);
    }
    SetOfEmpty(back.remove);
    forall l, s | (l, s) in back.change || (l, s) in back.create ensures l in was && was[l] == s {
      BackSources(newApps, oldApps, others, appsDir, back, was, l);
    }
    forall l, s | (l, s) in c.change ensures exists t :: (l, t) in back.change {
      ChangedComesBack(oldApps, newApps, diffs, others, appsDir, c, back, l, s);
    }
  }

  lemma OldSourcesInside(appsDir: Path, apps: Apps, links: map<Path, Path>)
    requires ValidHost(apps) && IsDesiredLinks(links, appsDir, apps)
    ensures forall l :: l in links ==> StartsWith(links[l], appsDir)
  {
    hide ValidHost, Links, ToPath;
    forall link | link in links ensures StartsWith(links[link], appsDir) {
      var a, l :| Declares(apps, a, l, link) && links[link] == LinkSource(appsDir, a, apps[a], l);
      ValidSource(appsDir, apps, a, l);
    }
  }

  /** What a stopped deploy leaves at a link of the old commit: a link into the apps directory, or room for one. */
  ghost predicate Waiting(y: Fs, appsDir: Path, l: Path) {
    if l in y then y[l].Link? && StartsWith(y[l].target, appsDir) else |l| > 1 && IsDir(y, Parent(l))
  }

  lemma LeftWaiting(x: Fs, t: Fs, y: Fs, appsDir: Path, roots: Roots, was: map<Path, Path>,
                    c: SymlinkChanges<Path>, back: SymlinkChanges<Path>, l: Path)
    requires WellFormed(x) && LinksMatch(x, was) && LinksBack(appsDir, was, c, back)
    requires LinksPartly(x, t, c) && ManagedAreaOnly(t, y, roots)
    requires l in was && forall k :: k in was ==> Aside(roots, k)
    ensures Waiting(y, appsDir, l)
    ensures l in y && (forall s :: (l, s) !in back.change) ==> y[l] == Link(was[l])
  {
    hide WellFormed, LinksPartly, LinksMatch, LinksBack, ManagedAreaOnly;
    LeftByLinks(x, t, appsDir, was, c, back, l);
    LeftByAll(t, y, appsDir, roots, l);
  }

  /** Before anything was done in the managed directories. */
  lemma LeftByLinks(x: Fs, t: Fs, appsDir: Path, was: map<Path, Path>, c: SymlinkChanges<Path>,
                    back: SymlinkChanges<Path>, l: Path)
    requires WellFormed(x) && LinksMatch(x, was) && LinksBack(appsDir, was, c, back) && LinksPartly(x, t, c) && l in was
    ensures |l| > 1 && IsDir(t, Parent(l))
    ensures l in t ==> t[l].Link? && StartsWith(t[l].target, appsDir)
    ensures (forall s :: (l, s) !in back.change) && l in t ==> t[l] == Link(was[l])
  {
    assert x[l] == Link(was[l]) && (|l| == 1 ==> l == [ROOT]);
    hide WellFormed;
    assert !Touched(c, Parent(l));
  }

  lemma LeftByAll(t: Fs, y: Fs, appsDir: Path, roots: Roots, l: Path)
    requires ManagedAreaOnly(t, y, roots) && Aside(roots, l) && |l| > 1 && IsDir(t, Parent(l))
    requires l in t ==> t[l].Link? && StartsWith(t[l].target, appsDir)
    ensures Waiting(y, appsDir, l) && (l in y ==> l in t && y[l] == t[l])
  {
    hide WellFormed, StartsWith;
    assert Outside(roots, Parent(l)) by {
      forall s | s in SUBDIRS ensures !(roots.Of(s) < Parent(l)) {
        assert !(roots.Of(s) < l);
      }
    }
  }

  /** The link changes back get through, and leave managed directories alone. */
  lemma BackRuns(x: Fs, t: Fs, y: Fs, appsDir: Path, roots: Roots, was: map<Path, Path>,
                 c: SymlinkChanges<Path>, back: SymlinkChanges<Path>)
    requires WellFormed(x) && LinksMatch(x, was) && LinksBack(appsDir, was, c, back)
    requires LinksPartly(x, t, c) && ManagedAreaOnly(t, y, roots)
    requires forall k :: k in was ==> Aside(roots, k)
    ensures ConfigRuns(y, map[], appsDir, back)
    ensures forall p :: !Aside(roots, p) ==> SameAt(y, LinksRun(y, back), p)
  {
    hide Aside, WellFormed, LinksPartly, ManagedAreaOnly, PutLinks, SourcesInside;
    assert Functional(back.change) && Functional(back.create);
    assert y - SetOf(back.remove) == y;
    forall l, s | (l, s) in back.change ensures ChangeRuns(y, appsDir, l) {
      LeftWaiting(x, t, y, appsDir, roots, was, c, back, l);
    }
    forall l, s | (l, s) in back.create ensures CreateRuns(PutLinks(y, back.change), map[], appsDir, l, s) {
      BackCreates(x, t, y, appsDir, roots, was, c, back, l, s);
    }
    forall p | !Aside(roots, p) ensures SameAt(y, LinksRun(y, back), p) {
      LinksRunAt(y, back, p);
    }
  }

  lemma BackCreates(x: Fs, t: Fs, y: Fs, appsDir: Path, roots: Roots, was: map<Path, Path>,
                    c: SymlinkChanges<Path>, back: SymlinkChanges<Path>, l: Path, s: Path)
    requires WellFormed(x) && LinksMatch(x, was) && LinksBack(appsDir, was, c, back)
    requires LinksPartly(x, t, c) && ManagedAreaOnly(t, y, roots)
    requires forall k :: k in was ==> Aside(roots, k)
    requires (l, s) in back.create
    ensures CreateRuns(PutLinks(y, back.change), map[], appsDir, l, s)
  {
    hide Aside, WellFormed, LinksPartly, ManagedAreaOnly, PutLinks, SourcesInside;
    assert Functional(back.change);
    LeftWaiting(x, t, y, appsDir, roots, was, c, back, l);
    PutLinksAt(y, back.change, l);
    if l !in PutLinks(y, back.change) {
      PutLinksAt(y, back.change, Parent(l));
      forall k | (Parent(l), k) in back.change ensures false {
        LeftWaiting(x, t, y, appsDir, roots, was, c, back, Parent(l));
      }
    }
  }

  // ----- The whole way back -----

  /**
    A host from which a rollback-safe deploy can be taken back: the commit is
    valid and its links are placed, its managed links can be made, and
    `systemctl` writes nothing at or above one of its unit files.
   */
  ghost predicate Rescuable(x: Fs, place: Place, apps: Apps, enablement: iset<Path>) {
    && ValidHost(apps) && LinksPlaced(place, apps) && LinksAre(x, place.appsDir, apps)
    && (exists d :: IsDesiredState(d, place.appsDir, apps) && ManagedRuns(x, place.appsDir, place.roots, d))
    && (forall a, n, p :: a in apps && n in Files(apps[a], UNITS) && p in enablement ==> !(p <= place.roots.units + n))
  }

  /** A completed deploy leaves such a host. */
  lemma {:induction false} DeployedRescuable(x: Fs, place: Place, apps: Apps, d: DesiredState, enablement: iset<Path>)
    requires WellFormed(x) && place.roots.Valid() && ValidHost(apps) && LinksPlaced(place, apps)
    requires LinksAre(x, place.appsDir, apps)
    requires IsDesiredState(d, place.appsDir, apps) && ManagedAre(x, place.appsDir, place.roots, d)
    requires RootsEnterable(x, place.roots)
    requires forall a, n, p :: a in apps && n in Files(apps[a], UNITS) && p in enablement ==>
               !(p <= place.roots.units + n)
    ensures Rescuable(x, place, apps, enablement)
  {
    hide ValidHost, LinksPlaced, LinksAre, IsDesiredState, ManagedAre, RootsEnterable, ManagedRuns, WellFormed;
    hide Roots.Valid;
    PresentRuns(x, place.appsDir, place.roots, d);
  }

  lemma LinksAside(x: Fs, place: Place, apps: Apps, d: DesiredState)
    requires WellFormed(x) && LinksPlaced(place, apps) && LinksAre(x, place.appsDir, apps)
    requires ManagedRuns(x, place.appsDir, place.roots, d)
    ensures forall l :: l in LinksOf(place.appsDir, apps) ==> Aside(place.roots, l)
  {
    LinksOfDesired(place.appsDir, apps);
    hide LinksOf, AllAgree, PrefixFree, Prefixes, PointsThroughCurrent, Links, ToPath;
    forall l | l in LinksOf(place.appsDir, apps) ensures Aside(place.roots, l) {
      var a, k :| Declares(apps, a, k, l);
      assert Outside(place.roots, l);
      forall s | s in SUBDIRS ensures !(l <= place.roots.Of(s)) {
        assert SubdirRuns(x, place.appsDir, place.roots, d, s);
        InPrefixes(place.roots.Of(s), l);
      }
    }
  }

  lemma OldIsWider(place: Place, oldApps: Apps, newApps: Apps, d: DesiredState, e: DesiredState, enablement: iset<Path>)
    requires SafeHostChange(oldApps, newApps)
    requires IsDesiredState(d, place.appsDir, newApps) && IsDesiredState(e, place.appsDir, oldApps)
    requires forall a, n, p :: a in oldApps && n in Files(oldApps[a], UNITS) && p in enablement ==>
               !(p <= place.roots.units + n)
    ensures Wider(e, d, place.appsDir, place.roots, enablement)
  {
    hide SafeHostChange, DesiredOk, Files;
    SafeNarrows(place.appsDir, oldApps, newApps, d, e);
    DesiredStateOk(e, place.appsDir, oldApps);
    assert IsDesiredSubdir(e.Of(UNITS), place.appsDir, oldApps, UNITS);
  }

  /** Nothing keeps a rollback from succeeding. */
  ghost predicate WayBackClear(y: Fs, place: Place, oldApps: Apps, newApps: Apps) {
    && ReadableChange(newApps, oldApps)
    && forall back :: IsChange(back, place, newApps, oldApps) ==> Unhindered(y, place, back.links, oldApps)
  }

  lemma ClearReadable(y: Fs, place: Place, oldApps: Apps, newApps: Apps)
    ensures WayBackClear(y, place, oldApps, newApps) ==> ReadableChange(newApps, oldApps)
  {
    hide ReadableChange, IsChange, Unhindered;
  }

  lemma ClearEntries(y: Fs, place: Place, oldApps: Apps, newApps: Apps, back: Change)
    requires IsChange(back, place, newApps, oldApps)
    ensures WayBackClear(y, place, oldApps, newApps) ==> forall s, a :: s in SUBDIRS && a in oldApps ==>
              SubdirEntries(oldApps[a], s).Ok?
  {
    hide ReadableChange, IsChange, Activates;
  }

  lemma ClearActivates(y: Fs, dirs: map<Name, AppDir>, place: Place, oldApps: Apps, newApps: Apps, back: Change,
                       d: DesiredState)
    requires IsChange(back, place, newApps, oldApps) && IsDesiredState(d, place.appsDir, oldApps)
    ensures WayBackClear(y, place, oldApps, newApps) ==> Activates(y, dirs, place.appsDir, place.roots, back.links, d)
  {
    hide ReadableChange, IsChange, Unhindered, Activates, IsDesiredState;
    if WayBackClear(y, place, oldApps, newApps) {
      UnhinderedActivates(y, dirs, place, back.links, oldApps, d);
    }
  }

  /** Wherever a rollback-safe deploy from such a host stopped, its rollback finds nothing in its way. */
  lemma {:induction false} RollbackClear(x: Fs, y: Fs, place: Place, oldApps: Apps, newApps: Apps, ch: Change,
                                         d: DesiredState, enablement: iset<Path>)
    requires WellFormed(x) && place.roots.Valid() && Rescuable(x, place, oldApps, enablement)
    requires IsChange(ch, place, oldApps, newApps)
    requires SafeHostChange(oldApps, newApps) && ch.links.IsRollbackSafe() && ValidHost(newApps)
    requires IsDesiredState(d, place.appsDir, newApps)
    requires StoppedRuns(x, y, place.appsDir, place.roots, ch.links, d, enablement)
    ensures WayBackClear(y, place, oldApps, newApps)
  {
    assert ValidHost(oldApps);
    hide ValidHost, Rescuable, IsChange, SafeHostChange, StoppedRuns, IsDesiredState, Unhindered, ReadableChange;
    hide WellFormed, Roots.Valid;
    ValidChange(newApps, oldApps);
    forall back | IsChange(back, place, newApps, oldApps) ensures Unhindered(y, place, back.links, oldApps) {
      BackUnhindered(x, y, place, oldApps, newApps, ch, back, d, enablement);
    }
  }

  lemma ValidChange(current: Apps, target: Apps)
    requires ValidHost(current) && ValidHost(target)
    ensures ReadableChange(current, target)
  {
    hide SubdirEntries, LinksAcceptable, NothingShared;
    forall a | Differs(current, target, a) ensures Readable(TreeOf(current, a)) && Readable(TreeOf(target, a)) {
      EmptyReadable();
    }
  }

  lemma EmptyReadable()
    ensures Readable(EMPTY_TREE)
  {
  }

  lemma BackUnhindered(x: Fs, y: Fs, place: Place, oldApps: Apps, newApps: Apps, ch: Change, back: Change,
                       d: DesiredState, enablement: iset<Path>)
    requires WellFormed(x) && place.roots.Valid() && Rescuable(x, place, oldApps, enablement)
    requires IsChange(ch, place, oldApps, newApps) && IsChange(back, place, newApps, oldApps)
    requires SafeHostChange(oldApps, newApps) && ch.links.IsRollbackSafe() && ValidHost(newApps)
    requires IsDesiredState(d, place.appsDir, newApps)
    requires StoppedRuns(x, y, place.appsDir, place.roots, ch.links, d, enablement)
    ensures Unhindered(y, place, back.links, oldApps)
  {
    hide WellFormed, Roots.Valid, SafeHostChange, IsDesiredState, ManagedRuns, LinksPartly, ManagedAreaOnly, StillRuns;
    hide ConfigRuns;
    hide AllAgree, LinksOutside, IsAppDiffs, AggregatesLinks, LinksRun, Aside, Wider, LinksBack, LinksAre, LinksOf;
    hide ValidHost;
    var t :| && LinksPartly(x, t, ch.links) && ManagedAreaOnly(t, y, place.roots)
             && StillRuns(t, y, place.appsDir, place.roots, d, enablement);
    var e :| IsDesiredState(e, place.appsDir, oldApps) && ManagedRuns(x, place.appsDir, place.roots, e);
    SafeLinksBack(oldApps, newApps, ch.diffs, back.diffs, place.appsDir, ch.links, back.links);
    LinksAside(x, place, oldApps, e);
    OldIsWider(place, oldApps, newApps, d, e, enablement);
    WayBack(x, t, y, place, oldApps, ch.links, back.links, d, e, enablement);
    ValidReadable(oldApps);
    forall e2 | IsDesiredState(e2, place.appsDir, oldApps)
      ensures Activates(y, map[], place.appsDir, place.roots, back.links, e2)
    {
      SameNamesRun(LinksRun(y, back.links), place.appsDir, oldApps, place.roots, e, e2);
    }
  }

  lemma ValidReadable(apps: Apps)
    requires ValidHost(apps)
    ensures forall s, a :: s in SUBDIRS && a in apps ==> SubdirEntries(apps[a], s).Ok?
  {
    hide LinksAcceptable, NothingShared, SubdirEntries;
    forall s, a | s in SUBDIRS && a in apps ensures SubdirEntries(apps[a], s).Ok? {
      assert Readable(apps[a]);
    }
  }

  /** The link changes back get through, and then the old managed links can be made. */
  lemma WayBack(x: Fs, t: Fs, y: Fs, place: Place, oldApps: Apps, c: SymlinkChanges<Path>, back: SymlinkChanges<Path>,
                d: DesiredState, e: DesiredState, enablement: iset<Path>)
    requires WellFormed(x) && LinksAre(x, place.appsDir, oldApps)
    requires LinksBack(place.appsDir, LinksOf(place.appsDir, oldApps), c, back)
    requires forall l :: l in LinksOf(place.appsDir, oldApps) ==> Aside(place.roots, l)
    requires LinksPartly(x, t, c) && ManagedAreaOnly(t, y, place.roots)
    requires StillRuns(t, y, place.appsDir, place.roots, d, enablement)
    requires Wider(e, d, place.appsDir, place.roots, enablement)
    requires ManagedRuns(x, place.appsDir, place.roots, e)
    ensures ConfigRuns(y, map[], place.appsDir, back)
    ensures ManagedRuns(LinksRun(y, back), place.appsDir, place.roots, e)
  {
    var was := LinksOf(place.appsDir, oldApps);
    hide WellFormed, LinksOf, ManagedAreaOnly, ManagedRuns, DesiredOk, LinksMatch, LinksRun, ConfigRuns, Touched;
    hide SourcesInside, Aside;
    BackRuns(x, t, y, place.appsDir, place.roots, was, c, back);
    AsideRuns(x, t, place.appsDir, place.roots, e);
    AsideRuns(y, LinksRun(y, back), place.appsDir, place.roots, e);
  }
}
