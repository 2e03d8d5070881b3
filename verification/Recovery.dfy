/**
  Whole deploys on a host: what one that completes, one that is rolled back,
  and any number of interrupted ones leave on the filesystem.
 */
module Recovery {
  import opened Wrappers
  import opened Paths
  import opened Trees
  import opened Plan
  import opened Desired
  import opened Filesystem
  import opened ManifestLinks
  import opened Checkout
  import opened HostState
  import opened HostApply

  datatype Snapshot = Snapshot(apps: map<Name, AppDir>, tree: Fs)

  datatype Place = Place(appsDir: Path, roots: Roots)

  /** What a deploy does to files: the app diffs and the aggregated link changes. */
  datatype Change = Change(diffs: map<Name, AppDiff>, links: SymlinkChanges<Path>)

  ghost predicate IsChange(ch: Change, place: Place, oldApps: Apps, newApps: Apps) {
    IsAppDiffs(oldApps, newApps, ch.diffs) && AggregatesLinks(ch.links, place.appsDir, ch.diffs)
  }

  /** The state after a deploy that stopped anywhere. */
  ghost predicate Attempted(x: Snapshot, y: Snapshot, place: Place, ch: Change) {
    && AppsPartly(x.apps, y.apps, ch.diffs) && TreePartly(x.tree, y.tree, place.roots, ch.links)
    && ForeignKept(x.tree, y.tree, place.appsDir, place.roots, ch.links)
  }

  /** The state after a deploy that completed at version `p`, garbage collected. */
  ghost predicate Deployed(x: Snapshot, y: Snapshot, place: Place, ch: Change, p: Prefix, d: DesiredState) {
    && (exists m :: AppsDone(x.apps, m, ch.diffs, p, Fresh) && Collected(m, y.apps))
    && TreeDone(x.tree, y.tree, place.appsDir, place.roots, ch.links, d)
  }

  /** Checkout done, activation stopped anywhere, and then the way back completed. */
  ghost predicate Reverted(x: Snapshot, m: Snapshot, y: Snapshot, place: Place, ch: Change, back: Change,
                           p: Prefix, q: Prefix, d: DesiredState) {
    && AppsDone(x.apps, m.apps, ch.diffs, p, Fresh) && TreeStopped(x.tree, m.tree, place.roots, ch.links)
    && AppsDone(m.apps, y.apps, back.diffs, q, Reuse)
    && TreeDone(m.tree, y.tree, place.appsDir, place.roots, back.links, d)
  }

  /** The apps' content and the manifest links are those of a commit. */
  ghost predicate AtCommit(x: Snapshot, place: Place, apps: Apps) {
    AppsAre(x.apps, apps) && LinksAre(x.tree, place.appsDir, apps)
  }

  /** The declarations of each link agree on its source, and no link is inside a managed directory. */
  ghost predicate LinksPlaced(place: Place, apps: Apps) {
    AllAgree(place.appsDir, apps) && LinksOutside(place.roots, apps)
  }

  // ----- Changes there and back -----

  /** A change is determined by its two sides, up to the order of its lists. */
  lemma ChangeUnique(ch: Change, other: Change, place: Place, oldApps: Apps, newApps: Apps)
    requires IsChange(ch, place, oldApps, newApps) && IsChange(other, place, oldApps, newApps)
    ensures ch.diffs == other.diffs && SameChanges(ch.links, other.links)
  {
  }

  /** The change back touches the same apps and the same links. */
  lemma BackTouches(ch: Change, back: Change, place: Place, oldApps: Apps, newApps: Apps, p: Path)
    requires IsChange(ch, place, oldApps, newApps) && IsChange(back, place, newApps, oldApps)
    ensures ch.diffs.Keys == back.diffs.Keys
    ensures Touched(back.links, p) ==> Touched(ch.links, p)
    ensures LinkedAnew(back.links, p) ==> LinkedAnew(ch.links, p)
  {
    forall a ensures a in back.diffs <==> a in ch.diffs {
      assert Differs(oldApps, newApps, a) <==> Differs(newApps, oldApps, a);
    }
    hide AggregatesLinks, IsAppDiffs, Differs, Links, ToPath, Declares;
    RemovePaths(newApps, oldApps, back.diffs, place.appsDir, back.links, p);
    if p in back.links.remove {
      var a, l :| ChangeDeclares(back.diffs, newApps, a, l, p) && !Declares(oldApps, a, l, p);
      assert Declares(newApps, a, l, p);
      LinkDeclared(newApps, a, l, p);
      CreatePairs(oldApps, newApps, ch.diffs, place.appsDir, ch.links,
                  (p, LinkSource(place.appsDir, a, newApps[a], l)));
      assert ChangeDeclares(ch.diffs, newApps, a, l, p);
    }
    RemovePaths(oldApps, newApps, ch.diffs, place.appsDir, ch.links, p);
    forall s | (p, s) in back.links.create ensures p in ch.links.remove {
      CreatePairs(newApps, oldApps, back.diffs, place.appsDir, back.links, (p, s));
      var a, l :| ChangeDeclares(back.diffs, oldApps, a, l, p) && !Declares(newApps, a, l, p);
      assert ChangeDeclares(ch.diffs, oldApps, a, l, p);
    }
    forall s | (p, s) in back.links.change ensures exists t :: (p, t) in ch.links.change {
      ChangeBack(ch, back, place, oldApps, newApps, p, s);
    }
  }

  lemma LinkDeclared(apps: Apps, a: Name, l: string, link: Path)
    requires Declares(apps, a, l, link)
    ensures a in apps && l in Links(apps[a])
  {
  }

  lemma ChangeBack(ch: Change, back: Change, place: Place, oldApps: Apps, newApps: Apps, p: Path, s: Path)
    requires IsChange(ch, place, oldApps, newApps) && IsChange(back, place, newApps, oldApps)
    requires ch.diffs.Keys == back.diffs.Keys
    requires (p, s) in back.links.change
    ensures exists t :: (p, t) in ch.links.change
  {
    hide AggregatesLinks, IsAppDiffs, Links, ToPath;
    ChangePairs(newApps, oldApps, back.diffs, place.appsDir, back.links, (p, s));
    var a, l :|
      && ChangeDeclares(back.diffs, oldApps, a, l, p) && Declares(newApps, a, l, p)
      && Links(newApps[a])[l] != Links(oldApps[a])[l];
    assert ChangeDeclares(ch.diffs, newApps, a, l, p);
    ChangePairs(oldApps, newApps, ch.diffs, place.appsDir, ch.links, (p, LinkSource(place.appsDir, a, newApps[a], l)));
  }

  /** A part of the way back, after a part of the way there, is a part of the way there. */
  lemma BackIsPartOfAttempt(x: Snapshot, m: Snapshot, y: Snapshot, place: Place, ch: Change, back: Change,
                            oldApps: Apps, newApps: Apps)
    requires IsChange(ch, place, oldApps, newApps) && IsChange(back, place, newApps, oldApps)
    requires Attempted(x, m, place, ch) && Attempted(m, y, place, back)
    ensures Attempted(x, y, place, ch)
  {
    hide IsChange, TreePartly, Touched, SameApp, LinkedAnew, ForeignKept;
    BackTouches(ch, back, place, oldApps, newApps, []);
    forall p
      ensures Touched(back.links, p) ==> Touched(ch.links, p)
      ensures LinkedAnew(back.links, p) ==> LinkedAnew(ch.links, p)
    {
      BackTouches(ch, back, place, oldApps, newApps, p);
    }
    ForeignKeptTransitive(x.tree, m.tree, y.tree, place.appsDir, place.roots, ch.links, back.links);
    TreePartlyTransitive(x.tree, m.tree, y.tree, place.roots, ch.links, back.links);
    PartlyAppsTransitive(x.apps, m.apps, y.apps, ch.diffs, back.diffs);
  }

  lemma PartlyAppsTransitive(x: map<Name, AppDir>, m: map<Name, AppDir>, y: map<Name, AppDir>,
                             diffs: map<Name, AppDiff>, others: map<Name, AppDiff>)
    requires diffs.Keys == others.Keys && AppsPartly(x, m, diffs) && AppsPartly(m, y, others)
    ensures AppsPartly(x, y, diffs)
  {
  }

  lemma DoneIsAttempted(x: Snapshot, y: Snapshot, place: Place, ch: Change, p: Prefix, m: map<Name, AppDir>)
    requires AppsInterrupted(x.apps, m, ch.diffs, p) && y.apps == m
    requires TreeStopped(x.tree, y.tree, place.roots, ch.links)
    requires ForeignKept(x.tree, y.tree, place.appsDir, place.roots, ch.links)
    ensures Attempted(x, y, place, ch)
  {
    hide AppsInterrupted, TreeStopped, TreePartly, AppsPartly, ForeignKept;
    InterruptedIsPartly(x.apps, m, ch.diffs, p);
    StoppedIsPartly(x.tree, y.tree, place.roots, ch.links);
  }

  // ----- A deploy that completes -----

  /** From the old commit, and whatever interrupted attempts left of it, to the new commit. */
  lemma {:induction false} DeployArrives(base: Snapshot, x: Snapshot, y: Snapshot, place: Place, oldApps: Apps,
                                         newApps: Apps, ch: Change, p: Prefix, d: DesiredState)
    requires IsChange(ch, place, oldApps, newApps) && AppsAre(base.apps, oldApps)
    requires Attempted(base, x, place, ch) && Deployed(x, y, place, ch, p, d)
    ensures AppsAre(y.apps, newApps) && ManagedAre(y.tree, place.appsDir, place.roots, d)
  {
    hide AppsDone, Collected, AppsAre, AppsPartly, TreePartly, ForeignKept, ManagedAreaOnly, ManagedAre, LinksRun;
    hide IsAppDiffs, AggregatesLinks;
    var m :| AppsDone(x.apps, m, ch.diffs, p, Fresh) && Collected(m, y.apps);
    FreshCheckoutArrives(x.apps, m, oldApps, newApps, ch.diffs, p);
    CollectedKeepsApps(m, y.apps, newApps);
  }

  /** From the old commit exactly to the new commit: apps, managed links and manifest links. */
  lemma {:induction false} DeployCompletes(x: Snapshot, y: Snapshot, place: Place, oldApps: Apps, newApps: Apps,
                                           ch: Change,
                                            p: Prefix, d: DesiredState)
    requires IsChange(ch, place, oldApps, newApps) && LinksPlaced(place, newApps) && NoneIsStranded(oldApps, newApps)
    requires AtCommit(x, place, oldApps) && Deployed(x, y, place, ch, p, d)
    ensures AtCommit(y, place, newApps) && ManagedAre(y.tree, place.appsDir, place.roots, d)
    ensures forall l :: l in LinksOf(place.appsDir, oldApps) && l !in LinksOf(place.appsDir, newApps) ==>
              (Outside(place.roots, l) ==> LinkDropped(y.tree, place.roots, l))
  {
    hide AppsDone, Collected, AppsAre, TreeDone, LinksAre, ManagedAre, IsAppDiffs, AggregatesLinks, AllAgree;
    hide LinksOutside, LinksOf;
    hide NoneIsStranded, LinkDropped, Outside;
    var m :| AppsDone(x.apps, m, ch.diffs, p, Fresh) && Collected(m, y.apps);
    assert AppsPartly(x.apps, x.apps, ch.diffs) by { SameAppsPartly(x.apps, ch.diffs); }
    hide AppsPartly;
    FreshCheckoutArrives(x.apps, m, oldApps, newApps, ch.diffs, p);
    CollectedKeepsApps(m, y.apps, newApps);
    DeployedLinks(oldApps, newApps, ch.diffs, place.appsDir, place.roots, ch.links, d, x.tree, y.tree);
    DoneManaged(x.tree, y.tree, place, ch.links, d);
  }

  lemma SameAppsPartly(x: map<Name, AppDir>, diffs: map<Name, AppDiff>)
    ensures AppsPartly(x, x, diffs)
  {
  }

  lemma DoneManaged(x: Fs, y: Fs, place: Place, c: SymlinkChanges<Path>, d: DesiredState)
    requires TreeDone(x, y, place.appsDir, place.roots, c, d)
    ensures ManagedAre(y, place.appsDir, place.roots, d)
  {
  }

  /** The app is there, with `t` behind `current`. */
  ghost predicate AppIs(dirs: map<Name, AppDir>, a: Name, t: Tree) {
    && a in dirs && dirs[a].current.Some? && dirs[a].current.value in dirs[a].versions
    && dirs[a].versions[dirs[a].current.value] == t
  }

  lemma ReappliedApp(x: map<Name, AppDir>, m: map<Name, AppDir>, y: map<Name, AppDir>, apps: Apps,
                     diffs: map<Name, AppDiff>, p: Prefix, a: Name)
    requires IsAppDiffs(map[], apps, diffs) && AppsDone(x, m, diffs, p, Fresh) && Collected(m, y)
    ensures a in apps ==> AppIs(y, a, apps[a])
    ensures a !in apps ==> (a in y <==> a in x)
  {
    assert AppDone(x, m, diffs, p, Fresh, a);
    assert a in diffs <==> Differs(map[], apps, a);
    if a in apps {
      assert IsAppDiff(map[], apps, a, diffs[a]) && CollectedApp(m[a], y[a]);
    }
  }

  /**
    A reapply starts from nothing: whatever the host's state was, every app,
    link and managed directory is as the commit has it.
   */
  lemma {:induction false} ReapplyRepairs(x: Snapshot, y: Snapshot, place: Place, apps: Apps, ch: Change, p: Prefix,
                                          d: DesiredState)
    requires IsChange(ch, place, map[], apps) && Deployed(x, y, place, ch, p, d) && LinksPlaced(place, apps)
    ensures forall a :: a in apps ==> AppIs(y.apps, a, apps[a])
    ensures x.apps.Keys == apps.Keys ==> AppsAre(y.apps, apps)
    ensures LinksAre(y.tree, place.appsDir, apps) && ManagedAre(y.tree, place.appsDir, place.roots, d)
  {
    hide IsAppDiffs, AggregatesLinks, AllAgree, LinksOutside, LinksAre, ManagedAre, TreeDone, AppsDone, Collected;
    hide NoneIsStranded;
    var m :| AppsDone(x.apps, m, ch.diffs, p, Fresh) && Collected(m, y.apps);
    forall a
      ensures (a in apps ==> AppIs(y.apps, a, apps[a])) && (a !in apps ==> (a in y.apps <==> a in x.apps))
    {
      ReappliedApp(x.apps, m, y.apps, apps, ch.diffs, p, a);
    }
    assert x.apps.Keys == apps.Keys ==> y.apps.Keys == apps.Keys;
    NothingDeclared(x.tree, place, apps);
    DeployedLinks(map[], apps, ch.diffs, place.appsDir, place.roots, ch.links, d, x.tree, y.tree);
    DoneManaged(x.tree, y.tree, place, ch.links, d);
  }

  lemma NothingDeclared(fs: Fs, place: Place, apps: Apps)
    ensures LinksAre(fs, place.appsDir, map[]) && NoneIsStranded(map[], apps)
  {
  }

  // ----- A deploy that is rolled back -----

  /**
    A rollback-safe deploy whose activation fails at any point, and whose
    rollback completes, leaves the old commit's apps, managed links and
    manifest links, and nothing else outside the managed directories changed.
    Of the new commit nothing is asked: its links may be what activation failed on.
   */
  lemma {:induction false} RollbackRestores(x: Snapshot, m: Snapshot, y: Snapshot, place: Place, oldApps: Apps,
                                            newApps: Apps, ch: Change,
                                            back: Change, p: Prefix, q: Prefix, d: DesiredState)
    requires IsChange(ch, place, oldApps, newApps) && IsChange(back, place, newApps, oldApps)
    requires ch.links.IsRollbackSafe()
    requires LinksPlaced(place, oldApps)
    requires AtCommit(x, place, oldApps) && p != q && VersionsComplete(x.apps, oldApps, q)
    requires Reverted(x, m, y, place, ch, back, p, q, d)
    ensures AtCommit(y, place, oldApps) && ManagedAre(y.tree, place.appsDir, place.roots, d)
    ensures ManagedAreaOnly(x.tree, y.tree, place.roots)
  {
    hide AppsDone, AppsAre, LinksAre, ManagedAre, TreeStopped, ManagedAreaOnly, IsAppDiffs, AggregatesLinks, AllAgree;
    hide LinksOutside;
    hide VersionsComplete, LinksRun, SymlinkChanges.IsRollbackSafe;
    ReuseCheckoutRestores(x.apps, m.apps, y.apps, oldApps, newApps, ch.diffs, back.diffs, p, q);
    RolledBackTree(oldApps, newApps, ch.diffs, back.diffs, place.appsDir, place.roots, ch.links, back.links, x.tree,
                   m.tree, y.tree);
    LinksStay(x.tree, y.tree, place.appsDir, place.roots, oldApps);
  }

  // ----- Interrupted deploys -----

  /** One attempt of many, all from the old to the new commit. */
  ghost predicate AttemptFrom(x: Snapshot, y: Snapshot, place: Place, oldApps: Apps, newApps: Apps, ch: Change) {
    IsChange(ch, place, oldApps, newApps) && Attempted(x, y, place, ch)
  }

  /** Interrupted attempts at the same host tree, whatever their commits, add up to one. */
  lemma {:induction false} AttemptsAddUp(xs: seq<Snapshot>, chs: seq<Change>, place: Place, oldApps: Apps,
                                         newApps: Apps, ch: Change)
    requires |xs| == |chs| + 1 && IsChange(ch, place, oldApps, newApps) && WellFormed(xs[0].tree)
    requires forall i :: 0 <= i < |chs| ==> AttemptFrom(xs[i], xs[i + 1], place, oldApps, newApps, chs[i])
    ensures Attempted(xs[0], xs[|chs|], place, ch)
    decreases |chs|
  {
    hide IsChange, WellFormed, Attempted, AttemptFrom;
    if |chs| == 0 {
      NothingAttempted(xs[0], place, ch);
    } else {
      var n := |chs| - 1;
      forall i | 0 <= i < n
        ensures AttemptFrom(xs[..n + 1][i], xs[..n + 1][i + 1], place, oldApps, newApps, chs[..n][i])
      {
        assert AttemptFrom(xs[i], xs[i + 1], place, oldApps, newApps, chs[i]);
      }
      AttemptsAddUp(xs[..n + 1], chs[..n], place, oldApps, newApps, ch);
      AttemptTransitive(xs[0], xs[n], xs[n + 1], place, oldApps, newApps, ch, chs[n]);
    }
  }

  lemma NothingAttempted(x: Snapshot, place: Place, ch: Change)
    requires WellFormed(x.tree)
    ensures Attempted(x, x, place, ch)
  {
  }

  lemma AttemptTransitive(x: Snapshot, m: Snapshot, y: Snapshot, place: Place, oldApps: Apps, newApps: Apps,
                          ch: Change, other: Change)
    requires IsChange(ch, place, oldApps, newApps)
    requires Attempted(x, m, place, ch) && AttemptFrom(m, y, place, oldApps, newApps, other)
    ensures Attempted(x, y, place, ch)
  {
    hide IsChange, TreePartly, SameApp, Touched, ForeignKept;
    ChangeUnique(ch, other, place, oldApps, newApps);
    SameMembers(ch.links, other.links);
    SameAnew(ch.links, other.links);
    hide LinkedAnew;
    ForeignKeptTransitive(x.tree, m.tree, y.tree, place.appsDir, place.roots, ch.links, other.links);
    TreePartlyTransitive(x.tree, m.tree, y.tree, place.roots, ch.links, other.links);
    PartlyAppsTransitive(x.apps, m.apps, y.apps, ch.diffs, other.diffs);
  }

  /** A completing deploy after an interrupted attempt, against one that was never interrupted, at one path outside. */
  lemma RetriedTreeAt(base: Snapshot, x: Snapshot, y: Snapshot, once: Snapshot, place: Place, oldApps: Apps,
                      newApps: Apps, last: Change, single: Change, p: Prefix, q: Prefix, d: DesiredState, f: Path)
    requires IsChange(last, place, oldApps, newApps) && IsChange(single, place, oldApps, newApps)
    requires AllAgree(place.appsDir, newApps)
    requires Attempted(base, x, place, single)
    requires Deployed(x, y, place, last, p, d) && Deployed(base, once, place, single, q, d)
    requires Outside(place.roots, f)
    ensures SameAround(once.tree, y.tree, place.roots, f)
  {
    ChangeUnique(single, last, place, oldApps, newApps);
    AgreeingFunctional(oldApps, newApps, single.diffs, place.appsDir, single.links);
    AgreeingFunctional(oldApps, newApps, last.diffs, place.appsDir, last.links);
    hide AppsDone, Collected, AppsPartly, TreeDone, TreePartly, ForeignKept, Functional, SameChanges, IsAppDiffs,
      AggregatesLinks, AllAgree, Outside, SameAround;
    RetriedTree(base.tree, x.tree, once.tree, y.tree, place.appsDir, place.roots, single.links, last.links, d, f);
  }

  /**
    Any number of interrupted attempts from the old commit, then one that
    completes, against a single uninterrupted deploy, all with the same host
    tree: the same app contents, the same managed links, and the same tree
    around the managed directories, manifest links included.
   */
  lemma {:induction false} RetriesConverge(xs: seq<Snapshot>, chs: seq<Change>, y: Snapshot, once: Snapshot,
                                           place: Place, oldApps: Apps, newApps: Apps, last: Change, single: Change,
                                           p: Prefix, q: Prefix, d: DesiredState, e: DesiredState)
    requires |xs| == |chs| + 1 && WellFormed(xs[0].tree) && AppsAre(xs[0].apps, oldApps)
    requires forall i :: 0 <= i < |chs| ==> AttemptFrom(xs[i], xs[i + 1], place, oldApps, newApps, chs[i])
    requires IsChange(last, place, oldApps, newApps) && IsDesiredState(d, place.appsDir, newApps)
    requires Deployed(xs[|chs|], y, place, last, p, d)
    requires IsChange(single, place, oldApps, newApps) && IsDesiredState(e, place.appsDir, newApps)
    requires Deployed(xs[0], once, place, single, q, e)
    requires ValidHost(newApps) && AllAgree(place.appsDir, newApps)
    ensures AppsAre(y.apps, newApps) && AppsAre(once.apps, newApps)
    ensures d == e && ManagedAre(y.tree, place.appsDir, place.roots, d)
    ensures ManagedAre(once.tree, place.appsDir, place.roots, d)
    ensures forall f :: Outside(place.roots, f) ==> SameAround(once.tree, y.tree, place.roots, f)
    ensures LinksAre(xs[0].tree, place.appsDir, oldApps) && LinksOutside(place.roots, newApps)
              && NoneIsStranded(oldApps, newApps) ==>
              AtCommit(y, place, newApps)
  {
    hide IsChange, Attempted, AttemptFrom, AtCommit, LinksOutside, NoneIsStranded, LinksAre, Deployed, AppsAre,
      ManagedAre, ValidHost, IsDesiredState, AllAgree, WellFormed, Outside, SameAround;
    var x, base := xs[|chs|], xs[0];
    AttemptsAddUp(xs, chs, place, oldApps, newApps, single);
    AttemptsAddUp(xs, chs, place, oldApps, newApps, last);
    NothingAttempted(base, place, single);
    DesiredUnique(d, e, place.appsDir, newApps);
    DeployArrives(base, x, y, place, oldApps, newApps, last, p, d);
    DeployArrives(base, base, once, place, oldApps, newApps, single, q, e);
    forall f | Outside(place.roots, f) ensures SameAround(once.tree, y.tree, place.roots, f) {
      RetriedTreeAt(base, x, y, once, place, oldApps, newApps, last, single, p, q, d, f);
    }
    if LinksAre(base.tree, place.appsDir, oldApps) && LinksOutside(place.roots, newApps)
      && NoneIsStranded(oldApps, newApps) {
      assert AtCommit(base, place, oldApps) by { AtCommitFrom(base, place, oldApps); }
      DeployCompletes(base, once, place, oldApps, newApps, single, q, e);
      SameLinks(once, y, place, newApps);
    }
  }

  lemma AtCommitFrom(x: Snapshot, place: Place, apps: Apps)
    ensures AtCommit(x, place, apps) <==> AppsAre(x.apps, apps) && LinksAre(x.tree, place.appsDir, apps)
  {
  }

  lemma SameLinks(x: Snapshot, y: Snapshot, place: Place, apps: Apps)
    requires AtCommit(x, place, apps) && AppsAre(y.apps, apps) && LinksOutside(place.roots, apps)
    requires forall f :: Outside(place.roots, f) ==> SameAround(x.tree, y.tree, place.roots, f)
    ensures AtCommit(y, place, apps)
  {
    LinksOfDesired(place.appsDir, apps);
    var links := LinksOf(place.appsDir, apps);
    hide AppsAre, Outside, Leading, LinksOf, Links, ToPath;
    forall l | l in links ensures l in y.tree && y.tree[l] == Link(links[l]) {
      var a, k :| Declares(apps, a, k, l);
      assert Outside(place.roots, l);
      assert SameAround(x.tree, y.tree, place.roots, l);
    }
  }

  // ----- Runs without crashes -----

  /** The host's current commit: its apps, its version name, and the version names used so far. */
  datatype Standing = Standing(apps: Apps, q: Prefix, used: set<Prefix>)

  /** No app but one that is at the commit has a version directory named after it. */
  ghost predicate VersionsKnown(dirs: map<Name, AppDir>, st: Standing) {
    forall a :: a in dirs ==>
      && dirs[a].versions.Keys <= st.used
      && (st.q in dirs[a].versions ==> dirs[a].current == Some(st.q))
  }

  ghost predicate Stands(x: Snapshot, place: Place, st: Standing) {
    AtCommit(x, place, st.apps) && LinksPlaced(place, st.apps) && VersionsKnown(x.apps, st)
  }

  /**
    A deploy of `target` at a new version `p` that completes, or that is rolled
    back to version `q` by way of `mid`.
   */
  datatype Round =
    | Completes(target: Apps, p: Prefix, ch: Change, d: DesiredState)
    | Reverts(target: Apps, p: Prefix, ch: Change, d: DesiredState, mid: Snapshot, back: Change, q: Prefix)

  ghost predicate IsRound(x: Snapshot, y: Snapshot, place: Place, st: Standing, r: Round) {
    && r.p !in st.used && IsChange(r.ch, place, st.apps, r.target)
    && match r
       case Completes(target, p, ch, d) =>
         && LinksPlaced(place, target) && NoneIsStranded(st.apps, target)
         && Deployed(x, y, place, ch, p, d)
       case Reverts(target, p, ch, d, mid, back, q) =>
         && ch.links.IsRollbackSafe() && IsChange(back, place, target, st.apps) && p != q
         && (st.apps == map[] || (q == st.q && q in st.used))
         && Reverted(x, mid, y, place, ch, back, p, q, d)
  }

  function AfterRound(st: Standing, r: Round): Standing {
    if r.Completes? then Standing(r.target, r.p, st.used + {r.p}) else st.(used := st.used + {r.p})
  }

  lemma KnownIsComplete(x: Snapshot, place: Place, st: Standing, q: Prefix)
    requires Stands(x, place, st) && (st.apps == map[] || q == st.q)
    ensures VersionsComplete(x.apps, st.apps, q)
  {
  }

  lemma FreshKeepsKnown(x: map<Name, AppDir>, m: map<Name, AppDir>, y: map<Name, AppDir>, diffs: map<Name, AppDiff>,
                        target: Apps, st: Standing, p: Prefix)
    requires VersionsKnown(x, st) && AppsDone(x, m, diffs, p, Fresh) && p !in st.used && Collected(m, y)
    ensures VersionsKnown(y, Standing(target, p, st.used + {p}))
  {
    forall a | a in y ensures y[a].versions.Keys <= st.used + {p} && (p in y[a].versions ==> y[a].current == Some(p)) {
      assert AppDone(x, m, diffs, p, Fresh, a) && CollectedApp(m[a], y[a]);
    }
  }

  lemma RevertKeepsKnown(x: map<Name, AppDir>, m: map<Name, AppDir>, y: map<Name, AppDir>, diffs: map<Name, AppDiff>,
                         back: map<Name, AppDiff>, st: Standing, p: Prefix, q: Prefix)
    requires VersionsKnown(x, st) && AppsDone(x, m, diffs, p, Fresh) && p !in st.used && q in st.used && q == st.q
    requires diffs.Keys == back.Keys && AppsDone(m, y, back, q, Reuse)
    ensures VersionsKnown(y, st.(used := st.used + {p}))
  {
    forall a | a in y
      ensures y[a].versions.Keys <= st.used + {p} && (st.q in y[a].versions ==> y[a].current == Some(st.q))
    {
      assert AppDone(x, m, diffs, p, Fresh, a) && AppDone(m, y, back, q, Reuse, a);
    }
  }

  /** After one deploy the host is at the new commit if it completed, and still at the old one if it was rolled back. */
  lemma {:induction false} RoundStands(x: Snapshot, y: Snapshot, place: Place, st: Standing, r: Round)
    requires Stands(x, place, st) && IsRound(x, y, place, st, r)
    ensures Stands(y, place, AfterRound(st, r)) && ManagedAre(y.tree, place.appsDir, place.roots, r.d)
  {
    hide IsChange, AtCommit, LinksPlaced, NoneIsStranded, Outside, ManagedAre, ManagedAreaOnly, AppsDone, Collected,
      TreeDone, TreeStopped, VersionsKnown, VersionsComplete;
    match r
    case Completes(target, p, ch, d) =>
      var m :| AppsDone(x.apps, m, ch.diffs, p, Fresh) && Collected(m, y.apps);
      DeployCompletes(x, y, place, st.apps, target, ch, p, d);
      FreshKeepsKnown(x.apps, m, y.apps, ch.diffs, target, st, p);
    case Reverts(target, p, ch, d, mid, back, q) =>
      KnownIsComplete(x, place, st, q);
      RollbackRestores(x, mid, y, place, st.apps, target, ch, back, p, q, d);
      BackTouches(ch, back, place, st.apps, target, []);
      if st.apps == map[] {
        NoAppsKnown(y, place, AfterRound(st, r));
      } else {
        RevertKeepsKnown(x.apps, mid.apps, y.apps, ch.diffs, back.diffs, st, p, q);
      }
  }

  lemma NoAppsKnown(y: Snapshot, place: Place, st: Standing)
    requires AtCommit(y, place, st.apps) && st.apps == map[]
    ensures VersionsKnown(y.apps, st)
  {
  }

  ghost predicate AreRounds(xs: seq<Snapshot>, place: Place, st: Standing, rs: seq<Round>)
    decreases |rs|
  {
    && |xs| == |rs| + 1
    && (rs != [] ==>
        IsRound(xs[0], xs[1], place, st, rs[0]) && AreRounds(xs[1..], place, AfterRound(st, rs[0]), rs[1..]))
  }

  function AfterRounds(st: Standing, rs: seq<Round>): Standing
    decreases |rs|
  {
    if rs == [] then st else AfterRounds(AfterRound(st, rs[0]), rs[1..])
  }

  /**
    Over any sequence of deploys, completed or rolled back, that no crash hits,
    the host stays exactly at the commit of the last completed one: what a
    rollback relies on always holds again.
   */
  lemma {:induction false} RoundsStand(xs: seq<Snapshot>, place: Place, st: Standing, rs: seq<Round>)
    requires AreRounds(xs, place, st, rs) && Stands(xs[0], place, st)
    ensures Stands(xs[|rs|], place, AfterRounds(st, rs))
    decreases |rs|
  {
    hide IsRound, Stands;
    if rs != [] {
      RoundStands(xs[0], xs[1], place, st, rs[0]);
      RoundsStand(xs[1..], place, AfterRound(st, rs[0]), rs[1..]);
    }
  }
}
