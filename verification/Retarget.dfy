/**
  Deploying a different tree after an attempt that did not complete and was not
  rolled back. Both deploys are diffs from the commit that is still current.
 */
module Retarget {
  import opened Wrappers
  import opened Paths
  import opened Trees
  import opened Plan
  import opened Desired
  import opened Filesystem
  import opened ManifestLinks
  import opened Checkout
  import opened HostState
  import opened HostApply
  import opened Recovery

  // ----- Apps -----

  /** However much of the first deploy was done, the second one that completes arrives at its apps. */
  ghost predicate AppsLand(base: map<Name, AppDir>, first: map<Name, AppDiff>, p: Prefix, second: map<Name, AppDiff>,
                           q: Prefix, target: Apps) {
    forall x, y :: AppsInterrupted(base, x, first, p) && AppsDone(x, y, second, q, Fresh) ==> AppsAre(y, target)
  }

  /** It does exactly when it changes every app that the first one changes. */
  lemma {:induction false} OtherAppsLand(base: map<Name, AppDir>, current: Apps, tried: Apps, target: Apps,
                                         first: map<Name, AppDiff>, second: map<Name, AppDiff>, p: Prefix, q: Prefix)
    requires AppsAre(base, current) && IsAppDiffs(current, tried, first) && IsAppDiffs(current, target, second)
    ensures AppsLand(base, first, p, second, q, target) <==> first.Keys <= second.Keys
  {
    hide AppsAre, AppsDone, AppsInterrupted, IsAppDiffs;
    if first.Keys <= second.Keys {
      forall x, y | AppsInterrupted(base, x, first, p) && AppsDone(x, y, second, q, Fresh) ensures AppsAre(y, target) {
        InterruptedIsPartly(base, x, first, p);
        MorePartly(base, x, first, second);
        FreshCheckoutArrives(x, y, current, target, second, q);
      }
    }
    forall a | a in first && a !in second ensures !AppsLand(base, first, p, second, q, target) {
      LeftBehind(base, current, tried, target, first, second, p, q, a);
    }
  }

  lemma MorePartly(x: map<Name, AppDir>, y: map<Name, AppDir>, diffs: map<Name, AppDiff>, more: map<Name, AppDiff>)
    requires AppsPartly(x, y, diffs) && diffs.Keys <= more.Keys
    ensures AppsPartly(x, y, more)
  {
  }

  /** The attempt got as far as one app. */
  ghost function OneDone(base: map<Name, AppDir>, diffs: map<Name, AppDiff>, p: Prefix, a: Name): map<Name, AppDir>
    requires a in diffs
  {
    if diffs[a].Remove? then base - {a} else base[a := CheckedOut(DirOf(base, a), p, diffs[a].After(), Fresh)]
  }

  ghost function AllDone(x: map<Name, AppDir>, diffs: map<Name, AppDiff>, q: Prefix): map<Name, AppDir> {
    map a | a in x.Keys + diffs.Keys && !(a in diffs && diffs[a].Remove?) ::
      if a in diffs then CheckedOut(DirOf(x, a), q, diffs[a].After(), Fresh) else x[a]
  }

  lemma AllDoneIsDone(x: map<Name, AppDir>, diffs: map<Name, AppDiff>, q: Prefix)
    ensures AppsDone(x, AllDone(x, diffs, q), diffs, q, Fresh)
  {
    hide CheckedOut;
  }

  lemma OneDoneIsInterrupted(base: map<Name, AppDir>, diffs: map<Name, AppDiff>, p: Prefix, a: Name)
    requires a in diffs
    ensures AppsInterrupted(base, OneDone(base, diffs, p, a), diffs, p)
  {
    var x := OneDone(base, diffs, p, a);
    forall b ensures AppPartly(base, x, diffs, p, b) {
      if b == a {
        DonePartly(base, x, diffs, p, Fresh, a);
      } else {
        assert SameApp(base, x, b);
      }
    }
  }

  /** An app that only the first deploy changes keeps what that deploy made of it. */
  lemma LeftBehind(base: map<Name, AppDir>, current: Apps, tried: Apps, target: Apps, first: map<Name, AppDiff>,
                   second: map<Name, AppDiff>, p: Prefix, q: Prefix, a: Name)
    requires AppsAre(base, current) && IsAppDiffs(current, tried, first) && IsAppDiffs(current, target, second)
    requires a in first && a !in second
    ensures !AppsLand(base, first, p, second, q, target)
  {
    var x := OneDone(base, first, p, a);
    var y := AllDone(x, second, q);
    OneDoneIsInterrupted(base, first, p, a);
    AllDoneIsDone(x, second, q);
    assert a in first <==> Differs(current, tried, a);
    assert a in second <==> Differs(current, target, a);
    assert IsAppDiff(current, tried, a, first[a]);
    hide AppsInterrupted, AppsDone, IsAppDiffs;
    assert !AppsAre(y, target);
  }

  // ----- Manifest links -----

  /** Where the attempt's links go there are directories to put them in, and none in their place. */
  ghost predicate Placeable(base: Fs, c: SymlinkChanges<Path>) {
    forall l :: Touched(c, l) ==> |l| > 1 && IsDir(base, Parent(l)) && !IsDir(base, l)
  }

  /** However much of the first link changes was done, the second ones end as if none was. */
  ghost predicate LinksLand(base: Fs, first: SymlinkChanges<Path>, second: SymlinkChanges<Path>) {
    forall x :: LinksPartly(base, x, first) ==> LinksRun(x, second) == LinksRun(base, second)
  }

  /** They do exactly when they touch every link that the first ones touch. */
  lemma {:induction false} OtherLinksLand(base: Fs, appsDir: Path, current: Apps, tried: Apps, target: Apps,
                                          diffs: map<Name, AppDiff>, others: map<Name, AppDiff>,
                                          first: SymlinkChanges<Path>, second: SymlinkChanges<Path>)
    requires IsAppDiffs(current, tried, diffs) && AggregatesLinks(first, appsDir, diffs)
    requires IsAppDiffs(current, target, others) && AggregatesLinks(second, appsDir, others)
    requires AllAgree(appsDir, target) && LinksAre(base, appsDir, current) && WellFormed(base) && Placeable(base, first)
    ensures LinksLand(base, first, second) <==> forall l :: Touched(first, l) ==> Touched(second, l)
  {
    AgreeingFunctional(current, target, others, appsDir, second);
    hide IsAppDiffs, AggregatesLinks, AllAgree, LinksAre, WellFormed, Functional, LinksPartly, LinksRun, Touched;
    hide Placeable;
    if forall l :: Touched(first, l) ==> Touched(second, l) {
      forall x | LinksPartly(base, x, first) ensures LinksRun(x, second) == LinksRun(base, second) {
        forall l ensures SameAt(LinksRun(x, second), LinksRun(base, second), l) {
          LandsAt(base, x, first, second, l);
        }
        SameEverywhere(LinksRun(x, second), LinksRun(base, second));
      }
    }
    forall l | Touched(first, l) && !Touched(second, l) ensures !LinksLand(base, first, second) {
      TouchedInBase(base, appsDir, current, tried, diffs, first, l);
      LinkLeftBehind(base, first, second, l);
    }
  }

  lemma SameEverywhere(x: Fs, y: Fs)
    requires forall l :: SameAt(x, y, l)
    ensures x == y
  {
    assert forall l :: l in x <==> l in y by {
      forall l ensures l in x <==> l in y { assert SameAt(x, y, l); }
    }
    forall l | l in x ensures x[l] == y[l] {
      assert SameAt(x, y, l);
    }
  }

  lemma LandsAt(base: Fs, x: Fs, first: SymlinkChanges<Path>, second: SymlinkChanges<Path>, l: Path)
    requires Functional(second.change) && Functional(second.create)
    requires LinksPartly(base, x, first) && (Touched(first, l) ==> Touched(second, l))
    ensures SameAt(LinksRun(x, second), LinksRun(base, second), l)
  {
    hide LinksRun, Functional, Touched, WellFormed;
    if Touched(second, l) {
      SameChangesRefl(second);
      LinksRunTouched(x, base, second, second, l);
    } else {
      LinksRunUntouched(x, second, l);
      LinksRunUntouched(base, second, l);
    }
  }

  /** A touched link that is not there is one that the changes put there. */
  lemma TouchedInBase(base: Fs, appsDir: Path, current: Apps, tried: Apps, diffs: map<Name, AppDiff>,
                      c: SymlinkChanges<Path>, l: Path)
    requires IsAppDiffs(current, tried, diffs) && AggregatesLinks(c, appsDir, diffs) && LinksAre(base, appsDir, current)
    requires Touched(c, l)
    ensures l in base || exists s :: (l, s) in c.change || (l, s) in c.create
  {
    hide IsAppDiffs, AggregatesLinks, Links, ToPath;
    LinksOfDesired(appsDir, current);
    hide LinksOf;
    RemovePaths(current, tried, diffs, appsDir, c, l);
    if l in c.remove {
      var a, k :| ChangeDeclares(diffs, current, a, k, l) && !Declares(tried, a, k, l);
      assert Declares(current, a, k, l);
    }
  }

  lemma LinkLeftBehind(base: Fs, first: SymlinkChanges<Path>, second: SymlinkChanges<Path>, l: Path)
    requires WellFormed(base) && Placeable(base, first) && Functional(second.change) && Functional(second.create)
    requires Touched(first, l) && !Touched(second, l)
    requires l in base || exists s :: (l, s) in first.change || (l, s) in first.create
    ensures !LinksLand(base, first, second)
  {
    var x := MovedAt(base, first, l);
    LinksRunUntouched(x, second, l);
    LinksRunUntouched(base, second, l);
  }

  /** The attempt got as far as one link. */
  lemma MovedAt(base: Fs, c: SymlinkChanges<Path>, l: Path) returns (x: Fs)
    requires WellFormed(base) && Placeable(base, c) && Touched(c, l)
    requires l in base || exists s :: (l, s) in c.change || (l, s) in c.create
    ensures LinksPartly(base, x, c) && (l in x <==> l !in base)
  {
    if l in base {
      x := base - {l};
      forall p | p in x && |p| > 1 ensures Parent(p) in x {
        assert Parent(p) != l;
      }
    } else {
      var s :| (l, s) in c.change || (l, s) in c.create;
      x := base[l := Link(s)];
      assert l[0] == Parent(l)[0];
    }
  }

  // ----- The host -----

  /**
    So if the second deploy changes every app and touches every link that the
    attempt does, it takes the host exactly to its commit.
   */
  lemma {:induction false} OtherTreeArrives(base: Snapshot, x: Snapshot, y: Snapshot, place: Place, current: Apps,
                                            tried: Apps,
                                            target: Apps, first: Change, second: Change, q: Prefix, d: DesiredState)
    requires IsChange(first, place, current, tried) && IsChange(second, place, current, target)
    requires AtCommit(base, place, current)
    requires Attempted(base, x, place, first) && Deployed(x, y, place, second, q, d)
    requires first.diffs.Keys <= second.diffs.Keys && forall l :: Touched(first.links, l) ==> Touched(second.links, l)
    requires LinksPlaced(place, target) && NoneIsStranded(current, target)
    ensures AtCommit(y, place, target) && ManagedAre(y.tree, place.appsDir, place.roots, d)
  {
    MorePartly(base.apps, x.apps, first.diffs, second.diffs);
    TreeMorePartly(base.tree, x.tree, place.roots, first.links, second.links);
    LinksArrive(base.tree, x.tree, place, current, target, second);
    hide AppsDone, Collected, AppsAre, AppsPartly, TreePartly, ForeignKept, ManagedAreaOnly, ManagedAre, LinksRun;
    hide IsAppDiffs, AggregatesLinks;
    hide AllAgree, LinksOutside, NoneIsStranded, LinksAre, Touched, RootsEnterable;
    var m :| AppsDone(x.apps, m, second.diffs, q, Fresh) && Collected(m, y.apps);
    FreshCheckoutArrives(x.apps, m, current, target, second.diffs, q);
    CollectedKeepsApps(m, y.apps, target);
    LinksStay(LinksRun(x.tree, second.links), y.tree, place.appsDir, place.roots, target);
  }

  lemma TreeMorePartly(base: Fs, x: Fs, roots: Roots, c: SymlinkChanges<Path>, d: SymlinkChanges<Path>)
    requires TreePartly(base, x, roots, c) && forall l :: Touched(c, l) ==> Touched(d, l)
    ensures TreePartly(base, x, roots, d)
  {
    hide Touched, WellFormed, Outside, Leading;
  }

  lemma LinksArrive(base: Fs, x: Fs, place: Place, current: Apps, target: Apps, ch: Change)
    requires IsChange(ch, place, current, target) && TreePartly(base, x, place.roots, ch.links)
    requires LinksAre(base, place.appsDir, current) && LinksPlaced(place, target) && NoneIsStranded(current, target)
    ensures LinksAre(LinksRun(x, ch.links), place.appsDir, target)
  {
    var before, after := LinksOf(place.appsDir, current), LinksOf(place.appsDir, target);
    LinksOfDesired(place.appsDir, current);
    LinksOfDesired(place.appsDir, target);
    AgreeingFunctional(current, target, ch.diffs, place.appsDir, ch.links);
    hide LinksOf, IsAppDiffs, AggregatesLinks, AllAgree, NoneIsStranded, LinksRun, Functional, Touched, WellFormed;
    hide Leading, Outside;
    LinksConverge(current, target, ch.diffs, place.appsDir, ch.links, base, before, after);
    forall l | l in after ensures l in LinksRun(x, ch.links) && LinksRun(x, ch.links)[l] == Link(after[l]) {
      DeclaredAt(after, place.appsDir, target, l);
      if Touched(ch.links, l) {
        SameChangesRefl(ch.links);
        LinksRunTouched(x, base, ch.links, ch.links, l);
      } else {
        LinksRunUntouched(x, ch.links, l);
        LinksRunUntouched(base, ch.links, l);
      }
    }
  }
}
