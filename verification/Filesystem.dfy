/**
  The host's filesystem outside the apps directory, as a map from absolute
  paths to nodes, with the primitive operations that a deploy uses. Every
  primitive can fail for reasons of its own; a crash is a failure after which
  nothing else succeeds.
 */
module Filesystem {
  import opened Activation
  import opened Commands
  import opened Wrappers
  import opened Paths
  import opened Trees

  datatype FsNode = RegularFile(content: Content) | Directory | Link(target: Path)

  type Fs = map<Path, FsNode>

  /** Everything but the root is an entry of a real directory. */
  ghost predicate WellFormed(fs: Fs) {
    && [ROOT] in fs && fs[[ROOT]].Directory?
    && forall p :: p in fs ==> p != [] && p[0] == ROOT && (|p| > 1 ==> Parent(p) in fs && fs[Parent(p)].Directory?)
  }

  /** What has something below it is a directory. */
  lemma {:induction false} OnlyDirsHaveEntries(fs: Fs, p: Path, q: Path)
    requires WellFormed(fs) && q in fs && p != [] && p < q
    ensures IsDir(fs, p)
    decreases |q|
  {
    if p != Parent(q) {
      assert p < Parent(q);
      OnlyDirsHaveEntries(fs, p, Parent(q));
    }
  }

  predicate IsDir(fs: Fs, p: Path) {
    p in fs && fs[p].Directory?
  }

  /** `p` lies strictly below `base`. */
  predicate Below(p: Path, base: Path) {
    base < p
  }

  function Prefixes(p: Path): set<Path> {
    set k | 0 < k <= |p| :: p[..k]
  }

  /** Nothing but directories on the way down to `p`, as far as it is there: otherwise reading it is an error. */
  predicate Enterable(fs: Fs, p: Path) {
    forall q :: q in Prefixes(p) && q in fs ==> fs[q].Directory?
  }

  lemma InPrefixes(p: Path, q: Path)
    ensures q in Prefixes(p) <==> q != [] && q <= p
  {
    if q != [] && q <= p {
      assert q == p[..|q|];
    }
  }

  /** An empty directory. */
  predicate Emptied(fs: Fs, p: Path) {
    IsDir(fs, p) && forall q :: q in fs ==> !Below(q, p)
  }

  /** All missing directories down to `p` added. */
  function WithDirs(fs: Fs, p: Path): Fs {
    fs + map q | q in Prefixes(p) && q !in fs :: Directory
  }

  lemma PrefixesStep(p: Path, k: nat)
    requires k < |p|
    ensures Prefixes(p[..k + 1]) == Prefixes(p[..k]) + {p[..k + 1]}
  {
    var longer, shorter := Prefixes(p[..k + 1]), Prefixes(p[..k]);
    forall q ensures q in longer <==> q in shorter || q == p[..k + 1] {
      InPrefixes(p[..k + 1], q);
      InPrefixes(p[..k], q);
      if q != [] && q <= p[..k + 1] && q != p[..k + 1] {
        assert |q| <= k;
        assert q == p[..|q|] && q == p[..k][..|q|];
      }
      if q != [] && q <= p[..k] {
        assert q == p[..k + 1][..|q|];
      }
    }
  }

  lemma WithDirsStep(fs: Fs, p: Path, k: nat)
    requires k < |p|
    ensures WithDirs(fs, p[..k + 1]) ==
              (if p[..k + 1] in fs then WithDirs(fs, p[..k]) else WithDirs(fs, p[..k])[p[..k + 1] := Directory])
  {
    PrefixesStep(p, k);
  }

  /** The next level of `p` extends the directories above it. */
  lemma LevelFacts(fs: Fs, p: Path, k: nat)
    requires k < |p|
    ensures p[..k + 1] != [] && p[..k + 1][0] == p[0] && p[..k + 1] in Prefixes(p)
    ensures k > 0 ==> Parent(p[..k + 1]) in Prefixes(p[..k])
    ensures Prefixes(p[..k + 1]) == Prefixes(p[..k]) + {p[..k + 1]}
    ensures p[..k + 1] in fs <==> p[..k + 1] in WithDirs(fs, p[..k])
    ensures p[..k + 1] in fs ==> WithDirs(fs, p[..k])[p[..k + 1]] == fs[p[..k + 1]]
    ensures WithDirs(fs, p[..k + 1]) ==
              (if p[..k + 1] in fs then WithDirs(fs, p[..k]) else WithDirs(fs, p[..k])[p[..k + 1] := Directory])
  {
    WithDirsStep(fs, p, k);
    PrefixesStep(p, k);
    InPrefixes(p[..k], p[..k + 1]);
    InPrefixes(p[..k], Parent(p[..k + 1]));
    InPrefixes(p, p[..k + 1]);
  }

  /** An app's version directories by oid prefix, and the version that each symlink points to. */
  type Prefix = nat

  datatype AppDir = AppDir(versions: map<Prefix, Tree>, current: Option<Prefix>, previous: Option<Prefix>,
                           next: Option<Prefix>) {
    function Get(l: VersionLink): Option<Prefix> {
      match l
      case Current => current
      case Previous => previous
      case Next => next
    }

    function With(l: VersionLink, target: Option<Prefix>): AppDir {
      match l
      case Current => this.(current := target)
      case Previous => this.(previous := target)
      case Next => this.(next := target)
    }
  }

  /** The symlinks in an app's directory. */
  datatype VersionLink = Current | Previous | Next

  /** All that differs is what version `p` of the app holds. */
  ghost predicate OnlyVersion(before: map<Name, AppDir>, after: map<Name, AppDir>, app: Name, p: Prefix) {
    && app in before && app in after && p in after[app].versions
    && after == before[app := before[app].(versions := before[app].versions[p := after[app].versions[p]])]
  }

  class HostFs {
    /** Where `systemctl enable` may write. */
    const enablement: iset<Path>
    /** What each wait for restarted units observes. */
    const watches: nat -> Watch
    var apps: map<Name, AppDir>
    var tree: Fs
    /** How often a primitive has failed for reasons of its own. */
    ghost var faults: nat
    /** How often reading a version link has failed. */
    ghost var misreads: nat
    /** The actions of all activations, with their outcomes. */
    ghost var ran: seq<Ran>
    /** How many waits there were. */
    var watched: nat

    constructor (enablement: iset<Path>, watches: nat -> Watch, apps: map<Name, AppDir>, tree: Fs)
      ensures this.enablement == enablement && this.watches == watches && this.apps == apps && this.tree == tree
      ensures faults == 0 && misreads == 0 && ran == [] && watched == 0
    {
      this.enablement, this.watches, this.apps, this.tree := enablement, watches, apps, tree;
      this.faults, this.misreads, this.ran, this.watched := 0, 0, [], 0;
    }

    /** Every restart job ends some time. */
    ghost predicate JobsEnd() {
      forall i :: watches(i).JobsEnd()
    }

    /** Run a command. */
    method Execute(a: Action) returns (good: bool)
      modifies this`ran, this`faults
      ensures ran == old(ran) + [Ran(a, good)]
      ensures faults == old(faults) + if Ran(a, good).Passes() then 0 else 1
    {
      good := *;
      ran := ran + [Ran(a, good)];
      faults := faults + if Ran(a, good).Passes() then 0 else 1;
    }

    /** A primitive may fail for reasons of its own; such faults are counted. */
    method MayFail() returns (fails: bool)
      modifies this`faults
      ensures faults == old(faults) + if fails then 1 else 0
    {
      fails := *;
      faults := faults + if fails then 1 else 0;
    }

    method RemoveFile(p: Path) returns (ok: bool)
      requires WellFormed(tree)
      modifies this`tree, this`faults
      ensures WellFormed(tree)
      ensures ok ==> p in old(tree) && !old(tree)[p].Directory? && tree == old(tree) - {p}
      ensures !ok ==> tree == old(tree)
      ensures old(faults) <= faults
      ensures !ok ==> old(faults) < faults || p !in old(tree) || old(tree)[p].Directory?
    {
      var fails := MayFail();
      ok := !fails && p in tree && !tree[p].Directory?;
      if ok {
        tree := tree - {p};
      }
    }

    /** `symlink`: an error if something is there already, or if the parent is not a directory. */
    method Symlink(target: Path, p: Path) returns (ok: bool, occupied: bool)
      requires WellFormed(tree)
      modifies this`tree, this`faults
      ensures WellFormed(tree)
      ensures ok ==> p !in old(tree) && |p| > 1 && IsDir(old(tree), Parent(p)) && tree == old(tree)[p := Link(target)]
      ensures !ok ==> tree == old(tree)
      ensures occupied ==> !ok && p in tree
      ensures old(faults) <= faults
      ensures !ok ==> old(faults) < faults || p in old(tree) || |p| <= 1 || !IsDir(old(tree), Parent(p))
      ensures !ok && p in old(tree) ==> old(faults) < faults || occupied
    {
      var fails := MayFail();
      ok := !fails && p !in tree && |p| > 1 && IsDir(tree, Parent(p));
      occupied := !fails && p in tree;
      if ok {
        assert p[0] == Parent(p)[0];
        tree := tree[p := Link(target)];
      }
    }

    /** One level of `create_dir_all`: nothing to do for a directory, an error for anything else that is there. */
    method CreateLevel(p: Path) returns (ok: bool)
      requires WellFormed(tree) && p != [] && p[0] == ROOT && (|p| > 1 ==> IsDir(tree, Parent(p)))
      modifies this`tree, this`faults
      ensures WellFormed(tree)
      ensures tree == old(tree) || (p !in old(tree) && tree == old(tree)[p := Directory])
      ensures ok ==> IsDir(tree, p)
      ensures !ok ==> tree == old(tree)
      ensures old(faults) <= faults && (ok ==> faults == old(faults))
      ensures !ok ==> old(faults) < faults || (p in old(tree) && !old(tree)[p].Directory?)
    {
      if p in tree {
        return tree[p].Directory?;
      }
      var fails := MayFail();
      if fails {
        return false;
      }
      tree := tree[p := Directory];
      return true;
    }

    /** `create_dir_all`: creates what is missing from the top down; stops at anything that is not a directory. */
    method CreateDirAll(p: Path) returns (ok: bool)
      requires WellFormed(tree) && p != [] && p[0] == ROOT
      modifies this`tree, this`faults
      ensures WellFormed(tree)
      ensures ok ==> tree == WithDirs(old(tree), p) && forall q :: q in Prefixes(p) ==> IsDir(tree, q)
      ensures exists k :: 0 <= k <= |p| && tree == WithDirs(old(tree), p[..k])
      ensures old(faults) <= faults && (ok ==> faults == old(faults))
      ensures !ok ==> old(faults) < faults || exists q :: q in Prefixes(p) && q in old(tree) && !old(tree)[q].Directory?
    {
      ghost var before := tree;
      assert Prefixes(p[..0]) == {};
      for k := 0 to |p|
        invariant tree == WithDirs(before, p[..k])
        invariant forall q :: q in Prefixes(p[..k]) ==> IsDir(tree, q)
        invariant WellFormed(tree)
        invariant faults == old(faults)
      {
        var q := p[..k + 1];
        LevelFacts(before, p, k);
        hide WithDirs, Prefixes, WellFormed;
        ok := CreateLevel(q);
        if !ok {
          return;
        }
      }
      assert p[..|p|] == p;
      return true;
    }

    /** `set_permissions`; modes are not part of the model. */
    method SetPermissions(p: Path) returns (ok: bool)
      modifies this`faults
      ensures old(faults) <= faults
      ensures ok <==> faults == old(faults) && p in tree
    {
      var fails := MayFail();
      ok := !fails && p in tree;
    }

    /** `remove_dir`: only an empty directory. */
    method RemoveDir(p: Path) returns (ok: bool)
      requires WellFormed(tree) && |p| > 1
      modifies this`tree, this`faults
      ensures WellFormed(tree)
      ensures ok ==> IsDir(old(tree), p) && (forall q :: q in old(tree) ==> !Below(q, p)) && tree == old(tree) - {p}
      ensures !ok ==> tree == old(tree)
      ensures old(faults) <= faults && (ok ==> faults == old(faults))
      ensures !ok && Emptied(tree, p) ==> old(faults) < faults
    {
      var fails := MayFail();
      ok := !fails && IsDir(tree, p) && forall q :: q in tree ==> !Below(q, p);
      if ok {
        forall q | q in tree && |q| > 1 ensures Parent(q) != p {
          assert Parent(q) < q;
        }
        tree := tree - {p};
      }
    }

    /** `read_link(..).ok()`: a failure reads as no link. */
    method ReadLink(link: Option<Prefix>) returns (target: Option<Prefix>)
      modifies this`faults, this`misreads
      ensures || (target == link && misreads == old(misreads) && faults == old(faults))
              || (target == None && link.Some? && faults == old(faults) + 1 && misreads == old(misreads) + 1)
    {
      target := link;
      if link.Some? {
        var fails := MayFail();
        if fails {
          target, misreads := None, misreads + 1;
        }
      }
    }

    // Operations below the apps directory. Removing and writing a directory
    // are not atomic: a failure leaves any contents behind.

    method RemoveVersion(app: Name, p: Prefix) returns (ok: bool)
      requires app in apps && p in apps[app].versions
      modifies this`apps, this`faults
      ensures faults == old(faults) + if ok then 0 else 1
      ensures ok ==> apps == old(apps)[app := old(apps)[app].(versions := old(apps)[app].versions - {p})]
      ensures !ok ==> OnlyVersion(old(apps), apps, app, p)
    {
      var fails := MayFail();
      var dir := apps[app];
      ok := !fails;
      if ok {
        apps := apps[app := dir.(versions := dir.versions - {p})];
      } else {
        var left: Tree := *;
        apps := apps[app := dir.(versions := dir.versions[p := left])];
      }
    }

    /** `create_dir_all` of a version directory that is not there; also makes the app's directory. */
    method CreateVersion(app: Name, p: Prefix) returns (ok: bool)
      requires app in apps ==> p !in apps[app].versions
      modifies this`apps, this`faults
      ensures faults == old(faults) + if ok then 0 else 1
      ensures var dir := DirOf(old(apps), app);
              && (ok ==> apps == old(apps)[app := dir.(versions := dir.versions[p := EMPTY_TREE])])
              && (!ok ==> apps == old(apps) || apps == old(apps)[app := dir])
    {
      var dir := DirOf(apps, app);
      var fails := MayFail();
      ok := !fails;
      if ok {
        apps := apps[app := dir.(versions := dir.versions[p := EMPTY_TREE])];
      } else {
        var madeAppDir := *;
        if madeAppDir {
          apps := apps[app := dir];
        }
      }
    }

    /** Check a tree out into an empty version directory. */
    method WriteVersion(app: Name, p: Prefix, t: Tree) returns (ok: bool)
      requires app in apps && p in apps[app].versions && apps[app].versions[p] == EMPTY_TREE
      modifies this`apps, this`faults
      ensures faults == old(faults) + if ok then 0 else 1
      ensures ok ==> apps == old(apps)[app := old(apps)[app].(versions := old(apps)[app].versions[p := t])]
      ensures OnlyVersion(old(apps), apps, app, p)
    {
      var fails := MayFail();
      var written: Tree := *;
      ok := !fails;
      if ok {
        written := t;
      }
      apps := apps[app := apps[app].(versions := apps[app].versions[p := written])];
    }

    /** `symlink` to a version directory; an error if the link is there already. */
    method LinkVersion(app: Name, p: Prefix, l: VersionLink) returns (ok: bool)
      requires app in apps
      modifies this`apps, this`faults
      ensures apps == if ok then old(apps)[app := old(apps)[app].With(l, Some(p))] else old(apps)
      ensures old(faults) <= faults && (ok <==> faults == old(faults) && old(apps)[app].Get(l).None?)
    {
      var fails := MayFail();
      ok := !fails && apps[app].Get(l).None?;
      if ok {
        apps := apps[app := apps[app].With(l, Some(p))];
      }
    }

    /** `remove_file` of a version link. */
    method UnlinkVersion(app: Name, l: VersionLink) returns (ok: bool)
      requires app in apps
      modifies this`apps, this`faults
      ensures apps == if ok then old(apps)[app := old(apps)[app].With(l, None)] else old(apps)
      ensures old(faults) <= faults && (ok <==> faults == old(faults) && old(apps)[app].Get(l).Some?)
    {
      var fails := MayFail();
      ok := !fails && apps[app].Get(l).Some?;
      if ok {
        apps := apps[app := apps[app].With(l, None)];
      }
    }

    /** `rename` of a version link over another one, there or not. */
    method RenameLink(app: Name, l: VersionLink, over: VersionLink) returns (ok: bool)
      requires app in apps && l != over
      modifies this`apps, this`faults
      ensures apps == if ok then old(apps)[app := old(apps)[app].With(over, old(apps)[app].Get(l)).With(l, None)]
                      else old(apps)
      ensures old(faults) <= faults && (ok <==> faults == old(faults) && old(apps)[app].Get(l).Some?)
    {
      var fails := MayFail();
      ok := !fails && apps[app].Get(l).Some?;
      if ok {
        apps := apps[app := apps[app].With(over, apps[app].Get(l)).With(l, None)];
      }
    }

    /** `remove_dir_all` of an app's directory. */
    method RemoveAppDir(app: Name) returns (ok: bool)
      requires app in apps
      modifies this`apps, this`faults
      ensures faults == old(faults) + if ok then 0 else 1
      ensures ok ==> apps == old(apps) - {app}
      ensures !ok ==> app in apps && apps == old(apps)[app := apps[app]]
    {
      var fails := MayFail();
      ok := !fails;
      if ok {
        apps := apps - {app};
      } else {
        var left: AppDir := *;
        apps := apps[app := left];
      }
    }
  }

  const NO_DIR := AppDir(map[], None, None, None)

  /** An app's directory; an empty one if it is not there. */
  function DirOf(apps: map<Name, AppDir>, app: Name): AppDir {
    if app in apps then apps[app] else NO_DIR
  }
}
