/**
  Managed directories: collecting the symlinks that go through an app's
  `current`, and making them exactly the desired ones.
 */
module ManagedLinks {
  import opened Wrappers
  import opened Paths
  import opened Filesystem

  /** Links that Deptool creates go through `current`; enablement links point into a version directory. */
  predicate PointsThroughCurrent(appsDir: Path, target: Path) {
    && appsDir <= target
    && |target| > |appsDir| + 1
    && target[|appsDir| + 1] == "current"
  }

  /** Exactly the targets at or below some app's `current`. */
  lemma {:induction false} ThroughCurrentIff(appsDir: Path, target: Path)
    ensures PointsThroughCurrent(appsDir, target) <==> exists app, rel :: target == appsDir + [app, "current"] + rel
  {
    if PointsThroughCurrent(appsDir, target) {
      var n := |appsDir|;
      assert target == appsDir + [target[n], "current"] + target[n + 2..];
    }
  }

  predicate IsManaged(fs: Fs, appsDir: Path, p: Path) {
    p in fs && fs[p].Link? && PointsThroughCurrent(appsDir, fs[p].target)
  }

  /** The names, relative to `root`, of everything below it. */
  function NamesBelow(fs: Fs, root: Path): set<Path> {
    set p | p in fs && Below(p, root) :: p[|root|..]
  }

  /** The managed links below `root`, by their name relative to it. */
  function Managed(fs: Fs, appsDir: Path, root: Path): map<Path, Path> {
    map n | n in NamesBelow(fs, root) && IsManaged(fs, appsDir, root + n) :: fs[root + n].target
  }

  lemma ManagedAt(fs: Fs, appsDir: Path, root: Path, n: Path)
    ensures n in Managed(fs, appsDir, root) <==> n != [] && IsManaged(fs, appsDir, root + n)
    ensures n in Managed(fs, appsDir, root) ==> fs[root + n] == Link(Managed(fs, appsDir, root)[n])
  {
  }

  // ----- Collecting -----

  function PathsBelow(fs: Fs, dir: Path): set<Path> {
    set p | p in fs && Below(p, dir)
  }

  /** The names in a directory. */
  function Entries(fs: Fs, dir: Path): set<Name> {
    set p | p in PathsBelow(fs, dir) && |p| == |dir| + 1 :: p[|dir|]
  }

  lemma EntryAt(fs: Fs, dir: Path, e: Name)
    ensures e in Entries(fs, dir) <==> dir + [e] in fs
  {
    if dir + [e] in fs {
      assert (dir + [e])[|dir|] == e;
      assert dir + [e] in PathsBelow(fs, dir);
    }
    if e in Entries(fs, dir) {
      var p :| p in PathsBelow(fs, dir) && |p| == |dir| + 1 && p[|dir|] == e;
      assert p == dir + [e];
    }
  }

  /** The names in `m` that extend `prefix` by way of one of `via`. */
  ghost function Through(m: map<Path, Path>, prefix: Path, via: set<Name>): map<Path, Path> {
    map n | n in m && prefix < n && n[|prefix|] in via :: m[n]
  }

  ghost function Extending(m: map<Path, Path>, prefix: Path): map<Path, Path> {
    map n | n in m && prefix < n :: m[n]
  }

  /** A managed name by way of entry `e` is that entry, or lies below it. */
  lemma NameVia(fs: Fs, appsDir: Path, root: Path, prefix: Path, n: Path)
    requires WellFormed(fs) && root != [] && n in Managed(fs, appsDir, root) && prefix < n
    ensures var first := prefix + [n[|prefix|]];
            && first <= n && root + prefix + [n[|prefix|]] in fs
            && (n != first ==> fs[root + prefix + [n[|prefix|]]].Directory?)
            && n != [] && IsManaged(fs, appsDir, root + n) && fs[root + n] == Link(Managed(fs, appsDir, root)[n])
  {
    ManagedAt(fs, appsDir, root, n);
    hide Managed, WellFormed, PointsThroughCurrent;
    var first, here := prefix + [n[|prefix|]], root + prefix + [n[|prefix|]];
    assert n[..|prefix| + 1] == first;
    if n != first {
      assert here == (root + n)[..|root| + |prefix| + 1];
      assert here < root + n;
      OnlyDirsHaveEntries(fs, here, root + n);
    } else {
      assert here == root + n;
    }
  }

  /** One entry of a directory accounts for itself, or for what is below it. */
  lemma ThroughEntry(fs: Fs, appsDir: Path, root: Path, prefix: Path, e: Name)
    requires WellFormed(fs) && root != [] && root + prefix + [e] in fs
    ensures var m, name, node := Managed(fs, appsDir, root), prefix + [e], fs[root + prefix + [e]];
            Through(m, prefix, {e}) ==
              if node.Directory? then Extending(m, name)
              else if IsManaged(fs, appsDir, root + prefix + [e]) then map[name := node.target]
              else map[]
  {
    var m, name, here := Managed(fs, appsDir, root), prefix + [e], root + prefix + [e];
    assert root + name == here;
    ManagedAt(fs, appsDir, root, name);
    hide Managed, WellFormed, PointsThroughCurrent, Through, Extending;
    forall n | n in m && prefix < n && n[|prefix|] == e
      ensures name <= n && (n != name ==> fs[here].Directory?) && (n == name ==> !fs[here].Directory?)
    {
      NameVia(fs, appsDir, root, prefix, n);
    }
    if fs[here].Directory? {
      ThroughIsExtending(m, prefix, e);
    } else {
      ThroughIsEntry(m, prefix, e);
    }
  }

  lemma ThroughIsExtending(m: map<Path, Path>, prefix: Path, e: Name)
    requires forall n :: n in m && prefix < n && n[|prefix|] == e ==> prefix + [e] < n
    ensures Through(m, prefix, {e}) == Extending(m, prefix + [e])
  {
  }

  lemma ThroughIsEntry(m: map<Path, Path>, prefix: Path, e: Name)
    requires forall n :: n in m && prefix < n && n[|prefix|] == e ==> n == prefix + [e]
    ensures Through(m, prefix, {e}) == if prefix + [e] in m then map[prefix + [e] := m[prefix + [e]]] else map[]
  {
  }

  lemma ThroughMore(m: map<Path, Path>, prefix: Path, done: set<Name>, e: Name)
    ensures Through(m, prefix, done + {e}) == Through(m, prefix, done) + Through(m, prefix, {e})
  {
  }

  lemma ThroughAll(fs: Fs, appsDir: Path, root: Path, prefix: Path)
    requires WellFormed(fs) && root != []
    ensures var m := Managed(fs, appsDir, root);
            Through(m, prefix, Entries(fs, root + prefix)) == Extending(m, prefix)
  {
    var m := Managed(fs, appsDir, root);
    hide Managed, WellFormed, Entries;
    forall n | n in m && prefix < n ensures n[|prefix|] in Entries(fs, root + prefix) {
      NameVia(fs, appsDir, root, prefix, n);
      EntryAt(fs, root + prefix, n[|prefix|]);
    }
  }

  /** Recurse into real directories only; a symlink is a leaf, whatever it points at. */
  method CollectManagedInto(fs: Fs, appsDir: Path, root: Path, prefix: Path, managed: map<Path, Path>)
    returns (ok: bool, result: map<Path, Path>, ghost fault: bool)
    requires WellFormed(fs) && root != []
    ensures ok ==> result == managed + Extending(Managed(fs, appsDir, root), prefix)
    ensures ok ==> Enterable(fs, root + prefix)
    ensures ok ==> !fault
    ensures !ok ==> fault || !Enterable(fs, root + prefix)
    decreases PathsBelow(fs, root + prefix)
  {
    hide Managed, Extending, Through, Entries, WellFormed;
    var dir := root + prefix;
    result := managed;
    var readFails := *;
    fault := readFails;
    if readFails || !Enterable(fs, dir) {
      return false, result, fault;
    }
    ghost var m := Managed(fs, appsDir, root);
    ThroughAll(fs, appsDir, root, prefix);
    var rest := Entries(fs, dir);
    ghost var all := rest;
    ThroughNone(m, prefix);
    assert all - rest == {};
    while rest != {}
      invariant rest <= all
      invariant result == managed + Through(m, prefix, all - rest) && !fault
      decreases rest
    {
      var e :| e in rest;
      EntryAt(fs, dir, e);
      ThroughEntry(fs, appsDir, root, prefix, e);
      ThroughMore(m, prefix, all - rest, e);
      var path, name := dir + [e], prefix + [e];
      assert all - (rest - {e}) == (all - rest) + {e};
      rest := rest - {e};
      if fs[path].Link? {
        if PointsThroughCurrent(appsDir, fs[path].target) {
          result := result[name := fs[path].target];
        }
      } else if fs[path].Directory? {
        assert path == root + name;
        Deeper(fs, dir, path);
        StillEnterable(fs, dir, e);
        ok, result, fault := CollectManagedInto(fs, appsDir, root, name, result);
        if !ok {
          return;
        }
      }
    }
    assert all - {} == all;
    return true, result, fault;
  }

  lemma ThroughNone(m: map<Path, Path>, prefix: Path)
    ensures Through(m, prefix, {}) == map[]
  {
  }

  lemma StillEnterable(fs: Fs, dir: Path, e: Name)
    requires Enterable(fs, dir) && dir + [e] in fs && fs[dir + [e]].Directory?
    ensures Enterable(fs, dir + [e])
  {
    forall q | q in Prefixes(dir + [e]) && q in fs ensures fs[q].Directory? {
      InPrefixes(dir + [e], q);
      InPrefixes(dir, q);
      assert q == dir + [e] || q <= dir by {
        if |q| <= |dir| {
          assert q == (dir + [e])[..|q|] == dir[..|q|];
        }
      }
    }
  }

  lemma Deeper(fs: Fs, dir: Path, path: Path)
    requires dir < path && path in fs
    ensures PathsBelow(fs, path) < PathsBelow(fs, dir)
  {
    assert path in PathsBelow(fs, dir);
  }

  /** Exactly the managed links below `root`. */
  method CollectManaged(fs: Fs, appsDir: Path, root: Path)
    returns (ok: bool, managed: map<Path, Path>, ghost fault: bool)
    requires WellFormed(fs) && root != []
    ensures ok ==> managed == Managed(fs, appsDir, root) && Enterable(fs, root)
    ensures ok ==> !fault
    ensures !ok ==> fault || !Enterable(fs, root)
  {
    ok, managed, fault := CollectManagedInto(fs, appsDir, root, [], map[]);
    assert root + [] == root;
    assert Extending(Managed(fs, appsDir, root), []) == Managed(fs, appsDir, root) by {
      forall n | n in Managed(fs, appsDir, root) ensures n != [] { ManagedAt(fs, appsDir, root, n); }
    }
  }

  // ----- Reconciling -----

  /** What reconciling `root` may not touch: anything but managed links, desired names and directories below `root`. */
  ghost predicate Kept(fs: Fs, appsDir: Path, root: Path, desired: map<Path, Path>, p: Path)
    requires p in fs
  {
    !(root < p && (IsManaged(fs, appsDir, p) || p[|root|..] in desired || fs[p].Directory?))
  }

  /** A directory on the way to a desired link. */
  ghost predicate LeadsTo(root: Path, desired: map<Path, Path>, p: Path) {
    exists n :: n in desired && p < root + n
  }

  /** A directory on the way to a managed link that is not desired. */
  ghost predicate LedToUndesired(before: Fs, appsDir: Path, root: Path, desired: map<Path, Path>, p: Path) {
    root < p && exists n :: n in Managed(before, appsDir, root) && n !in desired && p < root + n
  }

  /** What appears at a path: a link at a desired name, or a directory on the way to one. */
  ghost predicate Appears(after: Fs, root: Path, desired: map<Path, Path>, p: Path)
    requires p in after
  {
    (root < p && p[|root|..] in desired && after[p].Link?) || (after[p].Directory? && LeadsTo(root, desired, p))
  }

  /** One path of the tree before and the tree at any later point. */
  ghost predicate PathFramed(before: Fs, after: Fs, appsDir: Path, root: Path, desired: map<Path, Path>, p: Path) {
    && (p in before && Kept(before, appsDir, root, desired, p) ==> p in after && after[p] == before[p])
    && (p in after && (p !in before || after[p] != before[p]) ==> Appears(after, root, desired, p))
    && (p in before && before[p].Directory? && !IsDir(after, p) ==> LedToUndesired(before, appsDir, root, desired, p))
    && (p in after && p in before && after[p] != before[p] ==>
          root < p && (p[|root|..] in desired || IsManaged(before, appsDir, p)))
  }

  /** What holds between the tree before and the tree at any later point, also when reconciling fails. */
  ghost predicate Framed(before: Fs, after: Fs, appsDir: Path, root: Path, desired: map<Path, Path>) {
    WellFormed(after) && forall p :: PathFramed(before, after, appsDir, root, desired, p)
  }

  /**
    Walk up from `dir` to `stop`, removing directories as long as they are
    empty. Without faults the walk ends at `stop`, or at a level `top` that is
    not an empty directory; everything between is gone.
   */
  method PruneEmptyDirs(fs: HostFs, stop: Path, dir: Path) returns (ghost top: Path)
    requires WellFormed(fs.tree) && stop != [] && StartsWith(dir, stop)
    modifies fs`tree, fs`faults
    ensures WellFormed(fs.tree) && old(fs.faults) <= fs.faults
    ensures stop <= top <= dir && fs.tree == old(fs.tree) - Between(top, dir)
    ensures fs.faults == old(fs.faults) ==> top == stop || !Emptied(fs.tree, top)
    ensures forall p :: p in old(fs.tree) && p !in fs.tree ==> old(fs.tree)[p].Directory? && stop < p && p <= dir
  {
    hide Emptied, Between, WellFormed;
    var level := dir;
    NothingBetween(dir);
    while level != stop
      invariant StartsWith(level, stop) && level <= dir && WellFormed(fs.tree) && fs.faults == old(fs.faults)
      invariant fs.tree == old(fs.tree) - Between(level, dir)
      invariant forall p :: p in old(fs.tree) && p !in fs.tree ==> old(fs.tree)[p].Directory? && stop < p && p <= dir
      decreases |level|
    {
      var removed := fs.RemoveDir(level);
      if !removed {
        return level;
      }
      OneMoreLevel(level, dir);
      level := Parent(level);
    }
    return stop;
  }

  /** What lies strictly below `top` on the way down to `dir`. */
  ghost function Between(top: Path, dir: Path): set<Path> {
    set q | q in Prefixes(dir) && top < q
  }

  lemma NothingBetween(dir: Path)
    ensures Between(dir, dir) == {}
  {
    forall q | q in Prefixes(dir) ensures !(dir < q) {
      InPrefixes(dir, q);
    }
  }

  lemma OneMoreLevel(level: Path, dir: Path)
    requires |level| > 1 && level <= dir
    ensures Between(Parent(level), dir) == Between(level, dir) + {level}
  {
    forall q ensures q in Between(Parent(level), dir) <==> q in Between(level, dir) || q == level {
      InPrefixes(dir, q);
    }
  }

  /** No directory on the way to a link that has been removed is left empty. */
  ghost predicate Pruned(before: Fs, fs: Fs, appsDir: Path, root: Path, desired: map<Path, Path>, rest: set<Path>) {
    forall n, p :: n in Managed(before, appsDir, root) && n !in desired && n !in rest && root < p && p < root + n ==>
      !Emptied(fs, p)
  }

  lemma NonePruned(fs: Fs, appsDir: Path, root: Path, desired: map<Path, Path>)
    ensures Pruned(fs, fs, appsDir, root, desired, Managed(fs, appsDir, root).Keys)
  {
  }

  lemma PruneStep(before: Fs, mid: Fs, pruned: Fs, appsDir: Path, root: Path, desired: map<Path, Path>,
                  rest: set<Path>, n: Path, top: Path)
    requires WellFormed(mid) && Pruned(before, mid, appsDir, root, desired, rest) && root != []
    requires n != [] && root + n in mid && root <= top <= Parent(root + n)
    requires pruned == mid - {root + n} - Between(top, Parent(root + n))
    requires top == root || !Emptied(pruned, top)
    ensures Pruned(before, pruned, appsDir, root, desired, rest - {n})
  {
    hide WellFormed, Managed;
    forall m, p | m in Managed(before, appsDir, root) && m !in desired && m !in rest - {n} && root < p && p < root + m
      ensures !Emptied(pruned, p)
    {
      if p < root + n {
        PrunedAbove(mid, pruned, root, n, top, p);
      } else {
        PrunedAside(mid, pruned, root, n, top, p);
      }
    }
  }

  /** On the way to the link that was removed: gone, or something is still there. */
  lemma PrunedAbove(mid: Fs, pruned: Fs, root: Path, n: Path, top: Path, p: Path)
    requires WellFormed(mid) && root != [] && n != [] && root + n in mid && root <= top <= Parent(root + n)
    requires pruned == mid - {root + n} - Between(top, Parent(root + n))
    requires top == root || !Emptied(pruned, top)
    requires root < p && p < root + n
    ensures !Emptied(pruned, p)
  {
    var dir := Parent(root + n);
    assert p <= dir by { assert p == (root + n)[..|p|]; }
    InPrefixes(dir, p);
    PrefixesCompare(p, top, dir);
    if p < top {
      assert top < root + n;
      OnlyDirsHaveEntries(mid, top, root + n);
      assert top in pruned && Below(top, p);
    } else if top < p {
      assert p in Between(top, dir);
    } else {
      assert p == top;
    }
  }

  /** Elsewhere what was in a directory stays. */
  lemma PrunedAside(mid: Fs, pruned: Fs, root: Path, n: Path, top: Path, p: Path)
    requires root != [] && n != [] && !Emptied(mid, p) && !(p < root + n)
    requires pruned == mid - {root + n} - Between(top, Parent(root + n))
    ensures !Emptied(pruned, p)
  {
    if IsDir(pruned, p) {
      var q :| q in mid && Below(q, p);
      InPrefixes(Parent(root + n), q);
      assert q in pruned;
    }
  }

  /** Placing a link leaves no directory empty that was not. */
  lemma PlacedPruned(before: Fs, fs: Fs, appsDir: Path, root: Path, desired: map<Path, Path>, n: Path, target: Path)
    requires Pruned(before, fs, appsDir, root, desired, {}) && n != [] && root != []
    ensures Pruned(before, WithDirs(fs, Parent(root + n))[root + n := Link(target)], appsDir, root, desired, {})
  {
    hide Managed;
    var after := WithDirs(fs, Parent(root + n))[root + n := Link(target)];
    forall m, p | m in Managed(before, appsDir, root) && m !in desired && root < p && p < root + m
      ensures !Emptied(after, p)
    {
      assert m !in {};
      assert !Emptied(fs, p);
      InPrefixes(Parent(root + n), p);
      if p < root + n {
        assert Below(root + n, p);
      } else if IsDir(after, p) {
        var q :| q in fs && Below(q, p);
        assert q in after;
      }
    }
  }

  /** Create `dir` and its missing ancestors, and set the mode of every level up to `stop`. */
  method CreateManagedDir(fs: HostFs, stop: Path, dir: Path) returns (ok: bool)
    requires WellFormed(fs.tree) && stop != [] && stop[0] == ROOT && StartsWith(dir, stop)
    modifies fs`tree, fs`faults
    ensures WellFormed(fs.tree)
    ensures ok ==> fs.tree == WithDirs(old(fs.tree), dir) && forall q :: q in Prefixes(dir) ==> IsDir(fs.tree, q)
    ensures exists k :: 0 <= k <= |dir| && fs.tree == WithDirs(old(fs.tree), dir[..k])
    ensures old(fs.faults) <= fs.faults && (ok ==> fs.faults == old(fs.faults))
    ensures !ok ==>
              || old(fs.faults) < fs.faults
              || exists q :: q in Prefixes(dir) && q in old(fs.tree) && !old(fs.tree)[q].Directory?
  {
    ok := fs.CreateDirAll(dir);
    if !ok {
      return;
    }
    ghost var made := fs.tree;
    var level := dir;
    while true
      invariant StartsWith(level, stop) && level <= dir && fs.tree == made && fs.faults == old(fs.faults)
      decreases |level|
    {
      InPrefixes(dir, level);
      ok := fs.SetPermissions(level);
      if !ok || level == stop {
        return;
      }
      level := Parent(level);
    }
  }

  /** Removing the managed links that are not desired. */
  ghost predicate RemovedSome(before: Fs, after: Fs, appsDir: Path, root: Path, desired: map<Path, Path>,
                              rest: set<Path>) {
    && WellFormed(after)
    && (forall p :: p in after ==> p in before && after[p] == before[p])
    && (forall p :: p in before && p !in after ==>
          || (before[p].Directory? && LedToUndesired(before, appsDir, root, desired, p))
          || (root < p && IsManaged(before, appsDir, p) && p[|root|..] !in desired))
    && (forall n :: n in Managed(before, appsDir, root) ==> (root + n in after <==> n in desired || n in rest))
    && (Managed(before, appsDir, root) == desired ==> after == before)
  }

  lemma RemoveStep(before: Fs, mid: Fs, removed: Fs, pruned: Fs, appsDir: Path, root: Path, desired: map<Path, Path>,
                   rest: set<Path>, n: Path)
    requires RemovedSome(before, mid, appsDir, root, desired, rest)
    requires n in rest && n in Managed(before, appsDir, root) && n !in desired
    requires removed == mid - {root + n} && WellFormed(pruned)
    requires forall p :: p in pruned ==> p in removed && pruned[p] == removed[p]
    requires forall p :: p in removed && p !in pruned ==> removed[p].Directory? && root < p && p <= Parent(root + n)
    ensures RemovedSome(before, pruned, appsDir, root, desired, rest - {n})
  {
    ManagedAt(before, appsDir, root, n);
    hide WellFormed, Managed, IsManaged, LedToUndesired;
    var path := root + n;
    assert root < path && path[|root|..] == n;
    forall p | p in removed && p !in pruned ensures LedToUndesired(before, appsDir, root, desired, p) {
      LedThere(before, appsDir, root, desired, n, p);
    }
    forall m | m in Managed(before, appsDir, root)
      ensures root + m in pruned <==> m in desired || m in rest - {n}
    {
      RemoveStepAt(before, mid, removed, pruned, appsDir, root, n, m);
    }
  }

  lemma LedThere(before: Fs, appsDir: Path, root: Path, desired: map<Path, Path>, n: Path, p: Path)
    requires n in Managed(before, appsDir, root) && n !in desired && root < p && p < root + n
    ensures LedToUndesired(before, appsDir, root, desired, p)
  {
  }

  /** Only the link itself goes: pruning takes directories. */
  lemma RemoveStepAt(before: Fs, mid: Fs, removed: Fs, pruned: Fs, appsDir: Path, root: Path, n: Path, m: Path)
    requires m in Managed(before, appsDir, root)
    requires forall p :: p in mid ==> p in before && mid[p] == before[p]
    requires removed == mid - {root + n} && forall p :: p in pruned ==> p in removed
    requires forall p :: p in removed && p !in pruned ==> removed[p].Directory?
    ensures root + m in pruned <==> root + m in mid && m != n
  {
    ManagedAt(before, appsDir, root, m);
    hide Managed;
    assert (root + m)[|root|..] == m && (root + n)[|root|..] == n;
  }

  method RemoveUndesired(fs: HostFs, appsDir: Path, root: Path, desired: map<Path, Path>, actual: map<Path, Path>)
    returns (ok: bool)
    requires WellFormed(fs.tree) && root != [] && actual == Managed(fs.tree, appsDir, root)
    modifies fs`tree, fs`faults
    ensures ok ==> RemovedSome(old(fs.tree), fs.tree, appsDir, root, desired, {})
    ensures exists rest :: RemovedSome(old(fs.tree), fs.tree, appsDir, root, desired, rest)
    ensures fs.faults == old(fs.faults) ==> Pruned(old(fs.tree), fs.tree, appsDir, root, desired, {})
    ensures old(fs.faults) <= fs.faults && (!ok ==> old(fs.faults) < fs.faults)
  {
    hide Managed, IsManaged, LedToUndesired, Pruned, Emptied, Between;
    ghost var before := fs.tree;
    var rest := actual.Keys;
    NonePruned(before, appsDir, root, desired);
    assert RemovedSome(before, fs.tree, appsDir, root, desired, rest)
      by { NoneRemoved(before, appsDir, root, desired); }
    while rest != {}
      invariant rest <= actual.Keys && old(fs.faults) <= fs.faults
      invariant RemovedSome(before, fs.tree, appsDir, root, desired, rest)
      invariant fs.faults == old(fs.faults) ==> Pruned(before, fs.tree, appsDir, root, desired, rest)
      decreases rest
    {
      hide RemovedSome;
      assert WellFormed(fs.tree) by { StillWellFormed(before, fs.tree, appsDir, root, desired, rest); }
      var name :| name in rest;
      if name !in desired {
        var linkPath := root + name;
        ghost var mid := fs.tree;
        StillThere(before, mid, appsDir, root, desired, rest, name);
        var removed := fs.RemoveFile(linkPath);
        if !removed {
          return false;
        }
        ghost var without := fs.tree;
        NameNotEmpty(before, appsDir, root, name);
        ghost var top := PruneEmptyDirs(fs, root, Parent(linkPath));
        if fs.faults == old(fs.faults) {
          PruneStep(before, mid, fs.tree, appsDir, root, desired, rest, name, top);
        }
        RemoveStep(before, mid, without, fs.tree, appsDir, root, desired, rest, name);
      } else {
        KeepStep(before, fs.tree, appsDir, root, desired, rest, name);
        KeptPruned(before, fs.tree, appsDir, root, desired, rest, name);
      }
      rest := rest - {name};
    }
    return true;
  }

  lemma KeptPruned(before: Fs, fs: Fs, appsDir: Path, root: Path, desired: map<Path, Path>, rest: set<Path>, n: Path)
    requires n in desired
    ensures Pruned(before, fs, appsDir, root, desired, rest) ==> Pruned(before, fs, appsDir, root, desired, rest - {n})
  {
    hide Emptied, Managed;
  }

  lemma StillThere(before: Fs, after: Fs, appsDir: Path, root: Path, desired: map<Path, Path>, rest: set<Path>, n: Path)
    requires RemovedSome(before, after, appsDir, root, desired, rest) && n in rest
    requires n in Managed(before, appsDir, root)
    ensures root + n in after && after[root + n].Link?
  {
    ManagedAt(before, appsDir, root, n);
  }

  lemma NoneRemoved(before: Fs, appsDir: Path, root: Path, desired: map<Path, Path>)
    requires WellFormed(before)
    ensures RemovedSome(before, before, appsDir, root, desired, Managed(before, appsDir, root).Keys)
  {
  }

  lemma StillWellFormed(before: Fs, after: Fs, appsDir: Path, root: Path, desired: map<Path, Path>, rest: set<Path>)
    requires RemovedSome(before, after, appsDir, root, desired, rest)
    ensures WellFormed(after)
  {
  }

  lemma KeepStep(before: Fs, after: Fs, appsDir: Path, root: Path, desired: map<Path, Path>, rest: set<Path>, n: Path)
    requires RemovedSome(before, after, appsDir, root, desired, rest) && n in desired
    ensures RemovedSome(before, after, appsDir, root, desired, rest - {n})
  {
  }

  lemma NameNotEmpty(fs: Fs, appsDir: Path, root: Path, n: Path)
    requires n in Managed(fs, appsDir, root)
    ensures n != [] && root <= Parent(root + n)
  {
  }

  /** The managed links while the desired names in `rest` are still to be visited. */
  ghost predicate LinkedSome(before: Fs, fs: Fs, appsDir: Path, root: Path, desired: map<Path, Path>,
                             actual: map<Path, Path>, rest: set<Path>) {
    && Framed(before, fs, appsDir, root, desired)
    && (forall n :: n in desired && n !in rest ==> root + n in fs && fs[root + n] == Link(desired[n]))
    && (forall n :: n in desired && n in rest && n in actual ==> root + n in fs && fs[root + n] == Link(actual[n]))
    && (forall n :: n != [] && IsManaged(fs, appsDir, root + n) ==> n in desired && (n in rest ==> n in actual))
    && (actual == desired ==> fs == before)
  }

  ghost predicate DesiredValid(appsDir: Path, desired: map<Path, Path>) {
    forall n :: n in desired ==> n != [] && PointsThroughCurrent(appsDir, desired[n])
  }

  lemma RemovedIsFramed(before: Fs, after: Fs, appsDir: Path, root: Path, desired: map<Path, Path>, rest: set<Path>)
    requires RemovedSome(before, after, appsDir, root, desired, rest)
    ensures Framed(before, after, appsDir, root, desired)
  {
    hide WellFormed, Managed, PointsThroughCurrent;
    forall p ensures PathFramed(before, after, appsDir, root, desired, p) {}
  }

  lemma StartLinking(before: Fs, after: Fs, appsDir: Path, root: Path, desired: map<Path, Path>)
    requires RemovedSome(before, after, appsDir, root, desired, {})
    ensures LinkedSome(before, after, appsDir, root, desired, Managed(before, appsDir, root), desired.Keys)
  {
    RemovedIsFramed(before, after, appsDir, root, desired, {});
    var actual := Managed(before, appsDir, root);
    forall n | n in desired && n in actual ensures root + n in after && after[root + n] == Link(actual[n]) {
      ManagedAt(before, appsDir, root, n);
    }
    forall n | n != [] && IsManaged(after, appsDir, root + n) ensures n in desired && n in actual {
      ManagedAt(before, appsDir, root, n);
    }
    hide WellFormed, Managed, PointsThroughCurrent, Framed;
  }

  /** A desired name that needs no update. */
  lemma LinkedAlready(before: Fs, fs: Fs, appsDir: Path, root: Path, desired: map<Path, Path>, actual: map<Path, Path>,
                      rest: set<Path>, n: Path)
    requires LinkedSome(before, fs, appsDir, root, desired, actual, rest)
    requires n in rest && n in desired && n in actual && actual[n] == desired[n]
    ensures LinkedSome(before, fs, appsDir, root, desired, actual, rest - {n})
  {
    hide Framed, PointsThroughCurrent;
  }

  /** The same, leaving open what is at the desired name `n`. */
  ghost predicate LinkedBut(before: Fs, fs: Fs, appsDir: Path, root: Path, desired: map<Path, Path>,
                            actual: map<Path, Path>, rest: set<Path>, n: Path) {
    && Framed(before, fs, appsDir, root, desired)
    && (forall m :: m in desired && m !in rest ==> root + m in fs && fs[root + m] == Link(desired[m]))
    && (forall m :: m in desired && m in rest && m in actual && m != n ==>
          root + m in fs && fs[root + m] == Link(actual[m]))
    && (forall m :: m != [] && m != n && IsManaged(fs, appsDir, root + m) ==>
          m in desired && (m in rest ==> m in actual))
  }

  lemma LeaveOpen(before: Fs, fs: Fs, appsDir: Path, root: Path, desired: map<Path, Path>, actual: map<Path, Path>,
                  rest: set<Path>, n: Path)
    requires LinkedSome(before, fs, appsDir, root, desired, actual, rest)
    ensures LinkedBut(before, fs, appsDir, root, desired, actual, rest, n)
  {
    hide Framed, IsManaged;
  }

  /** What is added on the way to a desired link are directories, and nothing that was there changes. */
  lemma DirsAdded(fs: Fs, root: Path, desired: map<Path, Path>, n: Path, k: nat)
    requires n in desired && n != [] && k <= |Parent(root + n)|
    ensures var after := WithDirs(fs, Parent(root + n)[..k]);
            && (forall p :: p in fs ==> p in after && after[p] == fs[p])
            && (forall p :: p in after && p !in fs ==> after[p].Directory? && LeadsTo(root, desired, p))
  {
    var dir := Parent(root + n)[..k];
    forall p | p in WithDirs(fs, dir) && p !in fs ensures LeadsTo(root, desired, p) {
      InPrefixes(dir, p);
      assert p < root + n;
    }
  }

  /** Directories on the way to a desired link are no links, and disturb none. */
  lemma DirsStep(before: Fs, fs: Fs, appsDir: Path, root: Path, desired: map<Path, Path>, actual: map<Path, Path>,
                 rest: set<Path>, n: Path, k: nat)
    requires LinkedBut(before, fs, appsDir, root, desired, actual, rest, n)
    requires n in desired && n != [] && root != [] && k <= |Parent(root + n)|
    requires WellFormed(WithDirs(fs, Parent(root + n)[..k]))
    ensures LinkedBut(before, WithDirs(fs, Parent(root + n)[..k]), appsDir, root, desired, actual, rest, n)
  {
    hide PointsThroughCurrent, WellFormed, Framed, WithDirs, LeadsTo;
    var after := WithDirs(fs, Parent(root + n)[..k]);
    DirsAdded(fs, root, desired, n, k);
    DirsFramed(before, fs, after, appsDir, root, desired);
    forall m | m != [] && IsManaged(after, appsDir, root + m) ensures IsManaged(fs, appsDir, root + m) {}
  }

  lemma DirsFramed(before: Fs, fs: Fs, after: Fs, appsDir: Path, root: Path, desired: map<Path, Path>)
    requires Framed(before, fs, appsDir, root, desired) && WellFormed(after)
    requires forall p :: p in fs ==> p in after && after[p] == fs[p]
    requires forall p :: p in after && p !in fs ==> after[p].Directory? && LeadsTo(root, desired, p)
    ensures Framed(before, after, appsDir, root, desired)
  {
    hide WellFormed, LedToUndesired, LeadsTo, IsManaged;
    forall p ensures PathFramed(before, after, appsDir, root, desired, p) {
      assert PathFramed(before, fs, appsDir, root, desired, p);
    }
  }

  /** Paths below `root` are told apart by their names. */
  lemma NamesDiffer(root: Path, n: Path)
    requires n != []
    ensures root < root + n && (root + n)[|root|..] == n
    ensures forall m :: m != n ==> root + m != root + n
  {
  }

  lemma ClearFramed(before: Fs, fs: Fs, appsDir: Path, root: Path, desired: map<Path, Path>, n: Path)
    requires Framed(before, fs, appsDir, root, desired) && n in desired && n != [] && WellFormed(fs - {root + n})
    requires root + n in fs && !fs[root + n].Directory?
    ensures Framed(before, fs - {root + n}, appsDir, root, desired)
  {
    hide WellFormed, LedToUndesired, LeadsTo, IsManaged;
    NamesDiffer(root, n);
    var after := fs - {root + n};
    forall p ensures PathFramed(before, after, appsDir, root, desired, p) {
      assert PathFramed(before, fs, appsDir, root, desired, p);
    }
  }

  /** Taking away what is at a desired name. */
  lemma ClearStep(before: Fs, fs: Fs, appsDir: Path, root: Path, desired: map<Path, Path>, actual: map<Path, Path>,
                  rest: set<Path>, n: Path)
    requires LinkedBut(before, fs, appsDir, root, desired, actual, rest, n)
    requires n in rest && n in desired && n != [] && WellFormed(fs - {root + n})
    requires root + n in fs && !fs[root + n].Directory?
    ensures LinkedBut(before, fs - {root + n}, appsDir, root, desired, actual, rest, n)
  {
    hide PointsThroughCurrent, WellFormed, Framed;
    ClearFramed(before, fs, appsDir, root, desired, n);
    NamesDiffer(root, n);
  }

  lemma LinkFramed(before: Fs, fs: Fs, appsDir: Path, root: Path, desired: map<Path, Path>, n: Path)
    requires Framed(before, fs, appsDir, root, desired) && n in desired && n != []
    requires root + n !in fs && WellFormed(fs[root + n := Link(desired[n])])
    ensures Framed(before, fs[root + n := Link(desired[n])], appsDir, root, desired)
  {
    hide WellFormed, LedToUndesired, LeadsTo, IsManaged;
    NamesDiffer(root, n);
    var after := fs[root + n := Link(desired[n])];
    forall p ensures PathFramed(before, after, appsDir, root, desired, p) {
      assert PathFramed(before, fs, appsDir, root, desired, p);
    }
  }

  /** Placing a desired link. */
  lemma LinkStep(before: Fs, fs: Fs, appsDir: Path, root: Path, desired: map<Path, Path>, actual: map<Path, Path>,
                 rest: set<Path>, n: Path)
    requires LinkedBut(before, fs, appsDir, root, desired, actual, rest, n)
    requires n in rest && n in desired && n != [] && actual != desired
    requires root + n !in fs && WellFormed(fs[root + n := Link(desired[n])])
    ensures LinkedSome(before, fs[root + n := Link(desired[n])], appsDir, root, desired, actual, rest - {n})
  {
    hide PointsThroughCurrent, WellFormed, Framed;
    LinkFramed(before, fs, appsDir, root, desired, n);
    NamesDiffer(root, n);
  }

  /** Nothing unmanaged is in the way: only directories down to the root, and below it on the way to desired names. */
  ghost predicate Unobstructed(fs: Fs, appsDir: Path, root: Path, desired: map<Path, Path>) {
    && Enterable(fs, root)
    && (forall n :: n in desired && root + n in fs ==> !fs[root + n].Directory?)
    && (forall n, q :: n in desired && q in fs && root < q && q < root + n ==>
          fs[q].Directory? || IsManaged(fs, appsDir, q))
  }

  /** Reconciling, wherever it stops, puts nothing in the way of desired links that include its own. */
  lemma StillUnobstructedByLinks(before: Fs, after: Fs, appsDir: Path, root: Path, desired: map<Path, Path>,
                                 wider: map<Path, Path>)
    requires Framed(before, after, appsDir, root, desired) && desired.Keys <= wider.Keys
    requires PrefixFree(wider) && Unobstructed(before, appsDir, root, wider)
    ensures Unobstructed(after, appsDir, root, wider)
  {
    hide WellFormed, PointsThroughCurrent, LedToUndesired;
    forall q | q in Prefixes(root) && q in after ensures after[q].Directory? {
      InPrefixes(root, q);
      assert PathFramed(before, after, appsDir, root, desired, q);
    }
    forall n | n in wider && root + n in after ensures !after[root + n].Directory? {
      assert PathFramed(before, after, appsDir, root, desired, root + n);
      NotLeadingItself(root, wider, n);
    }
    forall n, q | n in wider && q in after && root < q && q < root + n
      ensures after[q].Directory? || IsManaged(after, appsDir, q)
    {
      assert PathFramed(before, after, appsDir, root, desired, q);
      assert q == root + q[|root|..];
      BelowRoot(root, q[|root|..], n);
    }
  }

  /** While linking, what is on the way to a desired link are directories, and what is at its name is none. */
  lemma WayIsFree(before: Fs, fs: Fs, appsDir: Path, root: Path, desired: map<Path, Path>, actual: map<Path, Path>,
                  rest: set<Path>, n: Path)
    requires LinkedSome(before, fs, appsDir, root, desired, actual, rest) && n in desired && n != [] && root != []
    requires PrefixFree(desired) && Unobstructed(before, appsDir, root, desired)
    ensures forall q :: q in Prefixes(Parent(root + n)) && q in fs ==> fs[q].Directory?
    ensures root + n in fs ==> !fs[root + n].Directory?
    ensures root + n !in Prefixes(Parent(root + n))
  {
    hide WellFormed, PointsThroughCurrent, LedToUndesired, LinkedSome;
    InPrefixes(Parent(root + n), root + n);
    forall q | q in Prefixes(Parent(root + n)) && q in fs ensures fs[q].Directory? {
      InPrefixes(Parent(root + n), q);
      assert q < root + n;
      OnTheWay(before, fs, appsDir, root, desired, actual, rest, n, q);
    }
    if root + n in fs && fs[root + n].Directory? {
      AtItsName(before, fs, appsDir, root, desired, actual, rest, n);
    }
  }

  lemma OnTheWay(before: Fs, fs: Fs, appsDir: Path, root: Path, desired: map<Path, Path>, actual: map<Path, Path>,
                 rest: set<Path>, n: Path, q: Path)
    requires LinkedSome(before, fs, appsDir, root, desired, actual, rest) && n in desired
    requires PrefixFree(desired) && Unobstructed(before, appsDir, root, desired)
    requires q != [] && q < root + n && q in fs
    ensures fs[q].Directory?
  {
    hide WellFormed, PointsThroughCurrent, LedToUndesired, LeadsTo;
    assert PathFramed(before, fs, appsDir, root, desired, q);
    if root < q {
      var m := q[|root|..];
      assert q == root + m && m != [] && m <= n && m != n;
      assert m !in desired;
    } else {
      PrefixesCompare(q, root, root + n);
      InPrefixes(root, q);
    }
  }

  lemma NotLeadingItself(root: Path, desired: map<Path, Path>, n: Path)
    requires PrefixFree(desired) && n in desired
    ensures !LeadsTo(root, desired, root + n)
  {
    forall m | m in desired ensures root + n < root + m ==> n < m {
      BelowRoot(root, n, m);
    }
  }

  lemma BelowRoot(root: Path, n: Path, m: Path)
    ensures root + n < root + m ==> n < m
  {
    assert (root + n)[|root|..] == n && (root + m)[|root|..] == m;
    if root + n < root + m {
      assert (root + m)[..|root + n|][|root|..] == m[..|n|];
    }
  }

  lemma AtItsName(before: Fs, fs: Fs, appsDir: Path, root: Path, desired: map<Path, Path>, actual: map<Path, Path>,
                  rest: set<Path>, n: Path)
    requires LinkedSome(before, fs, appsDir, root, desired, actual, rest) && n in desired && n != []
    requires PrefixFree(desired) && Unobstructed(before, appsDir, root, desired) && root + n in fs
    ensures !fs[root + n].Directory?
  {
    hide WellFormed, PointsThroughCurrent, LedToUndesired;
    assert PathFramed(before, fs, appsDir, root, desired, root + n);
    NotLeadingItself(root, desired, n);
  }

  /** Make one desired link, whatever is at its name. */
  method PlaceLink(fs: HostFs, appsDir: Path, root: Path, ghost before: Fs, desired: map<Path, Path>,
                   actual: map<Path, Path>, ghost rest: set<Path>, name: Path) returns (ok: bool)
    requires root != [] && root[0] == ROOT && name in desired && name != [] && name in rest && actual != desired
    requires LinkedSome(before, fs.tree, appsDir, root, desired, actual, rest)
    modifies fs`tree, fs`faults
    ensures Framed(before, fs.tree, appsDir, root, desired)
    ensures ok ==> LinkedSome(before, fs.tree, appsDir, root, desired, actual, rest - {name})
    ensures ok ==> fs.tree == WithDirs(old(fs.tree), Parent(root + name))[root + name := Link(desired[name])]
    ensures old(fs.faults) <= fs.faults
    ensures PrefixFree(desired) && Unobstructed(before, appsDir, root, desired) && fs.faults == old(fs.faults) ==> ok
  {
    hide IsManaged, PrefixFree, Unobstructed, LinkedSome, LinkedBut, Framed, WellFormed, Prefixes;
    LeaveOpen(before, fs.tree, appsDir, root, desired, actual, rest, name);
    SomeFramed(before, fs.tree, appsDir, root, desired, actual, rest);
    FramedWellFormed(before, fs.tree, appsDir, root, desired);
    if PrefixFree(desired) && Unobstructed(before, appsDir, root, desired) {
      WayIsFree(before, fs.tree, appsDir, root, desired, actual, rest, name);
    }
    var linkPath := root + name;
    ghost var start := fs.tree;
    ok := CreateManagedDir(fs, root, Parent(linkPath));
    ghost var k :| 0 <= k <= |Parent(linkPath)| && fs.tree == WithDirs(start, Parent(linkPath)[..k]);
    DirsStep(before, start, appsDir, root, desired, actual, rest, name, k);
    ButFramed(before, fs.tree, appsDir, root, desired, actual, rest, name);
    if !ok {
      return;
    }
    hide WithDirs;
    ghost var full := fs.tree;
    MadeDirs(start, Parent(linkPath), linkPath);
    if linkPath in fs.tree {
      ok := fs.RemoveFile(linkPath);
      if !ok {
        return;
      }
      ClearStep(before, full, appsDir, root, desired, actual, rest, name);
      ButFramed(before, fs.tree, appsDir, root, desired, actual, rest, name);
    }
    ghost var empty := fs.tree;
    var occupied;
    ok, occupied := fs.Symlink(desired[name], linkPath);
    if ok {
      LinkStep(before, empty, appsDir, root, desired, actual, rest, name);
      SomeFramed(before, fs.tree, appsDir, root, desired, actual, rest - {name});
    }
  }

  /** Creating directories leaves a path alone that is not among them, and the last one is the parent. */
  lemma MadeDirs(fs: Fs, dir: Path, p: Path)
    requires dir != []
    ensures p !in Prefixes(dir) ==> (p in WithDirs(fs, dir) <==> p in fs) && (p in fs ==> WithDirs(fs, dir)[p] == fs[p])
    ensures dir in Prefixes(dir)
  {
    InPrefixes(dir, dir);
  }

  lemma FramedWellFormed(before: Fs, fs: Fs, appsDir: Path, root: Path, desired: map<Path, Path>)
    requires Framed(before, fs, appsDir, root, desired)
    ensures WellFormed(fs)
  {
  }

  lemma ButFramed(before: Fs, fs: Fs, appsDir: Path, root: Path, desired: map<Path, Path>, actual: map<Path, Path>,
                  rest: set<Path>, n: Path)
    requires LinkedBut(before, fs, appsDir, root, desired, actual, rest, n)
    ensures Framed(before, fs, appsDir, root, desired)
  {
  }

  lemma SomeFramed(before: Fs, fs: Fs, appsDir: Path, root: Path, desired: map<Path, Path>, actual: map<Path, Path>,
                   rest: set<Path>)
    requires LinkedSome(before, fs, appsDir, root, desired, actual, rest)
    ensures Framed(before, fs, appsDir, root, desired)
  {
  }

  /** When every desired name has been visited, the managed links are the desired ones. */
  lemma AllLinked(before: Fs, fs: Fs, appsDir: Path, root: Path, desired: map<Path, Path>, actual: map<Path, Path>)
    requires LinkedSome(before, fs, appsDir, root, desired, actual, {}) && DesiredValid(appsDir, desired) && root != []
    ensures Managed(fs, appsDir, root) == desired && PrefixFree(desired)
  {
    hide Managed, PointsThroughCurrent, Framed;
    forall n
      ensures n in Managed(fs, appsDir, root) <==> n in desired
      ensures n in desired ==> Managed(fs, appsDir, root)[n] == desired[n]
    {
      ManagedAt(fs, appsDir, root, n);
    }
    assert Managed(fs, appsDir, root) == desired;
    FramedWellFormed(before, fs, appsDir, root, desired);
    LinksPrefixFree(fs, root, desired);
  }

  lemma LinksPrefixFree(fs: Fs, root: Path, desired: map<Path, Path>)
    requires WellFormed(fs) && root != [] && forall n :: n in desired ==> root + n in fs && fs[root + n].Link?
    ensures PrefixFree(desired)
  {
    forall n, m | n in desired && m in desired && n <= m ensures n == m {
      if n != m {
        assert root + n < root + m;
        OnlyDirsHaveEntries(fs, root + n, root + m);
      }
    }
  }

  /** No desired name leads through another one. */
  ghost predicate PrefixFree(desired: map<Path, Path>) {
    forall n, m :: n in desired && m in desired && n <= m ==> n == m
  }

  /**
    Make the managed links below `root` exactly the desired ones. On success
    collecting them again yields `desired`; whether it succeeds or not, nothing
    but managed links, desired names and empty directories below `root` changes;
    and when the links are as desired already, nothing changes at all. If names
    are prefix-free and nothing unmanaged is in the way, only a failing
    primitive can keep it from succeeding.
   */
  method ReconcileManagedSymlinks(fs: HostFs, desired: map<Path, Path>, appsDir: Path, root: Path) returns (ok: bool)
    requires WellFormed(fs.tree) && root != [] && root[0] == ROOT && DesiredValid(appsDir, desired)
    modifies fs`tree, fs`faults
    ensures Framed(old(fs.tree), fs.tree, appsDir, root, desired)
    ensures ok ==> Managed(fs.tree, appsDir, root) == desired && PrefixFree(desired) && Enterable(old(fs.tree), root)
    ensures PrefixFree(desired) && Unobstructed(old(fs.tree), appsDir, root, desired) && fs.faults == old(fs.faults) ==>
              ok
    ensures Managed(old(fs.tree), appsDir, root) == desired ==> fs.tree == old(fs.tree)
    ensures old(fs.faults) <= fs.faults
    ensures ok && fs.faults == old(fs.faults) ==>
              forall p :: LedToUndesired(old(fs.tree), appsDir, root, desired, p) ==> !Emptied(fs.tree, p)
  {
    hide Managed, IsManaged, Framed, RemovedSome, WellFormed, PrefixFree, Unobstructed, Enterable;
    hide Pruned, Emptied, LedToUndesired;
    ghost var before := fs.tree;
    UntouchedFramed(before, appsDir, root, desired);
    RootIsFree(before, appsDir, root, desired);
    var actual;
    ghost var fault;
    ok, actual, fault := CollectManaged(fs.tree, appsDir, root);
    if !ok {
      fs.faults := fs.faults + if fault then 1 else 0;
      return;
    }
    ok := RemoveUndesired(fs, appsDir, root, desired, actual);
    ghost var left :| RemovedSome(before, fs.tree, appsDir, root, desired, left);
    RemovedIsFramed(before, fs.tree, appsDir, root, desired, left);
    NothingRemoved(before, fs.tree, appsDir, root, desired, left);
    if !ok {
      return;
    }
    StartLinking(before, fs.tree, appsDir, root, desired);
    var rest := desired.Keys;
    while rest != {}
      invariant rest <= desired.Keys
      invariant LinkedSome(before, fs.tree, appsDir, root, desired, actual, rest)
      invariant old(fs.faults) <= fs.faults
      invariant fs.faults == old(fs.faults) ==> Pruned(before, fs.tree, appsDir, root, desired, {})
      decreases rest
    {
      hide LinkedSome;
      var name :| name in rest;
      if name !in actual || actual[name] != desired[name] {
        ghost var mid := fs.tree;
        ok := PlaceLink(fs, appsDir, root, before, desired, actual, rest, name);
        if !ok {
          return;
        }
        if fs.faults == old(fs.faults) {
          PlacedPruned(before, mid, appsDir, root, desired, name, desired[name]);
        }
      } else {
        LinkedAlready(before, fs.tree, appsDir, root, desired, actual, rest, name);
      }
      rest := rest - {name};
    }
    AllLinked(before, fs.tree, appsDir, root, desired, actual);
    SomeFramed(before, fs.tree, appsDir, root, desired, actual, {});
    if fs.faults == old(fs.faults) {
      AllPruned(before, fs.tree, appsDir, root, desired);
    }
  }

  lemma AllPruned(before: Fs, fs: Fs, appsDir: Path, root: Path, desired: map<Path, Path>)
    requires Pruned(before, fs, appsDir, root, desired, {})
    ensures forall p :: LedToUndesired(before, appsDir, root, desired, p) ==> !Emptied(fs, p)
  {
    hide Emptied, Managed;
  }

  lemma RootIsFree(fs: Fs, appsDir: Path, root: Path, desired: map<Path, Path>)
    requires root != []
    ensures Unobstructed(fs, appsDir, root, desired) ==> Enterable(fs, root)
  {
  }

  lemma UntouchedFramed(fs: Fs, appsDir: Path, root: Path, desired: map<Path, Path>)
    requires WellFormed(fs)
    ensures Framed(fs, fs, appsDir, root, desired)
  {
    forall p ensures PathFramed(fs, fs, appsDir, root, desired, p) {}
  }

  lemma NothingRemoved(before: Fs, after: Fs, appsDir: Path, root: Path, desired: map<Path, Path>, rest: set<Path>)
    requires RemovedSome(before, after, appsDir, root, desired, rest)
    ensures Managed(before, appsDir, root) == desired ==> after == before
  {
  }

  /**
    A directory that is pruned led to an undesired managed link, and held only
    managed links, desired names and such directories.
   */
  lemma {:induction false} PrunedWereEmpty(before: Fs, after: Fs, appsDir: Path, root: Path, desired: map<Path, Path>,
                                           p: Path, q: Path)
    requires Framed(before, after, appsDir, root, desired) && WellFormed(before)
    requires p in before && before[p].Directory? && p !in after && q in before && p < q
    ensures root < p && !Kept(before, appsDir, root, desired, q) && LedToUndesired(before, appsDir, root, desired, p)
  {
    assert PathFramed(before, after, appsDir, root, desired, p) && PathFramed(before, after, appsDir, root, desired, q);
    if Kept(before, appsDir, root, desired, q) {
      OnlyDirsHaveEntries(after, p, q);
    }
  }
}
