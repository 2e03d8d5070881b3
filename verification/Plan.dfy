/**
  Diffs between two commits: per app, per managed subdirectory, per manifest
  symlink, and the side effects they add up to for a host.
 */
module Plan {
  import opened Wrappers
  import opened Paths
  import opened Trees

  type Apps = map<Name, Tree>

  const NETWORKD: Name := "networkd"
  const QUADLETS: Name := "quadlets"
  const SYSUSERS: Name := "sysusers"
  const UNITS: Name := "systemd"

  /** The app subdirectories that are symlinked into a system location. */
  const SUBDIRS: set<Name> := {NETWORKD, QUADLETS, SYSUSERS, UNITS}

  datatype AppDiff = Add(newTree: Tree) | Remove(oldTree: Tree) | Update(oldTree: Tree, newTree: Tree) {
    /** The app's tree before this change; the empty tree for an added app. */
    function Before(): Tree {
      if Add? then EMPTY_TREE else oldTree
    }

    /** The app's tree after this change; the empty tree for a removed app. */
    function After(): Tree {
      if Remove? then EMPTY_TREE else newTree
    }
  }

  datatype SubdirChanges = SubdirChanges(link: seq<Path>, unlink: seq<Path>, contentChanged: bool) {
    predicate IsRollbackSafe() {
      link == []
    }

    function Append(other: SubdirChanges): SubdirChanges {
      SubdirChanges(link + other.link, unlink + other.unlink, contentChanged || other.contentChanged)
    }
  }

  datatype UnitActions = UnitActions(enable: seq<string>, restart: seq<string>, disable: seq<string>) {
    predicate IsRollbackSafe() {
      enable == []
    }

    /** Every unit that is to run, newly enabled or restarted. */
    function Touched(): seq<string> {
      enable + restart
    }

    function Append(other: UnitActions): UnitActions {
      UnitActions(enable + other.enable, restart + other.restart, disable + other.disable)
    }
  }

  /** `create` and `change` hold (link path, source path). */
  datatype SymlinkChanges<T> = SymlinkChanges(create: seq<(T, T)>, remove: seq<T>, change: seq<(T, T)>) {
    predicate IsRollbackSafe() {
      create == []
    }

    function Append(other: SymlinkChanges<T>): SymlinkChanges<T> {
      SymlinkChanges(create + other.create, remove + other.remove, change + other.change)
    }
  }

  function MapPairs(ps: seq<(string, string)>, base: Path): (r: seq<(Path, Path)>)
    ensures |r| == |ps|
    ensures forall i :: 0 <= i < |ps| ==> r[i] == (ToPath(ps[i].0), Joined(base, ToPath(ps[i].1)))
  {
    if ps == [] then []
    else [(ToPath(ps[0].0), Joined(base, ToPath(ps[0].1)))] + MapPairs(ps[1..], base)
  }

  function MapLinks(ls: seq<string>): (r: seq<Path>)
    ensures |r| == |ls|
    ensures forall i :: 0 <= i < |ls| ==> r[i] == ToPath(ls[i])
  {
    if ls == [] then [] else [ToPath(ls[0])] + MapLinks(ls[1..])
  }

  datatype SystemDiff<T> = SystemDiff(
    networkd: SubdirChanges, quadlets: SubdirChanges, symlinks: SymlinkChanges<T>,
    sysusers: SubdirChanges, units: SubdirChanges, unitActions: UnitActions) {
    predicate IsRollbackSafe() {
      && networkd.IsRollbackSafe()
      && quadlets.IsRollbackSafe()
      && symlinks.IsRollbackSafe()
      && sysusers.IsRollbackSafe()
      && units.IsRollbackSafe()
      && unitActions.IsRollbackSafe()
    }

    function Append(other: SystemDiff<T>): SystemDiff<T> {
      SystemDiff(
        networkd.Append(other.networkd), quadlets.Append(other.quadlets), symlinks.Append(other.symlinks),
        sysusers.Append(other.sysusers), units.Append(other.units), unitActions.Append(other.unitActions))
    }
  }

  const NO_CHANGES := SubdirChanges([], [], false)

  const EMPTY_DIFF: SystemDiff<Path> := SystemDiff(
    NO_CHANGES, NO_CHANGES, SymlinkChanges([], [], []), NO_CHANGES, NO_CHANGES, UnitActions([], [], []))

  /** The directory that an app's symlink sources are relative to. */
  function CurrentDir(appsDir: Path, app: Name): Path {
    appsDir + [app, "current"]
  }

  function ResolveSymlinks(d: SystemDiff<string>, app: Name, appsDir: Path): SystemDiff<Path> {
    var base := CurrentDir(appsDir, app);
    SystemDiff(
      d.networkd, d.quadlets,
      SymlinkChanges(MapPairs(d.symlinks.create, base), MapLinks(d.symlinks.remove), MapPairs(d.symlinks.change, base)),
      d.sysusers, d.units, d.unitActions)
  }

  // ----- App diffs -----

  /** Turn `current` into what it is after the changes in `diffs`. */
  ghost function ApplyDiffs(current: Apps, diffs: map<Name, AppDiff>): Apps {
    map a | a in current.Keys + diffs.Keys && !(a in diffs && diffs[a].Remove?)
      :: if a in diffs then diffs[a].After() else current[a]
  }

  ghost predicate IsAppDiff(current: Apps, target: Apps, a: Name, d: AppDiff) {
    match d
    case Add(n) => a !in current && a in target && target[a] == n
    case Remove(o) => a in current && a !in target && current[a] == o
    case Update(o, n) => a in current && a in target && current[a] == o && target[a] == n && o != n
  }

  ghost predicate Differs(current: Apps, target: Apps, a: Name) {
    (a in current) != (a in target) || (a in current && a in target && current[a] != target[a])
  }

  ghost predicate IsAppDiffs(current: Apps, target: Apps, diffs: map<Name, AppDiff>) {
    && (forall a :: a in diffs <==> Differs(current, target, a))
    && (forall a :: a in diffs ==> IsAppDiff(current, target, a, diffs[a]))
  }

  method DiffApps(current: Apps, target: Apps) returns (changes: map<Name, AppDiff>)
    ensures IsAppDiffs(current, target, changes)
  {
    changes := map[];
    var rest := target.Keys;
    while rest != {}
      invariant rest <= target.Keys
      invariant forall a :: a in changes <==> a in target.Keys - rest && Differs(current, target, a)
      invariant forall a :: a in changes ==> IsAppDiff(current, target, a, changes[a])
      decreases rest
    {
      var name :| name in rest;
      if name !in current {
        changes := changes[name := Add(target[name])];
      } else if current[name] != target[name] {
        changes := changes[name := Update(current[name], target[name])];
      }
      rest := rest - {name};
    }
    rest := current.Keys;
    while rest != {}
      invariant rest <= current.Keys
      invariant forall a :: a in changes <==> a in target.Keys + (current.Keys - rest) && Differs(current, target, a)
      invariant forall a :: a in changes ==> IsAppDiff(current, target, a, changes[a])
      decreases rest
    {
      var name :| name in rest;
      if name !in target {
        changes := changes[name := Remove(current[name])];
      }
      rest := rest - {name};
    }
  }

  /** The diffs are determined by the two sides, and carry the one over to the other. */
  lemma DiffsCarryOver(current: Apps, target: Apps, diffs: map<Name, AppDiff>, others: map<Name, AppDiff>)
    requires IsAppDiffs(current, target, diffs)
    ensures ApplyDiffs(current, diffs) == target
    ensures IsAppDiffs(current, target, others) ==> others == diffs
    ensures diffs == map[] <==> current == target
  {
  }

  // ----- One app -----

  /** Every read that a diff of this tree does succeeds. */
  predicate Readable(t: Tree) {
    ReadManifest(t).Ok? && forall s :: s in SUBDIRS ==> SubdirEntries(t, s).Ok?
  }

  function Files(t: Tree, subdir: Name): set<Path> {
    match SubdirEntries(t, subdir)
    case Ok(ps) => ps
    case Err(_) => {}
  }

  function Links(t: Tree): map<string, string> {
    match ReadManifest(t)
    case Ok(m) => m.symlinks
    case Err(_) => map[]
  }

  function Enabled(t: Tree): set<string> {
    match ReadManifest(t)
    case Ok(m) => EnabledUnits(m)
    case Err(_) => {}
  }

  ghost predicate IsSubdirChanges(c: SubdirChanges, oldTree: Tree, newTree: Tree, subdir: Name) {
    && Lists(c.link, Files(newTree, subdir) - Files(oldTree, subdir))
    && Lists(c.unlink, Files(oldTree, subdir) - Files(newTree, subdir))
    && (c.contentChanged <==> SubtreeOid(oldTree, subdir) != SubtreeOid(newTree, subdir))
  }

  method DiffSubdir(oldTree: Tree, newTree: Tree, subdir: Name) returns (r: Result<SubdirChanges, StoreError>)
    ensures r.Ok? <==> SubdirEntries(oldTree, subdir).Ok? && SubdirEntries(newTree, subdir).Ok?
    ensures r.Ok? ==> IsSubdirChanges(r.value, oldTree, newTree, subdir)
  {
    var oldFiles :- SubdirEntries(oldTree, subdir);
    var newFiles :- SubdirEntries(newTree, subdir);
    var link := ListOf(newFiles - oldFiles);
    var unlink := ListOf(oldFiles - newFiles);
    return Ok(SubdirChanges(link, unlink, SubtreeOid(oldTree, subdir) != SubtreeOid(newTree, subdir)));
  }

  /** A file added to or removed from a subdirectory always shows up as changed content. */
  lemma LinkImpliesContentChanged(c: SubdirChanges, oldTree: Tree, newTree: Tree, subdir: Name)
    requires IsSubdirChanges(c, oldTree, newTree, subdir)
    ensures c.link != [] || c.unlink != [] ==> c.contentChanged
  {
    if c.link != [] {
      assert c.link[0] in c.link;
      assert c.link[0] in Files(newTree, subdir) - Files(oldTree, subdir);
    }
    if c.unlink != [] {
      assert c.unlink[0] in c.unlink;
      assert c.unlink[0] in Files(oldTree, subdir) - Files(newTree, subdir);
    }
  }

  ghost function Created(previous: map<string, string>, target: map<string, string>): set<(string, string)> {
    set l | l in target && l !in previous :: (l, target[l])
  }

  ghost function Changed(previous: map<string, string>, target: map<string, string>): set<(string, string)> {
    set l | l in target && l in previous && previous[l] != target[l] :: (l, target[l])
  }

  ghost function Removed(previous: map<string, string>, target: map<string, string>): set<string> {
    previous.Keys - target.Keys
  }

  ghost predicate IsSymlinkChanges(c: SymlinkChanges<string>, previous: map<string, string>,
                                   target: map<string, string>) {
    && Lists(c.create, Created(previous, target))
    && Lists(c.remove, Removed(previous, target))
    && Lists(c.change, Changed(previous, target))
  }

  lemma NextLink(previous: map<string, string>, target: map<string, string>, rest: set<string>, link: string)
    requires link in rest && rest <= target.Keys
    ensures var seen, more := target - rest, target - (rest - {link});
            && Created(previous, more)
               == Created(previous, seen) + (if link in previous then {} else {(link, target[link])})
            && Changed(previous, more) == Changed(previous, seen)
                 + (if link in previous && previous[link] != target[link] then {(link, target[link])} else {})
            && (link, target[link]) !in Created(previous, seen) + Changed(previous, seen)
  {
  }

  method DiffSymlinks(previous: map<string, string>, target: map<string, string>)
    returns (changes: SymlinkChanges<string>)
    ensures IsSymlinkChanges(changes, previous, target)
  {
    changes := SymlinkChanges([], [], []);
    var rest := target.Keys;
    while rest != {}
      invariant rest <= target.Keys
      invariant changes.remove == []
      invariant Lists(changes.create, Created(previous, target - rest))
      invariant Lists(changes.change, Changed(previous, target - rest))
      decreases rest
    {
      var link :| link in rest;
      NextLink(previous, target, rest, link);
      if link !in previous {
        changes := changes.(create := changes.create + [(link, target[link])]);
      } else if previous[link] != target[link] {
        changes := changes.(change := changes.change + [(link, target[link])]);
      }
      rest := rest - {link};
    }
    assert target - {} == target;
    rest := previous.Keys;
    while rest != {}
      invariant rest <= previous.Keys
      invariant Lists(changes.create, Created(previous, target))
      invariant Lists(changes.change, Changed(previous, target))
      invariant Lists(changes.remove, Removed(previous, target) - rest)
      decreases rest
    {
      var link :| link in rest;
      if link !in target {
        changes := changes.(remove := changes.remove + [link]);
      }
      rest := rest - {link};
    }
  }

  ghost predicate IsUnitActions(c: UnitActions, prev: set<string>, target: set<string>) {
    && Lists(c.enable, target - prev)
    && Lists(c.restart, target * prev)
    && Lists(c.disable, prev - target)
  }

  method DiffEnabled(prev: set<string>, target: set<string>) returns (changes: UnitActions)
    ensures IsUnitActions(changes, prev, target)
  {
    changes := UnitActions([], [], []);
    var rest := target;
    while rest != {}
      invariant rest <= target
      invariant Lists(changes.enable, target - prev - rest)
      invariant Lists(changes.restart, target * prev - rest)
      invariant changes.disable == []
      decreases rest
    {
      var name :| name in rest;
      if name in prev {
        changes := changes.(restart := changes.restart + [name]);
      } else {
        changes := changes.(enable := changes.enable + [name]);
      }
      rest := rest - {name};
    }
    rest := prev;
    while rest != {}
      invariant rest <= prev
      invariant Lists(changes.enable, target - prev) && Lists(changes.restart, target * prev)
      invariant Lists(changes.disable, prev - target - rest)
      decreases rest
    {
      var name :| name in rest;
      if name !in target {
        changes := changes.(disable := changes.disable + [name]);
      }
      rest := rest - {name};
    }
  }

  ghost predicate IsSystemDiff(c: SystemDiff<string>, oldTree: Tree, newTree: Tree) {
    && IsSubdirChanges(c.networkd, oldTree, newTree, NETWORKD)
    && IsSubdirChanges(c.quadlets, oldTree, newTree, QUADLETS)
    && IsSymlinkChanges(c.symlinks, Links(oldTree), Links(newTree))
    && IsSubdirChanges(c.sysusers, oldTree, newTree, SYSUSERS)
    && IsSubdirChanges(c.units, oldTree, newTree, UNITS)
    && IsUnitActions(c.unitActions, Enabled(oldTree), Enabled(newTree))
  }

  method ComputeSystemDiff(diff: AppDiff) returns (r: Result<SystemDiff<string>, StoreError>)
    ensures r.Ok? <==> Readable(diff.Before()) && Readable(diff.After())
    ensures r.Ok? ==> IsSystemDiff(r.value, diff.Before(), diff.After())
  {
    var before, after := diff.Before(), diff.After();
    var networkd :- DiffSubdir(before, after, NETWORKD);
    var quadlets :- DiffSubdir(before, after, QUADLETS);
    var oldManifest :- ReadManifest(before);
    var newManifest :- ReadManifest(after);
    var symlinks := DiffSymlinks(oldManifest.symlinks, newManifest.symlinks);
    var sysusers :- DiffSubdir(before, after, SYSUSERS);
    var units :- DiffSubdir(before, after, UNITS);
    var unitActions := DiffEnabled(EnabledUnits(oldManifest), EnabledUnits(newManifest));
    return Ok(SystemDiff(networkd, quadlets, symlinks, sysusers, units, unitActions));
  }

  // ----- Rollback safety: one verdict, reached on both sides -----

  /** No file is added to any directory. */
  ghost predicate NoFileLinked(before: Tree, after: Tree) {
    forall s :: s in SUBDIRS ==> Files(after, s) <= Files(before, s)
  }

  /**
    The verdict in terms of the trees alone: every file, link and enabled unit
    that an app has after the change, it had before.
   */
  ghost predicate SafeChange(before: Tree, after: Tree) {
    && NoFileLinked(before, after)
    && Links(after).Keys <= Links(before).Keys
    && Enabled(after) <= Enabled(before)
  }

  ghost predicate SafeHostChange(current: Apps, target: Apps) {
    forall a :: Differs(current, target, a) ==>
      SafeChange(TreeOf(current, a), TreeOf(target, a))
  }

  lemma ListsEmpty<T(!new)>(l: seq<T>, s: set<T>)
    requires Lists(l, s)
    ensures l == [] <==> s == {}
  {
    if l != [] { assert l[0] in l; }
  }

  lemma DifferenceEmpty<T>(a: set<T>, b: set<T>)
    ensures a - b == {} <==> a <= b
  {
    if a - b == {} {
      forall x | x in a ensures x in b {
        assert x !in a - b;
      }
    }
  }

  lemma {:induction false} SafeVerdict(c: SystemDiff<string>, before: Tree, after: Tree)
    requires IsSystemDiff(c, before, after)
    ensures c.IsRollbackSafe() <==> SafeChange(before, after)
  {
    forall s: Name, l: seq<Path> | Lists(l, Files(after, s) - Files(before, s))
      ensures l == [] <==> Files(after, s) <= Files(before, s)
    {
      DifferenceEmpty(Files(after, s), Files(before, s));
      ListsEmpty(l, Files(after, s) - Files(before, s));
    }
    ListsEmpty(c.symlinks.create, Created(Links(before), Links(after)));
    if Links(after).Keys <= Links(before).Keys {
      assert Created(Links(before), Links(after)) == {};
    } else {
      var l :| l in Links(after) && l !in Links(before);
      assert (l, Links(after)[l]) in Created(Links(before), Links(after));
    }
    DifferenceEmpty(Enabled(after), Enabled(before));
    ListsEmpty(c.unitActions.enable, Enabled(after) - Enabled(before));
  }

  // ----- A whole host -----

  function SetOf<T>(l: seq<T>): set<T> {
    set x | x in l
  }

  /** The apps tree entries of a host in a commit's config tree. */
  function GetHostApps(config: Tree, host: Name): Apps {
    match SubtreeOid(config, host)
    case None => map[]
    case Some(t) => TreeEntries(t)
  }

  ghost function LinkedFiles(d: AppDiff, s: Name): set<Path> {
    Files(d.After(), s) - Files(d.Before(), s)
  }

  ghost function UnlinkedFiles(d: AppDiff, s: Name): set<Path> {
    Files(d.Before(), s) - Files(d.After(), s)
  }

  ghost function RemovedLinks(d: AppDiff): set<Path> {
    set k | k in Removed(Links(d.Before()), Links(d.After())) :: ToPath(k)
  }

  ghost function Resolved(pairs: set<(string, string)>, base: Path): set<(Path, Path)> {
    set q | q in pairs :: (ToPath(q.0), Joined(base, ToPath(q.1)))
  }

  ghost function ChangedLinks(appsDir: Path, app: Name, d: AppDiff): set<(Path, Path)> {
    Resolved(Changed(Links(d.Before()), Links(d.After())), CurrentDir(appsDir, app))
  }

  ghost function CreatedLinks(appsDir: Path, app: Name, d: AppDiff): set<(Path, Path)> {
    Resolved(Created(Links(d.Before()), Links(d.After())), CurrentDir(appsDir, app))
  }

  ghost predicate AggregatesSubdir(c: SubdirChanges, diffs: map<Name, AppDiff>, s: Name) {
    && SetOf(c.link) == (set a, p | a in diffs && p in LinkedFiles(diffs[a], s) :: p)
    && SetOf(c.unlink) == (set a, p | a in diffs && p in UnlinkedFiles(diffs[a], s) :: p)
    && (c.contentChanged <==>
          exists a :: a in diffs && SubtreeOid(diffs[a].Before(), s) != SubtreeOid(diffs[a].After(), s))
  }

  ghost predicate AggregatesLinks(c: SymlinkChanges<Path>, appsDir: Path, diffs: map<Name, AppDiff>) {
    && SetOf(c.remove) == (set a, l | a in diffs && l in RemovedLinks(diffs[a]) :: l)
    && SetOf(c.change) == (set a, p | a in diffs && p in ChangedLinks(appsDir, a, diffs[a]) :: p)
    && SetOf(c.create) == (set a, p | a in diffs && p in CreatedLinks(appsDir, a, diffs[a]) :: p)
  }

  ghost predicate AggregatesUnits(c: UnitActions, diffs: map<Name, AppDiff>) {
    && SetOf(c.enable) == (set a, u | a in diffs && u in Enabled(diffs[a].After()) - Enabled(diffs[a].Before()) :: u)
    && SetOf(c.restart) == (set a, u | a in diffs && u in Enabled(diffs[a].After()) * Enabled(diffs[a].Before()) :: u)
    && SetOf(c.disable) == (set a, u | a in diffs && u in Enabled(diffs[a].Before()) - Enabled(diffs[a].After()) :: u)
  }

  /** `sys` is what the changes of all apps in `diffs` add up to. */
  ghost predicate IsAggregate(sys: SystemDiff<Path>, appsDir: Path, diffs: map<Name, AppDiff>) {
    && AggregatesSubdir(sys.networkd, diffs, NETWORKD)
    && AggregatesSubdir(sys.quadlets, diffs, QUADLETS)
    && AggregatesLinks(sys.symlinks, appsDir, diffs)
    && AggregatesSubdir(sys.sysusers, diffs, SYSUSERS)
    && AggregatesSubdir(sys.units, diffs, UNITS)
    && AggregatesUnits(sys.unitActions, diffs)
  }

  lemma SetOfAppend<T>(a: seq<T>, b: seq<T>)
    ensures SetOf(a + b) == SetOf(a) + SetOf(b)
  {
  }

  lemma SubdirStep(c: SubdirChanges, diffs: map<Name, AppDiff>, s: Name, app: Name, d: AppDiff, more: SubdirChanges)
    requires app !in diffs && AggregatesSubdir(c, diffs, s) && IsSubdirChanges(more, d.Before(), d.After(), s)
    ensures AggregatesSubdir(c.Append(more), diffs[app := d], s)
  {
    SetOfAppend(c.link, more.link);
    SetOfAppend(c.unlink, more.unlink);
    var next := diffs[app := d];
    assert SetOf(more.link) == LinkedFiles(d, s) && SetOf(more.unlink) == UnlinkedFiles(d, s);
    forall a | a in diffs ensures next[a] == diffs[a] {}
    assert next[app] == d;
  }

  lemma ResolvedPairs(ps: seq<(string, string)>, pairs: set<(string, string)>, base: Path)
    requires Lists(ps, pairs)
    ensures SetOf(MapPairs(ps, base)) == Resolved(pairs, base)
  {
  }

  lemma ResolvedLinks(ls: seq<string>, links: set<string>)
    requires Lists(ls, links)
    ensures SetOf(MapLinks(ls)) == set k | k in links :: ToPath(k)
  {
  }

  lemma LinksStep(c: SymlinkChanges<Path>, appsDir: Path, diffs: map<Name, AppDiff>, app: Name, d: AppDiff,
                  more: SymlinkChanges<Path>)
    requires app !in diffs && AggregatesLinks(c, appsDir, diffs)
    requires SetOf(more.remove) == RemovedLinks(d)
    requires SetOf(more.change) == ChangedLinks(appsDir, app, d)
    requires SetOf(more.create) == CreatedLinks(appsDir, app, d)
    ensures AggregatesLinks(c.Append(more), appsDir, diffs[app := d])
  {
    SetOfAppend(c.remove, more.remove);
    SetOfAppend(c.change, more.change);
    SetOfAppend(c.create, more.create);
    var next := diffs[app := d];
    forall a | a in diffs ensures next[a] == diffs[a] {}
    assert next[app] == d;
  }

  lemma UnitsStep(c: UnitActions, diffs: map<Name, AppDiff>, app: Name, d: AppDiff, more: UnitActions)
    requires app !in diffs && AggregatesUnits(c, diffs)
    requires IsUnitActions(more, Enabled(d.Before()), Enabled(d.After()))
    ensures AggregatesUnits(c.Append(more), diffs[app := d])
  {
    SetOfAppend(c.enable, more.enable);
    SetOfAppend(c.restart, more.restart);
    SetOfAppend(c.disable, more.disable);
    assert SetOf(more.enable) == Enabled(d.After()) - Enabled(d.Before());
    assert SetOf(more.restart) == Enabled(d.After()) * Enabled(d.Before());
    assert SetOf(more.disable) == Enabled(d.Before()) - Enabled(d.After());
    var next := diffs[app := d];
    forall a | a in diffs ensures next[a] == diffs[a] {}
    assert next[app] == d;
  }

  lemma AggregateStep(sys: SystemDiff<Path>, appsDir: Path, diffs: map<Name, AppDiff>, app: Name, d: AppDiff,
                      more: SystemDiff<string>)
    requires app !in diffs && IsAggregate(sys, appsDir, diffs)
    requires IsSystemDiff(more, d.Before(), d.After())
    ensures IsAggregate(sys.Append(ResolveSymlinks(more, app, appsDir)), appsDir, diffs[app := d])
  {
    var base := CurrentDir(appsDir, app);
    ResolvedPairs(more.symlinks.create, Created(Links(d.Before()), Links(d.After())), base);
    ResolvedPairs(more.symlinks.change, Changed(Links(d.Before()), Links(d.After())), base);
    ResolvedLinks(more.symlinks.remove, Removed(Links(d.Before()), Links(d.After())));
    SubdirStep(sys.networkd, diffs, NETWORKD, app, d, more.networkd);
    SubdirStep(sys.quadlets, diffs, QUADLETS, app, d, more.quadlets);
    SubdirStep(sys.sysusers, diffs, SYSUSERS, app, d, more.sysusers);
    SubdirStep(sys.units, diffs, UNITS, app, d, more.units);
    LinksStep(sys.symlinks, appsDir, diffs, app, d, ResolveSymlinks(more, app, appsDir).symlinks);
    UnitsStep(sys.unitActions, diffs, app, d, more.unitActions);
  }

  lemma EmptyAggregate(appsDir: Path)
    ensures IsAggregate(EMPTY_DIFF, appsDir, map[])
  {
  }

  ghost predicate AllReadable(diffs: map<Name, AppDiff>) {
    forall a :: a in diffs ==> Readable(diffs[a].Before()) && Readable(diffs[a].After())
  }

  ghost predicate ReadableChange(current: Apps, target: Apps) {
    forall a :: Differs(current, target, a) ==> Readable(TreeOf(current, a)) && Readable(TreeOf(target, a))
  }

  lemma DiffSides(current: Apps, target: Apps, diffs: map<Name, AppDiff>)
    requires IsAppDiffs(current, target, diffs)
    ensures forall a :: a in diffs ==> diffs[a].Before() == TreeOf(current, a) && diffs[a].After() == TreeOf(target, a)
    ensures AllReadable(diffs) <==> ReadableChange(current, target)
  {
  }

  /** Compute, resolve and append the system diffs of all changed apps. */
  method AggregateDiffs(appsDir: Path, diffs: map<Name, AppDiff>) returns (r: Result<SystemDiff<Path>, StoreError>)
    ensures r.Ok? ==> IsAggregate(r.value, appsDir, diffs)
    ensures r.Ok? <==> AllReadable(diffs)
  {
    hide IsAggregate, IsSystemDiff, Readable, EMPTY_DIFF;
    EmptyAggregate(appsDir);
    var system := EMPTY_DIFF;
    ghost var seen: map<Name, AppDiff> := map[];
    var rest := diffs.Keys;
    while rest != {}
      invariant rest <= diffs.Keys && seen == diffs - rest
      invariant IsAggregate(system, appsDir, seen)
      invariant AllReadable(seen)
      decreases rest
    {
      var app :| app in rest;
      var computed := ComputeSystemDiff(diffs[app]);
      if computed.Err? {
        return Err(computed.error);
      }
      var resolved := ResolveSymlinks(computed.value, app, appsDir);
      AggregateStep(system, appsDir, seen, app, diffs[app], computed.value);
      system := system.Append(resolved);
      rest := rest - {app};
      seen := seen[app := diffs[app]];
      assert seen == diffs - rest;
    }
    assert seen == diffs;
    return Ok(system);
  }

  /**
    The agent's side: app diffs between the host's entries in two commits, and
    their aggregate. `None` stands for an empty host.
   */
  method DiffHost(host: Name, appsDir: Path, current: Option<Tree>, target: Option<Tree>)
    returns (r: Result<(map<Name, AppDiff>, SystemDiff<Path>), StoreError>)
    ensures r.Ok? ==> IsAppDiffs(AppsIn(current, host), AppsIn(target, host), r.value.0)
    ensures r.Ok? ==> IsAggregate(r.value.1, appsDir, r.value.0)
    ensures r.Ok? <==> ReadableChange(AppsIn(current, host), AppsIn(target, host))
  {
    hide IsAggregate, ReadableChange, AllReadable;
    var currentApps, targetApps := AppsIn(current, host), AppsIn(target, host);
    var diffs := DiffApps(currentApps, targetApps);
    DiffSides(currentApps, targetApps, diffs);
    var system :- AggregateDiffs(appsDir, diffs);
    return Ok((diffs, system));
  }

  function AppsIn(config: Option<Tree>, host: Name): Apps {
    if config.Some? then GetHostApps(config.value, host) else map[]
  }

  /** An app's tree, the empty tree if there is no such app. */
  function TreeOf(apps: Apps, a: Name): Tree {
    if a in apps then apps[a] else EMPTY_TREE
  }

  datatype AppPlan = AppPlan(diff: AppDiff, system: SystemDiff<string>)

  ghost predicate IsAppPlans(current: Apps, target: Apps, plans: map<Name, AppPlan>) {
    && (forall a :: a in plans <==> Differs(current, target, a))
    && (forall a :: a in plans ==>
          && IsAppDiff(current, target, a, plans[a].diff)
          && IsSystemDiff(plans[a].system, plans[a].diff.Before(), plans[a].diff.After()))
  }

  /** The driver's side: the plan for one host, with the conjunction of the per-app verdicts. */
  method PlanApps(current: Apps, target: Apps) returns (r: Result<(map<Name, AppPlan>, bool), StoreError>)
    ensures r.Ok? ==> IsAppPlans(current, target, r.value.0)
    ensures r.Ok? ==> (r.value.1 <==> forall a :: a in r.value.0 ==> r.value.0[a].system.IsRollbackSafe())
    ensures r.Ok? <==> ReadableChange(current, target)
  {
    hide IsSystemDiff, Readable, SystemDiff.IsRollbackSafe, IsAppDiff, ReadableChange;
    var diffs := DiffApps(current, target);
    DiffSides(current, target, diffs);
    var apps: map<Name, AppPlan> := map[];
    var isRollbackSafe := true;
    var rest := diffs.Keys;
    while rest != {}
      invariant rest <= diffs.Keys && apps.Keys == diffs.Keys - rest
      invariant forall a :: a in apps ==> apps[a].diff == diffs[a]
      invariant forall a :: a in apps ==> Readable(diffs[a].Before()) && Readable(diffs[a].After())
      invariant forall a :: a in apps ==> IsSystemDiff(apps[a].system, diffs[a].Before(), diffs[a].After())
      invariant isRollbackSafe <==> forall a :: a in apps ==> apps[a].system.IsRollbackSafe()
      decreases rest
    {
      var name :| name in rest;
      var computed := ComputeSystemDiff(diffs[name]);
      if computed.Err? {
        return Err(computed.error);
      }
      isRollbackSafe := isRollbackSafe && computed.value.IsRollbackSafe();
      apps := apps[name := AppPlan(diffs[name], computed.value)];
      rest := rest - {name};
    }
    return Ok((apps, isRollbackSafe));
  }

  lemma SetOfEmpty<T>(l: seq<T>)
    ensures l == [] <==> SetOf(l) == {}
  {
    if l != [] { assert l[0] in SetOf(l); }
  }

  lemma AggregateSubdirEmpty(c: SubdirChanges, diffs: map<Name, AppDiff>, s: Name)
    requires AggregatesSubdir(c, diffs, s)
    ensures c.IsRollbackSafe() <==> forall a :: a in diffs ==> Files(diffs[a].After(), s) <= Files(diffs[a].Before(), s)
  {
    SetOfEmpty(c.link);
    forall a | a in diffs
      ensures (forall p :: p in LinkedFiles(diffs[a], s) ==> p in SetOf(c.link))
      ensures LinkedFiles(diffs[a], s) == {} <==> Files(diffs[a].After(), s) <= Files(diffs[a].Before(), s)
    {
      DifferenceEmpty(Files(diffs[a].After(), s), Files(diffs[a].Before(), s));
    }
    if SetOf(c.link) == {} {
      forall a | a in diffs ensures LinkedFiles(diffs[a], s) == {} {
        forall p ensures p !in LinkedFiles(diffs[a], s) {}
      }
    }
  }

  lemma CreatedEmpty(appsDir: Path, app: Name, d: AppDiff)
    ensures CreatedLinks(appsDir, app, d) == {} <==> Links(d.After()).Keys <= Links(d.Before()).Keys
  {
    var before, after := Links(d.Before()), Links(d.After());
    if CreatedLinks(appsDir, app, d) == {} {
      forall k | k in after ensures k in before {
        assert k !in before ==> (k, after[k]) in Created(before, after);
        var p := (ToPath(k), Joined(CurrentDir(appsDir, app), ToPath(after[k])));
        assert k !in before ==> p in CreatedLinks(appsDir, app, d);
      }
    }
  }

  lemma AggregateLinksEmpty(c: SymlinkChanges<Path>, appsDir: Path, diffs: map<Name, AppDiff>)
    requires AggregatesLinks(c, appsDir, diffs)
    ensures c.IsRollbackSafe() <==>
              forall a :: a in diffs ==> Links(diffs[a].After()).Keys <= Links(diffs[a].Before()).Keys
  {
    SetOfEmpty(c.create);
    forall a | a in diffs
      ensures (forall p :: p in CreatedLinks(appsDir, a, diffs[a]) ==> p in SetOf(c.create))
      ensures CreatedLinks(appsDir, a, diffs[a]) == {} <==>
                Links(diffs[a].After()).Keys <= Links(diffs[a].Before()).Keys
    {
      CreatedEmpty(appsDir, a, diffs[a]);
    }
    if SetOf(c.create) == {} {
      forall a | a in diffs ensures CreatedLinks(appsDir, a, diffs[a]) == {} {
        forall p ensures p !in CreatedLinks(appsDir, a, diffs[a]) {}
      }
    }
  }

  lemma AggregateUnitsEmpty(c: UnitActions, diffs: map<Name, AppDiff>)
    requires AggregatesUnits(c, diffs)
    ensures c.IsRollbackSafe() <==> forall a :: a in diffs ==> Enabled(diffs[a].After()) <= Enabled(diffs[a].Before())
  {
    SetOfEmpty(c.enable);
    forall a | a in diffs
      ensures (forall u :: u in Enabled(diffs[a].After()) - Enabled(diffs[a].Before()) ==> u in SetOf(c.enable))
    {}
    if SetOf(c.enable) == {} {
      forall a, u | a in diffs && u in Enabled(diffs[a].After()) ensures u in Enabled(diffs[a].Before()) {
        assert u !in SetOf(c.enable);
        assert u !in Enabled(diffs[a].After()) - Enabled(diffs[a].Before());
      }
    }
  }

  lemma AggregateFilesEmpty(sys: SystemDiff<Path>, appsDir: Path, diffs: map<Name, AppDiff>)
    requires IsAggregate(sys, appsDir, diffs)
    ensures && sys.networkd.IsRollbackSafe() && sys.quadlets.IsRollbackSafe()
            && sys.sysusers.IsRollbackSafe() && sys.units.IsRollbackSafe()
            <==> forall a :: a in diffs ==> NoFileLinked(diffs[a].Before(), diffs[a].After())
  {
    hide AggregatesSubdir, AggregatesLinks, AggregatesUnits, Files, Links, Enabled, SymlinkChanges.IsRollbackSafe;
    hide UnitActions.IsRollbackSafe;
    AggregateSubdirEmpty(sys.networkd, diffs, NETWORKD);
    AggregateSubdirEmpty(sys.quadlets, diffs, QUADLETS);
    AggregateSubdirEmpty(sys.sysusers, diffs, SYSUSERS);
    AggregateSubdirEmpty(sys.units, diffs, UNITS);
  }

  /** The verdict on an aggregate, in terms of the changed apps' trees. */
  lemma AggregateVerdict(sys: SystemDiff<Path>, appsDir: Path, diffs: map<Name, AppDiff>)
    requires IsAggregate(sys, appsDir, diffs)
    ensures sys.IsRollbackSafe() <==> forall a :: a in diffs ==> SafeChange(diffs[a].Before(), diffs[a].After())
  {
    hide AggregatesSubdir, AggregatesLinks, AggregatesUnits, Files, Links, Enabled;
    hide SubdirChanges.IsRollbackSafe, SymlinkChanges.IsRollbackSafe, UnitActions.IsRollbackSafe;
    AggregateFilesEmpty(sys, appsDir, diffs);
    AggregateLinksEmpty(sys.symlinks, appsDir, diffs);
    AggregateUnitsEmpty(sys.unitActions, diffs);
    hide IsAggregate;
  }

  /** The driver's conjunction over the per-app diffs, in terms of the trees. */
  lemma PlansVerdict(current: Apps, target: Apps, plans: map<Name, AppPlan>)
    requires IsAppPlans(current, target, plans)
    ensures (forall a :: a in plans ==> plans[a].system.IsRollbackSafe()) <==> SafeHostChange(current, target)
  {
    hide SafeChange, IsSystemDiff, SystemDiff.IsRollbackSafe;
    forall a | a in plans
      ensures plans[a].system.IsRollbackSafe() <==> SafeChange(TreeOf(current, a), TreeOf(target, a))
    {
      assert IsAppDiff(current, target, a, plans[a].diff);
      SafeVerdict(plans[a].system, plans[a].diff.Before(), plans[a].diff.After());
    }
  }

  /**
    The agent's verdict on the appended, path-resolved aggregate is the
    driver's conjunction over the per-app diffs: both ask the same of the trees.
   */
  lemma {:induction false} VerdictsAgree(current: Apps, target: Apps, diffs: map<Name, AppDiff>, appsDir: Path,
                                         sys: SystemDiff<Path>, plans: map<Name, AppPlan>)
    requires IsAppDiffs(current, target, diffs) && IsAggregate(sys, appsDir, diffs)
    requires IsAppPlans(current, target, plans)
    ensures sys.IsRollbackSafe() <==> SafeHostChange(current, target)
    ensures sys.IsRollbackSafe() <==> forall a :: a in plans ==> plans[a].system.IsRollbackSafe()
  {
    hide IsAggregate, SafeChange, IsAppPlans, SystemDiff.IsRollbackSafe, TreeOf, Differs;
    AggregateVerdict(sys, appsDir, diffs);
    DiffSides(current, target, diffs);
    PlansVerdict(current, target, plans);
  }
}
