/** Manifest symlinks: run the link changes of a diff on the filesystem. */
module ManifestLinks {
  import opened Wrappers
  import opened Paths
  import opened Trees
  import opened Plan
  import opened Desired
  import opened Filesystem

  // ----- Comparing a file to the source of its link -----

  const CHUNK: nat := 8192

  /** Compare two files chunk by chunk; their lengths are known to agree. */
  method SameContents(source: string, link: string) returns (same: bool)
    requires |source| == |link|
    ensures same <==> source == link
  {
    var pos := 0;
    while true
      invariant 0 <= pos <= |source| && source[..pos] == link[..pos]
      decreases |source| - pos
    {
      var n := if |source| - pos < CHUNK then |source| - pos else CHUNK;
      if source[pos..pos + n] != link[pos..pos + n] {
        assert source[pos..pos + n] != link[pos..pos + n];
        return false;
      }
      assert source[..pos + n] == source[..pos] + source[pos..pos + n];
      assert link[..pos + n] == link[..pos] + link[pos..pos + n];
      if n == 0 {
        assert source[..pos] == source && link[..pos] == link;
        return true;
      }
      pos := pos + n;
    }
  }

  /** What `appsDir/<app>/current` and the paths below it resolve to. */
  function Resolve(apps: map<Name, AppDir>, appsDir: Path, p: Path): Option<Tree> {
    if |p| >= |appsDir| + 2 && appsDir <= p && p[|appsDir| + 1] == "current" && p[|appsDir|] in apps then
      var dir := apps[p[|appsDir|]];
      if dir.current.Some? && dir.current.value in dir.versions
      then Lookup(dir.versions[dir.current.value], p[|appsDir| + 2..])
      else None
    else None
  }

  datatype LinkState = PointsAtSource | MatchingFile | DirectoryState | Mismatch | Unreadable

  /** `link` holds a regular file with the contents of the app file that `source` resolves to. */
  ghost predicate Identical(fs: Fs, apps: map<Name, AppDir>, appsDir: Path, source: Path, link: Path) {
    && link in fs && fs[link].RegularFile?
    && var s := Resolve(apps, appsDir, source);
       s.Some? && s.value.Blob? && s.value.content.data == fs[link].content.data
  }

  /**
    What occupies the link path. A symlink to somewhere else is judged by what
    it leads to, which is not part of the model: any state is possible.
   */
  method ClassifyLink(fs: HostFs, appsDir: Path, source: Path, link: Path) returns (state: LinkState)
    requires link in fs.tree
    modifies fs`faults
    ensures state == PointsAtSource <==> fs.tree[link] == Link(source)
    ensures fs.tree[link].Directory? ==> state == DirectoryState || state == Unreadable
    ensures fs.tree[link].RegularFile? && state == MatchingFile ==> Identical(fs.tree, fs.apps, appsDir, source, link)
    ensures fs.tree[link].RegularFile? && state == Mismatch ==> !Identical(fs.tree, fs.apps, appsDir, source, link)
    ensures fs.tree[link].RegularFile? ==> state != DirectoryState
    ensures old(fs.faults) <= fs.faults
    ensures state != Unreadable ==> fs.faults == old(fs.faults)
    ensures state == Unreadable ==> old(fs.faults) < fs.faults || Resolve(fs.apps, appsDir, source).None?
  {
    if fs.tree[link] == Link(source) {
      return PointsAtSource;
    }
    var resolved := Resolve(fs.apps, appsDir, source);
    var fails := fs.MayFail();
    if fails || resolved.None? {
      return Unreadable;
    }
    match fs.tree[link] {
      case Directory =>
        return DirectoryState;
      case RegularFile(content) =>
        match resolved.value {
          case Dir(_) =>
            return Mismatch;
          case Blob(sourceContent) =>
            if |sourceContent.data| != |content.data| {
              return Mismatch;
            }
            var same := SameContents(sourceContent.data, content.data);
            return if same then MatchingFile else Mismatch;
        }
      case Link(_) =>
        var matches := *;
        var isDir := *;
        return if matches then MatchingFile else if isDir then DirectoryState else Mismatch;
    }
  }

  /**
    Nothing is in the way of a link: it is there already, or an identical file,
    or nothing but a directory to put it in.
   */
  ghost predicate CreateRuns(fs: Fs, apps: map<Name, AppDir>, appsDir: Path, p: Path, s: Path) {
    if p in fs then fs[p] == Link(s) || Identical(fs, apps, appsDir, s, p) else |p| > 1 && IsDir(fs, Parent(p))
  }

  /** Replace what is at the path by the link. */
  method AdoptFile(fs: HostFs, source: Path, link: Path) returns (ok: bool)
    requires WellFormed(fs.tree) && link in fs.tree
    modifies fs`tree, fs`faults
    ensures WellFormed(fs.tree) && old(fs.faults) <= fs.faults
    ensures ok ==> fs.tree == old(fs.tree)[link := Link(source)]
    ensures !ok ==> fs.tree == old(fs.tree) || fs.tree == old(fs.tree) - {link}
    ensures !ok ==> old(fs.faults) < fs.faults || old(fs.tree)[link].Directory?
  {
    ghost var before := fs.tree;
    ok := fs.RemoveFile(link);
    if ok {
      StillAParent(before, link);
      var occupied;
      ok, occupied := fs.Symlink(source, link);
      assert ok ==> fs.tree == before[link := Link(source)];
    }
  }

  /** Create a link, adopting a file with the contents of the source. */
  method CreateSymlink(fs: HostFs, appsDir: Path, source: Path, link: Path) returns (ok: bool)
    requires WellFormed(fs.tree)
    modifies fs`tree, fs`faults
    ensures WellFormed(fs.tree)
    ensures ok ==> fs.tree == old(fs.tree)[link := Link(source)]
    ensures !ok ==> fs.tree == old(fs.tree) || (link in old(fs.tree) && fs.tree == old(fs.tree) - {link})
    ensures link in old(fs.tree) && fs.tree != old(fs.tree) ==>
              old(fs.tree)[link].Link? || Identical(old(fs.tree), fs.apps, appsDir, source, link)
    ensures old(fs.faults) <= fs.faults
    ensures link !in old(fs.tree) ==>
              if ok then |link| > 1 && IsDir(old(fs.tree), Parent(link))
              else
                && fs.tree == old(fs.tree)
                && (old(fs.faults) < fs.faults || |link| <= 1 || !IsDir(old(fs.tree), Parent(link)))
    ensures CreateRuns(old(fs.tree), fs.apps, appsDir, link, source) && fs.faults == old(fs.faults) ==> ok
  {
    var occupied;
    ok, occupied := fs.Symlink(source, link);
    if !ok && occupied {
      var state := ClassifyLink(fs, appsDir, source, link);
      match state {
        case PointsAtSource =>
          ok := true;
        case MatchingFile =>
          ok := AdoptFile(fs, source, link);
        case _ =>
      }
    }
  }

  /** A symlink that Deptool did not create: it points outside the apps directory. */
  predicate Foreign(appsDir: Path, node: FsNode) {
    node.Link? && !StartsWith(node.target, appsDir)
  }

  /** `verify_managed`: nothing foreign at the path. */
  method VerifyManaged(fs: HostFs, appsDir: Path, link: Path) returns (ok: bool)
    ensures ok <==> (link in fs.tree ==> !Foreign(appsDir, fs.tree[link]))
  {
    if link in fs.tree {
      match fs.tree[link] {
        case Link(actual) => return StartsWith(actual, appsDir);
        case _ =>
      }
    }
    return true;
  }

  /** What the remove and change passes take away: a link into the apps directory, or a regular file. */
  predicate Removable(appsDir: Path, node: FsNode) {
    node.RegularFile? || (node.Link? && StartsWith(node.target, appsDir))
  }

  /** Verify, then remove. */
  method TakeAway(fs: HostFs, appsDir: Path, p: Path) returns (ok: bool)
    requires WellFormed(fs.tree) && p in fs.tree
    modifies fs`tree, fs`faults
    ensures WellFormed(fs.tree) && old(fs.faults) <= fs.faults
    ensures ok ==> Removable(appsDir, old(fs.tree)[p]) && fs.tree == old(fs.tree) - {p}
    ensures !ok ==> fs.tree == old(fs.tree) && (old(fs.faults) < fs.faults || !Removable(appsDir, old(fs.tree)[p]))
  {
    ok := VerifyManaged(fs, appsDir, p);
    if ok {
      ok := fs.RemoveFile(p);
    }
  }

  ghost predicate RemovedOrChanged(c: SymlinkChanges<Path>, p: Path) {
    p in c.remove || exists s :: (p, s) in c.change
  }

  /** The changes may take away what was at `p`. */
  ghost predicate MayReplace(before: Fs, apps: map<Name, AppDir>, appsDir: Path, c: SymlinkChanges<Path>, p: Path)
    requires p in before
  {
    || (RemovedOrChanged(c, p) && Removable(appsDir, before[p]))
    || exists s :: (p, s) in c.create && (before[p].Link? || Identical(before, apps, appsDir, s, p))
  }

  ghost predicate Unchanged(before: Fs, after: Fs, p: Path) {
    p in after && p in before && after[p] == before[p]
  }

  /** Whatever is gone or different was there to be replaced. */
  ghost predicate Spared(before: Fs, after: Fs, apps: map<Name, AppDir>, appsDir: Path, c: SymlinkChanges<Path>) {
    forall p :: p in before && !Unchanged(before, after, p) ==> MayReplace(before, apps, appsDir, c, p)
  }

  /** The remove pass gets through: nothing at its paths but what it may take away. */
  ghost predicate RemovesRun(fs: Fs, appsDir: Path, c: SymlinkChanges<Path>) {
    forall p :: p in c.remove && p in fs ==> Removable(appsDir, fs[p])
  }

  /** So does the change pass; a link that is not there needs a directory to be put in. */
  ghost predicate ChangeRuns(fs: Fs, appsDir: Path, p: Path) {
    if p in fs then Removable(appsDir, fs[p]) else |p| > 1 && IsDir(fs, Parent(p))
  }

  ghost predicate ChangesRun(fs: Fs, appsDir: Path, c: SymlinkChanges<Path>) {
    forall p, s :: (p, s) in c.change ==> ChangeRuns(fs, appsDir, p)
  }

  ghost predicate CreatesRun(fs: Fs, apps: map<Name, AppDir>, appsDir: Path, c: SymlinkChanges<Path>) {
    Functional(c.create) && forall p, s :: (p, s) in c.create ==> CreateRuns(fs, apps, appsDir, p, s)
  }

  /** All three passes get through. */
  ghost predicate ConfigRuns(fs: Fs, apps: map<Name, AppDir>, appsDir: Path, c: SymlinkChanges<Path>) {
    && RemovesRun(fs, appsDir, c) && SourcesInside(appsDir, c)
    && ChangesRun(fs - SetOf(c.remove), appsDir, c)
    && CreatesRun(PutLinks(fs - SetOf(c.remove), c.change), apps, appsDir, c)
  }

  /** The sources of changed links are inside the apps directory, as those of every diff are. */
  ghost predicate SourcesInside(appsDir: Path, c: SymlinkChanges<Path>) {
    forall p, s :: (p, s) in c.change ==> StartsWith(s, appsDir)
  }

  // ----- Running the changes -----

  function PutLinks(fs: Fs, pairs: seq<(Path, Path)>): Fs
    decreases |pairs|
  {
    if pairs == [] then fs else PutLinks(fs[pairs[0].0 := Link(pairs[0].1)], pairs[1..])
  }

  /** The tree after removes, changes and creates. */
  ghost function LinksRun(fs: Fs, c: SymlinkChanges<Path>): Fs {
    PutLinks(PutLinks(fs - SetOf(c.remove), c.change), c.create)
  }

  ghost predicate Touched(c: SymlinkChanges<Path>, p: Path) {
    p in c.remove || exists s :: (p, s) in c.change || (p, s) in c.create
  }

  /**
    What holds after any part of the changes: only touched paths differ, and
    they are gone or linked as the changes say.
   */
  ghost predicate LinksPartly(before: Fs, after: Fs, c: SymlinkChanges<Path>) {
    && WellFormed(after)
    && (forall p :: !Touched(c, p) ==> (p in after <==> p in before) && (p in after ==> after[p] == before[p]))
    && (forall p :: p in after && (p !in before || after[p] != before[p]) ==>
          exists s :: ((p, s) in c.change || (p, s) in c.create) && after[p] == Link(s))
  }

  lemma PartlyRemoved(before: Fs, fs: Fs, c: SymlinkChanges<Path>, p: Path)
    requires LinksPartly(before, fs, c) && Touched(c, p) && WellFormed(fs - {p})
    ensures LinksPartly(before, fs - {p}, c)
  {
  }

  lemma PartlyLinked(before: Fs, fs: Fs, c: SymlinkChanges<Path>, p: Path, s: Path)
    requires LinksPartly(before, fs, c) && ((p, s) in c.change || (p, s) in c.create) && WellFormed(fs[p := Link(s)])
    ensures LinksPartly(before, fs[p := Link(s)], c) && Touched(c, p)
  {
  }

  lemma {:induction false} PutLinksSnoc(fs: Fs, pairs: seq<(Path, Path)>, i: nat)
    requires i < |pairs|
    ensures PutLinks(fs, pairs[..i + 1]) == PutLinks(fs, pairs[..i])[pairs[i].0 := Link(pairs[i].1)]
    decreases |pairs|
  {
    if i == 0 {
      assert pairs[..1] == [pairs[0]] && pairs[..0] == [];
      assert [pairs[0]][1..] == [];
    } else {
      PutLinksSnoc(fs[pairs[0].0 := Link(pairs[0].1)], pairs[1..], i - 1);
      assert pairs[..i + 1][1..] == pairs[1..][..i];
      assert pairs[..i][1..] == pairs[1..][..i - 1];
    }
  }

  /**
    The remove pass takes away exactly what it may; without faults it gets
    through exactly when there is nothing else.
   */
  method RemoveLinks(fs: HostFs, appsDir: Path, ghost before: Fs, c: SymlinkChanges<Path>) returns (ok: bool)
    requires WellFormed(fs.tree) && fs.tree == before
    modifies fs`tree, fs`faults
    ensures LinksPartly(before, fs.tree, c)
    ensures ok ==> fs.tree == before - SetOf(c.remove)
    ensures forall p :: p in before && p !in fs.tree ==> p in c.remove && Removable(appsDir, before[p])
    ensures forall p :: p in fs.tree ==> Unchanged(before, fs.tree, p)
    ensures old(fs.faults) <= fs.faults
    ensures ok ==> RemovesRun(before, appsDir, c)
    ensures RemovesRun(before, appsDir, c) && !ok ==> old(fs.faults) < fs.faults
  {
    hide LinksPartly, WellFormed, Removable, Touched;
    NoneDone(before, c);
    ok := true;
    for i := 0 to |c.remove|
      invariant LinksPartly(before, fs.tree, c) && old(fs.faults) <= fs.faults
      invariant fs.tree == before - SetOf(c.remove[..i])
      invariant forall p :: p in c.remove[..i] && p in before ==> Removable(appsDir, before[p])
    {
      var target := c.remove[i];
      PartlyWellFormed(before, fs.tree, c);
      assert SetOf(c.remove[..i + 1]) == SetOf(c.remove[..i]) + {target};
      if target in fs.tree {
        ghost var was := fs.tree;
        ok := TakeAway(fs, appsDir, target);
        if !ok {
          return;
        }
        RemoveTouches(c, i);
        PartlyRemoved(before, was, c, target);
      }
    }
    assert c.remove[..|c.remove|] == c.remove;
  }

  lemma NoneDone(fs: Fs, c: SymlinkChanges<Path>)
    requires WellFormed(fs)
    ensures LinksPartly(fs, fs, c)
  {
  }

  lemma RemoveTouches(c: SymlinkChanges<Path>, i: nat)
    requires i < |c.remove|
    ensures c.remove[i] in c.remove && Touched(c, c.remove[i])
  {
  }

  lemma PartlyWellFormed(before: Fs, fs: Fs, c: SymlinkChanges<Path>)
    requires LinksPartly(before, fs, c)
    ensures WellFormed(fs)
  {
  }

  /** One path of the change pass, `i` changes into it. */
  ghost predicate ChangedSome(start: Fs, fs: Fs, appsDir: Path, c: SymlinkChanges<Path>, i: nat)
    requires i <= |c.change|
  {
    && (forall p :: p in start && !Unchanged(start, fs, p) ==> RemovedOrChanged(c, p) && Removable(appsDir, start[p]))
    && (forall p :: p in fs && !Unchanged(start, fs, p) ==> exists s :: (p, s) in c.change && fs[p] == Link(s))
    && (forall k :: 0 <= k < i ==> ChangeRuns(start, appsDir, c.change[k].0))
  }

  lemma ChangedNone(start: Fs, appsDir: Path, c: SymlinkChanges<Path>)
    ensures ChangedSome(start, start, appsDir, c, 0)
  {
  }

  /** A path that is taken away and linked again. */
  lemma ChangedOne(start: Fs, was: Fs, appsDir: Path, c: SymlinkChanges<Path>, i: nat)
    requires i < |c.change| && ChangedSome(start, was, appsDir, c, i) && WellFormed(was) && WellFormed(start)
    requires ChangeRuns(was, appsDir, c.change[i].0)
    ensures ChangedSome(start, was[c.change[i].0 := Link(c.change[i].1)], appsDir, c, i + 1)
  {
    hide WellFormed;
    var (p, s) := c.change[i];
    assert (p, s) in c.change;
    if p in was {
      ParentOf(was, p);
    }
    DirsAsBefore(start, was, appsDir, c, i, Parent(p));
    assert ChangeRuns(start, appsDir, p);
  }

  lemma DirsAsBefore(start: Fs, fs: Fs, appsDir: Path, c: SymlinkChanges<Path>, i: nat, q: Path)
    requires i <= |c.change| && ChangedSome(start, fs, appsDir, c, i)
    ensures IsDir(fs, q) <==> IsDir(start, q)
  {
  }

  /** Taking a path away, before it is linked again. */
  lemma ChangedGone(start: Fs, was: Fs, appsDir: Path, c: SymlinkChanges<Path>, i: nat)
    requires i < |c.change| && ChangedSome(start, was, appsDir, c, i)
    requires c.change[i].0 in was && Removable(appsDir, was[c.change[i].0])
    ensures ChangedSome(start, was - {c.change[i].0}, appsDir, c, i)
  {
    var (p, s) := c.change[i];
    assert (p, s) in c.change;
  }

  /** What the pass meets at a path decides as it stood before the pass. */
  lemma ChangeMeets(start: Fs, fs: Fs, appsDir: Path, c: SymlinkChanges<Path>, i: nat)
    requires i < |c.change| && ChangedSome(start, fs, appsDir, c, i) && WellFormed(start) && SourcesInside(appsDir, c)
    requires ChangeRuns(start, appsDir, c.change[i].0)
    ensures ChangeRuns(fs, appsDir, c.change[i].0)
  {
    var p := c.change[i].0;
    if p in start {
      ParentOf(start, p);
    }
    hide WellFormed;
    DirsAsBefore(start, fs, appsDir, c, i, Parent(p));
  }

  lemma ParentOf(fs: Fs, p: Path)
    requires WellFormed(fs) && p in fs && !IsDir(fs, p)
    ensures |p| > 1 && IsDir(fs, Parent(p))
  {
    assert |p| == 1 ==> p == [ROOT];
  }

  /** A link where nothing is. */
  method LinkAnew(fs: HostFs, appsDir: Path, source: Path, link: Path) returns (ok: bool)
    requires WellFormed(fs.tree) && link !in fs.tree
    modifies fs`tree, fs`faults
    ensures WellFormed(fs.tree) && old(fs.faults) <= fs.faults
    ensures ok ==> |link| > 1 && IsDir(old(fs.tree), Parent(link)) && fs.tree == old(fs.tree)[link := Link(source)]
    ensures !ok ==>
              && fs.tree == old(fs.tree)
              && (old(fs.faults) < fs.faults || |link| <= 1 || !IsDir(old(fs.tree), Parent(link)))
  {
    ok := CreateSymlink(fs, appsDir, source, link);
  }

  /** One change: verify, take away what is there, link. */
  method ChangeLink(fs: HostFs, appsDir: Path, ghost before: Fs, ghost start: Fs, c: SymlinkChanges<Path>, i: nat)
    returns (ok: bool)
    requires i < |c.change| && LinksPartly(before, fs.tree, c) && WellFormed(start)
    requires ChangedSome(start, fs.tree, appsDir, c, i)
    modifies fs`tree, fs`faults
    ensures LinksPartly(before, fs.tree, c)
    ensures ok ==>
              && fs.tree == old(fs.tree)[c.change[i].0 := Link(c.change[i].1)]
              && ChangedSome(start, fs.tree, appsDir, c, i + 1)
    ensures !ok ==> ChangedSome(start, fs.tree, appsDir, c, i)
    ensures old(fs.faults) <= fs.faults
    ensures !ok && ChangeRuns(old(fs.tree), appsDir, c.change[i].0) ==> old(fs.faults) < fs.faults
  {
    hide LinksPartly, PutLinks, ChangedSome, Touched, WellFormed, Removable, StartsWith;
    var (target, source) := c.change[i];
    ghost var was := fs.tree;
    ChangeTouches(c, i);
    PartlyWellFormed(before, was, c);
    if target in fs.tree {
      ok := TakeAway(fs, appsDir, target);
      if !ok {
        return;
      }
      PartlyRemoved(before, was, c, target);
      ChangedGone(start, was, appsDir, c, i);
      StillAParent(was, target);
    }
    ghost var cleared := fs.tree;
    assert target !in cleared && (target in was ==> ChangeRuns(was, appsDir, target));
    assert |target| > 1 && IsDir(cleared, Parent(target)) <==> |target| > 1 && IsDir(was, Parent(target));
    ok := LinkAnew(fs, appsDir, source, target);
    if !ok {
      return;
    }
    PartlyLinked(before, cleared, c, target, source);
    assert fs.tree == was[target := Link(source)];
    ChangedOne(start, was, appsDir, c, i);
  }

  lemma ChangeTouches(c: SymlinkChanges<Path>, i: nat)
    requires i < |c.change|
    ensures c.change[i] in c.change && Touched(c, c.change[i].0)
  {
    assert (c.change[i].0, c.change[i].1) in c.change;
  }

  lemma StillAParent(fs: Fs, p: Path)
    requires WellFormed(fs) && p in fs && !IsDir(fs, p)
    ensures |p| > 1 && IsDir(fs, Parent(p)) && IsDir(fs - {p}, Parent(p))
  {
    ParentOf(fs, p);
    assert Parent(p) != p;
  }

  /** The change pass takes away exactly what it may; without faults it gets through exactly when it can. */
  method ChangeLinks(fs: HostFs, appsDir: Path, ghost before: Fs, c: SymlinkChanges<Path>) returns (ok: bool)
    requires LinksPartly(before, fs.tree, c)
    modifies fs`tree, fs`faults
    ensures LinksPartly(before, fs.tree, c)
    ensures ok ==> fs.tree == PutLinks(old(fs.tree), c.change)
    ensures forall p :: p in old(fs.tree) && !Unchanged(old(fs.tree), fs.tree, p) ==>
              RemovedOrChanged(c, p) && Removable(appsDir, old(fs.tree)[p])
    ensures old(fs.faults) <= fs.faults
    ensures ok ==> ChangesRun(old(fs.tree), appsDir, c)
    ensures SourcesInside(appsDir, c) && ChangesRun(old(fs.tree), appsDir, c) && !ok ==> old(fs.faults) < fs.faults
  {
    ghost var start := fs.tree;
    ok := true;
    ChangedNone(start, appsDir, c);
    PartlyWellFormed(before, start, c);
    for i := 0 to |c.change|
      invariant LinksPartly(before, fs.tree, c) && old(fs.faults) <= fs.faults
      invariant fs.tree == PutLinks(start, c.change[..i])
      invariant ChangedSome(start, fs.tree, appsDir, c, i)
    {
      hide LinksPartly, PutLinks, ChangedSome, ChangeRuns, SourcesInside, WellFormed;
      assert (c.change[i].0, c.change[i].1) in c.change;
      PutLinksSnoc(start, c.change, i);
      if SourcesInside(appsDir, c) && ChangesRun(start, appsDir, c) {
        ChangeMeets(start, fs.tree, appsDir, c, i);
      }
      ok := ChangeLink(fs, appsDir, before, start, c, i);
      if !ok {
        TakenAway(start, fs.tree, appsDir, c, i);
        return;
      }
    }
    assert c.change[..|c.change|] == c.change;
    TakenAway(start, fs.tree, appsDir, c, |c.change|);
    AllChangesRun(start, fs.tree, appsDir, c);
  }

  lemma TakenAway(start: Fs, fs: Fs, appsDir: Path, c: SymlinkChanges<Path>, i: nat)
    requires i <= |c.change| && ChangedSome(start, fs, appsDir, c, i)
    ensures forall p :: p in start && !Unchanged(start, fs, p) ==>
              RemovedOrChanged(c, p) && Removable(appsDir, start[p])
  {
  }

  lemma AllChangesRun(start: Fs, fs: Fs, appsDir: Path, c: SymlinkChanges<Path>)
    requires ChangedSome(start, fs, appsDir, c, |c.change|)
    ensures ChangesRun(start, appsDir, c)
  {
    hide ChangeRuns;
    forall p, s | (p, s) in c.change ensures ChangeRuns(start, appsDir, p) {
      var k :| 0 <= k < |c.change| && c.change[k] == (p, s);
    }
  }

  /** The create pass takes away only links, and files identical to the source. */
  method CreateLinks(fs: HostFs, appsDir: Path, ghost before: Fs, c: SymlinkChanges<Path>) returns (ok: bool)
    requires LinksPartly(before, fs.tree, c) && Spared(before, fs.tree, fs.apps, appsDir, c)
    modifies fs`tree, fs`faults
    ensures LinksPartly(before, fs.tree, c) && Spared(before, fs.tree, fs.apps, appsDir, c)
    ensures ok ==> fs.tree == PutLinks(old(fs.tree), c.create)
    ensures old(fs.faults) <= fs.faults
    ensures CreatesRun(old(fs.tree), fs.apps, appsDir, c) && fs.faults == old(fs.faults) ==> ok
  {
    ghost var start := fs.tree;
    ok := true;
    for i := 0 to |c.create|
      invariant LinksPartly(before, fs.tree, c) && Spared(before, fs.tree, fs.apps, appsDir, c)
      invariant old(fs.faults) <= fs.faults
      invariant fs.tree == PutLinks(start, c.create[..i])
    {
      hide LinksPartly, PutLinks, Spared, CreatesRun, CreateRuns;
      var (target, source) := c.create[i];
      if CreatesRun(start, fs.apps, appsDir, c) {
        CreateMeets(start, fs.apps, appsDir, c, i);
      }
      assert (target, source) in c.create;
      PutLinksSnoc(start, c.create, i);
      assert Touched(c, target);
      ghost var was := fs.tree;
      assert WellFormed(fs.tree) by { PartlyWellFormed(before, fs.tree, c); }
      ok := CreateSymlink(fs, appsDir, source, target);
      SparedStep(before, was, fs.tree, fs.apps, appsDir, c, target, source);
      if !ok {
        if fs.tree != was {
          PartlyRemoved(before, was, c, target);
        }
        return;
      }
      PartlyLinked(before, was, c, target, source);
    }
    assert c.create[..|c.create|] == c.create;
  }

  /** What the pass meets at a path decides as it stood before the pass. */
  lemma CreateMeets(start: Fs, apps: map<Name, AppDir>, appsDir: Path, c: SymlinkChanges<Path>, i: nat)
    requires i < |c.create| && CreatesRun(start, apps, appsDir, c)
    ensures CreateRuns(PutLinks(start, c.create[..i]), apps, appsDir, c.create[i].0, c.create[i].1)
  {
    var (p, s) := c.create[i];
    var done := c.create[..i];
    assert (p, s) in c.create;
    assert CreateRuns(start, apps, appsDir, p, s);
    PutLinksAt(start, done, p);
    if p != [] {
      PutLinksAt(start, done, Parent(p));
    }
    hide PutLinks, Resolve;
    if t :| (p, t) in done {
      assert t == s;
    } else if p !in start {
      assert forall t :: (Parent(p), t) in done ==> CreateRuns(start, apps, appsDir, Parent(p), t);
    }
  }

  lemma SparedStep(before: Fs, was: Fs, fs: Fs, apps: map<Name, AppDir>, appsDir: Path, c: SymlinkChanges<Path>,
                   p: Path, s: Path)
    requires Spared(before, was, apps, appsDir, c) && (p, s) in c.create
    requires forall q :: q != p ==> (q in fs <==> q in was) && (q in fs ==> fs[q] == was[q])
    requires p in was && fs != was ==> was[p].Link? || Identical(was, apps, appsDir, s, p)
    ensures Spared(before, fs, apps, appsDir, c)
  {
    forall q | q in before && !Unchanged(before, fs, q) ensures MayReplace(before, apps, appsDir, c, q) {
      if Unchanged(before, was, q) {
        assert q == p;
      }
    }
  }

  lemma SparedByPasses(before: Fs, start: Fs, fs: Fs, apps: map<Name, AppDir>, appsDir: Path, c: SymlinkChanges<Path>)
    requires forall p :: p in before && p !in start ==> p in c.remove && Removable(appsDir, before[p])
    requires forall p :: p in start ==> Unchanged(before, start, p)
    requires forall p :: p in start && !Unchanged(start, fs, p) ==>
               RemovedOrChanged(c, p) && Removable(appsDir, start[p])
    ensures Spared(before, fs, apps, appsDir, c)
  {
    forall p | p in before && !Unchanged(before, fs, p) ensures MayReplace(before, apps, appsDir, c, p) {
      if p in start {
        assert Unchanged(before, start, p);
      }
    }
  }

  /**
    Removes, then changes, then creates. An error leaves a part of the changes
    done. Whatever is gone or different was there to be replaced: on removes and
    changes a link into the apps directory or a regular file, on creates a link
    or a file identical to the source; so success means that no removed or
    changed path held anything foreign.
   */
  method ReconcileConfigSymlinks(fs: HostFs, appsDir: Path, changes: SymlinkChanges<Path>) returns (ok: bool)
    requires WellFormed(fs.tree)
    modifies fs`tree, fs`faults
    ensures LinksPartly(old(fs.tree), fs.tree, changes)
    ensures ok ==> fs.tree == LinksRun(old(fs.tree), changes)
    ensures Spared(old(fs.tree), fs.tree, fs.apps, appsDir, changes)
    ensures ok ==>
              && RemovesRun(old(fs.tree), appsDir, changes)
              && ChangesRun(old(fs.tree) - SetOf(changes.remove), appsDir, changes)
    ensures ok ==> forall p :: p in old(fs.tree) && RemovedOrChanged(changes, p) ==> Removable(appsDir, old(fs.tree)[p])
    ensures old(fs.faults) <= fs.faults
    ensures ConfigRuns(old(fs.tree), fs.apps, appsDir, changes) && fs.faults == old(fs.faults) ==> ok
  {
    hide CreatesRun, SourcesInside, ChangesRun, RemovesRun;
    hide LinksPartly, Removable, LinksRun, PutLinks, Spared, WellFormed;
    ghost var before := fs.tree;
    ok := RemoveLinks(fs, appsDir, before, changes);
    ghost var start := fs.tree;
    SparedByPasses(before, start, start, fs.apps, appsDir, changes);
    if !ok {
      return;
    }
    ok := ChangeLinks(fs, appsDir, before, changes);
    SparedByPasses(before, start, fs.tree, fs.apps, appsDir, changes);
    if !ok {
      return;
    }
    forall p | p in before && RemovedOrChanged(changes, p) ensures Removable(appsDir, before[p]) {
      PassesHold(before, start, appsDir, changes, p);
    }
    ghost var changed := fs.tree;
    ok := CreateLinks(fs, appsDir, before, changes);
    if ok {
      RunInPasses(before, start, changed, fs.tree, changes);
    }
  }

  lemma RunInPasses(before: Fs, start: Fs, changed: Fs, after: Fs, c: SymlinkChanges<Path>)
    requires start == before - SetOf(c.remove) && changed == PutLinks(start, c.change)
    requires after == PutLinks(changed, c.create)
    ensures after == LinksRun(before, c)
  {
  }

  lemma PassesHold(before: Fs, start: Fs, appsDir: Path, c: SymlinkChanges<Path>, p: Path)
    requires start == before - SetOf(c.remove) && RemovesRun(before, appsDir, c) && ChangesRun(start, appsDir, c)
    requires p in before && RemovedOrChanged(c, p)
    ensures Removable(appsDir, before[p])
  {
    hide Removable;
    if p !in c.remove {
      var s :| (p, s) in c.change;
      assert p in start && start[p] == before[p];
      assert ChangeRuns(start, appsDir, p);
    }
  }

  /** The sources of a diff's links to a valid host are inside the apps directory. */
  lemma DiffSourcesInside(oldApps: Apps, newApps: Apps, diffs: map<Name, AppDiff>, appsDir: Path,
                          c: SymlinkChanges<Path>)
    requires IsAppDiffs(oldApps, newApps, diffs) && AggregatesLinks(c, appsDir, diffs) && ValidHost(newApps)
    ensures SourcesInside(appsDir, c)
  {
    hide IsAppDiffs, AggregatesLinks, Links, ToPath, ValidHost;
    forall p, s | (p, s) in c.change ensures StartsWith(s, appsDir) {
      ChangePairs(oldApps, newApps, diffs, appsDir, c, (p, s));
      var a, l :| ChangeDeclares(diffs, newApps, a, l, p) && s == LinkSource(appsDir, a, newApps[a], l);
      ValidSource(appsDir, newApps, a, l);
    }
  }

  // ----- What is taken away -----

  /** On a removed path: taken away are links into the apps directory and regular files, and nothing else. */
  lemma RemovedExactly(fs: Fs, appsDir: Path, p: Path)
    requires WellFormed(fs) && p in fs
    ensures var c: SymlinkChanges<Path> := SymlinkChanges([], [p], []);
            && (RemovesRun(fs, appsDir, c) <==> !fs[p].Directory? && !Foreign(appsDir, fs[p]))
            && p !in LinksRun(fs, c)
  {
    assert p in SetOf([p]);
  }

  /** A host with a file of the operator's own where a removed link used to be. */
  function OwnFile(p: Path): Fs {
    map[[ROOT] := Directory, p := RegularFile(Content("mine", None))]
  }

  /** The guard lets that file pass: the run gets through, and takes it away. */
  lemma OwnFileIsRemoved(appsDir: Path)
    ensures var p, c: SymlinkChanges<Path> := [ROOT, "motd"], SymlinkChanges([], [[ROOT, "motd"]], []);
            && WellFormed(OwnFile(p)) && !Foreign(appsDir, OwnFile(p)[p])
            && RemovesRun(OwnFile(p), appsDir, c) && ChangesRun(OwnFile(p) - SetOf(c.remove), appsDir, c)
            && p !in LinksRun(OwnFile(p), c)
  {
    var p := [ROOT, "motd"];
    assert Parent(p) == [ROOT];
    RemovedExactly(OwnFile(p), appsDir, p);
  }

  // ----- What running the changes amounts to -----

  lemma {:induction false} PutLinksAt(fs: Fs, pairs: seq<(Path, Path)>, p: Path)
    requires Functional(pairs)
    ensures forall s :: (p, s) in pairs ==> p in PutLinks(fs, pairs) && PutLinks(fs, pairs)[p] == Link(s)
    ensures (forall s :: (p, s) !in pairs) ==>
              (p in PutLinks(fs, pairs) <==> p in fs) && (p in fs ==> PutLinks(fs, pairs)[p] == fs[p])
    decreases |pairs|
  {
    if pairs != [] {
      var rest := pairs[1..];
      forall x ensures x in pairs <==> x == pairs[0] || x in rest {
        assert pairs == [pairs[0]] + rest;
      }
      PutLinksAt(fs[pairs[0].0 := Link(pairs[0].1)], rest, p);
      assert (pairs[0].0, pairs[0].1) == pairs[0];
    }
  }

  /** One path after the changes: created, else changed, else removed, else as before. */
  lemma LinksRunAt(fs: Fs, c: SymlinkChanges<Path>, p: Path)
    requires Functional(c.change) && Functional(c.create)
    ensures var after := LinksRun(fs, c);
            && (forall s :: (p, s) in c.create ==> p in after && after[p] == Link(s))
            && ((forall s :: (p, s) !in c.create) ==> forall s :: (p, s) in c.change ==>
                p in after && after[p] == Link(s))
            && ((forall s :: (p, s) !in c.create && (p, s) !in c.change) ==>
                  && (p in c.remove ==> p !in after)
                  && (p !in c.remove ==> (p in after <==> p in fs) && (p in fs ==> after[p] == fs[p])))
  {
    var kept := fs - SetOf(c.remove);
    PutLinksAt(kept, c.change, p);
    PutLinksAt(PutLinks(kept, c.change), c.create, p);
    assert p in c.remove <==> p in SetOf(c.remove);
    hide PutLinks, Functional;
  }

  ghost predicate LinksMatch(fs: Fs, links: map<Path, Path>) {
    forall l :: l in links ==> l in fs && fs[l] == Link(links[l])
  }

  /** One path after a deploy: as the new commit has it, gone if it has not, and untouched if neither has. */
  ghost predicate LinkArrives(before: Fs, after: Fs, dOld: map<Path, Path>, dNew: map<Path, Path>, p: Path) {
    && (p in dNew ==> p in after && after[p] == Link(dNew[p]))
    && (p in dOld && p !in dNew ==> p !in after)
    && (p !in dOld && p !in dNew ==> (p in after <==> p in before) && (p in after ==> after[p] == before[p]))
  }

  lemma LinkAfter(oldApps: Apps, newApps: Apps, diffs: map<Name, AppDiff>, appsDir: Path, c: SymlinkChanges<Path>,
                  before: Fs, dOld: map<Path, Path>, dNew: map<Path, Path>, p: Path)
    requires IsAppDiffs(oldApps, newApps, diffs) && AggregatesLinks(c, appsDir, diffs)
    requires AllAgree(appsDir, newApps) && !Stranded(oldApps, newApps, p) && Functional(c.change)
    requires Functional(c.create)
    requires IsDesiredLinks(dOld, appsDir, oldApps) && IsDesiredLinks(dNew, appsDir, newApps)
    requires LinksMatch(before, dOld)
    ensures LinkArrives(before, LinksRun(before, c), dOld, dNew, p)
  {
    hide LinkSource, ToPath, Links, AggregatesLinks, IsAppDiffs, LinksRun, Functional, IsDesiredLinks, SourcesAgree;
    LinksRunAt(before, c, p);
    DeclaredAt(dOld, appsDir, oldApps, p);
    DeclaredAt(dNew, appsDir, newApps, p);
    if p !in dNew {
      UndeclaredLink(oldApps, newApps, diffs, appsDir, c, p);
      RemovePaths(oldApps, newApps, diffs, appsDir, c, p);
    } else if a, l :| Declares(newApps, a, l, p) && !KeptAsIs(oldApps, newApps, a, l, p) {
      MovedLink(oldApps, newApps, diffs, appsDir, c, a, l, p);
      AgreeingAreKept(dNew, appsDir, newApps);
      KeptAt(dNew, appsDir, newApps, a, l, p);
    } else {
      QuietLink(oldApps, newApps, diffs, appsDir, c, p);
      assert p !in c.remove;
      QuietSource(oldApps, newApps, appsDir, dOld, dNew, p);
    }
  }

  /**
    A deploy that completes turns the manifest links of the old commit into
    those of the new one, and touches nothing else.
   */
  lemma {:induction false} LinksConverge(oldApps: Apps, newApps: Apps, diffs: map<Name, AppDiff>, appsDir: Path,
                                         c: SymlinkChanges<Path>,
                                         before: Fs, dOld: map<Path, Path>, dNew: map<Path, Path>)
    requires IsAppDiffs(oldApps, newApps, diffs) && AggregatesLinks(c, appsDir, diffs)
    requires AllAgree(appsDir, newApps) && NoneIsStranded(oldApps, newApps)
    requires IsDesiredLinks(dOld, appsDir, oldApps) && IsDesiredLinks(dNew, appsDir, newApps)
    requires LinksMatch(before, dOld)
    ensures LinksMatch(LinksRun(before, c), dNew)
    ensures forall p :: LinkArrives(before, LinksRun(before, c), dOld, dNew, p)
  {
    hide LinksRun, AggregatesLinks, IsAppDiffs, SourcesAgree, Stranded, IsDesiredLinks;
    AgreeingFunctional(oldApps, newApps, diffs, appsDir, c);
    forall p ensures LinkArrives(before, LinksRun(before, c), dOld, dNew, p) {
      LinkAfter(oldApps, newApps, diffs, appsDir, c, before, dOld, dNew, p);
    }
    forall p | p in dNew ensures p in LinksRun(before, c) && LinksRun(before, c)[p] == Link(dNew[p]) {
      assert LinkArrives(before, LinksRun(before, c), dOld, dNew, p);
    }
  }

  // ----- Interrupted attempts -----

  /** The same changes, in any order. */
  ghost predicate SameChanges(c: SymlinkChanges<Path>, d: SymlinkChanges<Path>) {
    SetOf(c.create) == SetOf(d.create) && SetOf(c.remove) == SetOf(d.remove) && SetOf(c.change) == SetOf(d.change)
  }

  lemma SameMembers(c: SymlinkChanges<Path>, d: SymlinkChanges<Path>)
    requires SameChanges(c, d)
    ensures forall x :: x in c.create <==> x in d.create
    ensures forall x :: x in c.change <==> x in d.change
    ensures forall x :: x in c.remove <==> x in d.remove
    ensures forall p :: Touched(c, p) <==> Touched(d, p)
  {
    forall x ensures x in c.create <==> x in d.create { assert x in SetOf(c.create) <==> x in SetOf(d.create); }
    forall x ensures x in c.change <==> x in d.change { assert x in SetOf(c.change) <==> x in SetOf(d.change); }
    forall x ensures x in c.remove <==> x in d.remove { assert x in SetOf(c.remove) <==> x in SetOf(d.remove); }
  }

  /** Interrupted attempts at the same changes add up to one interrupted attempt. */
  lemma {:induction false} PartlyTransitive(before: Fs, mid: Fs, after: Fs, c: SymlinkChanges<Path>,
                                            d: SymlinkChanges<Path>)
    requires SameChanges(c, d) && LinksPartly(before, mid, c) && LinksPartly(mid, after, d)
    ensures LinksPartly(before, after, c)
  {
    SameMembers(c, d);
    hide WellFormed, SameChanges, Touched;
  }

  /** Whatever part of the changes an interrupted attempt left done, running them again ends in the same tree. */
  lemma {:induction false} RetryConverges(before: Fs, mid: Fs, c: SymlinkChanges<Path>, d: SymlinkChanges<Path>)
    requires SameChanges(c, d) && LinksPartly(before, mid, c)
    requires Functional(c.change) && Functional(c.create) && Functional(d.change) && Functional(d.create)
    ensures LinksRun(mid, d) == LinksRun(before, c)
  {
    SameMembers(c, d);
    forall p
      ensures p in LinksRun(mid, d) <==> p in LinksRun(before, c)
      ensures p in LinksRun(mid, d) ==> LinksRun(mid, d)[p] == LinksRun(before, c)[p]
    {
      LinksRunAt(mid, d, p);
      LinksRunAt(before, c, p);
      hide LinksRun, SameChanges, Functional, WellFormed;
    }
  }

  // ----- Rollback -----

  /** Where the changes there touch a path without creating it, the changes back restore it. */
  lemma BackAt(oldApps: Apps, newApps: Apps, diffs: map<Name, AppDiff>, back: map<Name, AppDiff>, appsDir: Path,
               c: SymlinkChanges<Path>, d: SymlinkChanges<Path>, before: Fs, mid: Fs, dOld: map<Path, Path>, p: Path)
    requires IsAppDiffs(oldApps, newApps, diffs) && AggregatesLinks(c, appsDir, diffs) && c.create == []
    requires IsAppDiffs(newApps, oldApps, back) && AggregatesLinks(d, appsDir, back)
    requires AllAgree(appsDir, oldApps) && Functional(d.change) && Functional(d.create)
    requires IsDesiredLinks(dOld, appsDir, oldApps) && LinksMatch(before, dOld) && LinksPartly(before, mid, c)
    ensures var after := LinksRun(mid, d);
            (p in after <==> p in before) && (p in after ==> after[p] == before[p])
  {
    DeclaredAt(dOld, appsDir, oldApps, p);
    BackSources(newApps, oldApps, back, appsDir, d, dOld, p);
    hide LinkSource, ToPath, Links, AggregatesLinks, IsAppDiffs, LinksRun, Functional, WellFormed, IsDesiredLinks;
    hide AllAgree;
    LinksRunAt(mid, d, p);
    BackFacts(oldApps, newApps, diffs, back, appsDir, c, d, p);
  }

  /** The changes to a commit whose declarations agree put each link to its from-scratch source. */
  lemma BackSources(newApps: Apps, oldApps: Apps, back: map<Name, AppDiff>, appsDir: Path, d: SymlinkChanges<Path>,
                    dOld: map<Path, Path>, p: Path)
    requires IsAppDiffs(newApps, oldApps, back) && AggregatesLinks(d, appsDir, back)
    requires AllAgree(appsDir, oldApps) && IsDesiredLinks(dOld, appsDir, oldApps)
    ensures forall s :: (p, s) in d.create || (p, s) in d.change ==> p in dOld && dOld[p] == s
  {
    AgreeingAreKept(dOld, appsDir, oldApps);
    hide LinkSource, ToPath, Links, AggregatesLinks, IsAppDiffs, AllAgree, IsDesiredLinks;
    forall s | (p, s) in d.create || (p, s) in d.change ensures p in dOld && dOld[p] == s {
      CreatePairs(newApps, oldApps, back, appsDir, d, (p, s));
      ChangePairs(newApps, oldApps, back, appsDir, d, (p, s));
    }
  }

  /** Without creates, every link the changes touch was declared before, and the changes back remove nothing. */
  lemma BackFacts(oldApps: Apps, newApps: Apps, diffs: map<Name, AppDiff>, back: map<Name, AppDiff>, appsDir: Path,
                  c: SymlinkChanges<Path>, d: SymlinkChanges<Path>, p: Path)
    requires IsAppDiffs(oldApps, newApps, diffs) && AggregatesLinks(c, appsDir, diffs) && c.create == []
    requires IsAppDiffs(newApps, oldApps, back) && AggregatesLinks(d, appsDir, back)
    ensures p !in d.remove
    ensures Touched(c, p) ==> exists a, l :: Declares(oldApps, a, l, p)
    ensures (forall s :: (p, s) !in d.create && (p, s) !in d.change) ==> !Touched(c, p)
    ensures forall s :: (p, s) in d.create || (p, s) in d.change ==> exists a, l :: Declares(oldApps, a, l, p)
  {
    SameDiffers(oldApps, newApps, diffs, back);
    hide AggregatesLinks, IsAppDiffs, Differs, Links, ToPath;
    NoneRemovedBack(oldApps, newApps, diffs, back, appsDir, c, d, p);
    RemovedComesBack(oldApps, newApps, diffs, back, appsDir, c, d, p);
    forall s | (p, s) in c.change
      ensures (exists a, l :: Declares(oldApps, a, l, p)) && exists t :: (p, t) in d.change
    {
      ChangedComesBack(oldApps, newApps, diffs, back, appsDir, c, d, p, s);
    }
    forall s | (p, s) in d.create || (p, s) in d.change ensures exists a, l :: Declares(oldApps, a, l, p) {
      CreatePairs(newApps, oldApps, back, appsDir, d, (p, s));
      ChangePairs(newApps, oldApps, back, appsDir, d, (p, s));
    }
  }

  lemma SameDiffers(oldApps: Apps, newApps: Apps, diffs: map<Name, AppDiff>, back: map<Name, AppDiff>)
    requires IsAppDiffs(oldApps, newApps, diffs) && IsAppDiffs(newApps, oldApps, back)
    ensures back.Keys == diffs.Keys
  {
    forall a ensures a in back <==> a in diffs {
      assert Differs(oldApps, newApps, a) <==> Differs(newApps, oldApps, a);
    }
  }

  lemma NoneRemovedBack(oldApps: Apps, newApps: Apps, diffs: map<Name, AppDiff>, back: map<Name, AppDiff>,
                        appsDir: Path, c: SymlinkChanges<Path>, d: SymlinkChanges<Path>, p: Path)
    requires IsAppDiffs(oldApps, newApps, diffs) && AggregatesLinks(c, appsDir, diffs) && c.create == []
    requires IsAppDiffs(newApps, oldApps, back) && AggregatesLinks(d, appsDir, back) && back.Keys == diffs.Keys
    ensures p !in d.remove
  {
    hide AggregatesLinks, IsAppDiffs, Links, ToPath;
    RemovePaths(newApps, oldApps, back, appsDir, d, p);
    if a, l :| ChangeDeclares(back, newApps, a, l, p) && !Declares(oldApps, a, l, p) {
      CreatePairs(oldApps, newApps, diffs, appsDir, c, (p, LinkSource(appsDir, a, newApps[a], l)));
    }
  }

  lemma RemovedComesBack(oldApps: Apps, newApps: Apps, diffs: map<Name, AppDiff>, back: map<Name, AppDiff>,
                         appsDir: Path, c: SymlinkChanges<Path>, d: SymlinkChanges<Path>, p: Path)
    requires IsAppDiffs(oldApps, newApps, diffs) && AggregatesLinks(c, appsDir, diffs)
    requires IsAppDiffs(newApps, oldApps, back) && AggregatesLinks(d, appsDir, back) && back.Keys == diffs.Keys
    ensures p in c.remove ==> (exists a, l :: Declares(oldApps, a, l, p)) && exists s :: (p, s) in d.create
  {
    hide AggregatesLinks, IsAppDiffs, Links, ToPath;
    RemovePaths(oldApps, newApps, diffs, appsDir, c, p);
    if p in c.remove {
      var a, l :| ChangeDeclares(diffs, oldApps, a, l, p) && !Declares(newApps, a, l, p);
      assert ChangeDeclares(back, oldApps, a, l, p);
      CreatePairs(newApps, oldApps, back, appsDir, d, (p, LinkSource(appsDir, a, oldApps[a], l)));
    }
  }

  lemma ChangedComesBack(oldApps: Apps, newApps: Apps, diffs: map<Name, AppDiff>, back: map<Name, AppDiff>,
                         appsDir: Path, c: SymlinkChanges<Path>, d: SymlinkChanges<Path>, p: Path, s: Path)
    requires IsAppDiffs(oldApps, newApps, diffs) && AggregatesLinks(c, appsDir, diffs) && (p, s) in c.change
    requires IsAppDiffs(newApps, oldApps, back) && AggregatesLinks(d, appsDir, back) && back.Keys == diffs.Keys
    ensures (exists a, l :: Declares(oldApps, a, l, p)) && exists t :: (p, t) in d.change
  {
    hide AggregatesLinks, IsAppDiffs, Links, ToPath;
    ChangePairs(oldApps, newApps, diffs, appsDir, c, (p, s));
    var a, l :| && ChangeDeclares(diffs, newApps, a, l, p) && Declares(oldApps, a, l, p)
                && Links(oldApps[a])[l] != Links(newApps[a])[l];
    assert ChangeDeclares(back, oldApps, a, l, p);
    ChangePairs(newApps, oldApps, back, appsDir, d, (p, LinkSource(appsDir, a, oldApps[a], l)));
  }

  /**
    However much of a rollback-safe deploy's link changes was done when it
    failed, the changes back leave the tree exactly as it was.
   */
  lemma {:induction false} LinksRollBack(oldApps: Apps, newApps: Apps, diffs: map<Name, AppDiff>,
                                         back: map<Name, AppDiff>, appsDir: Path,
                                         c: SymlinkChanges<Path>, d: SymlinkChanges<Path>, before: Fs, mid: Fs,
                                         dOld: map<Path, Path>)
    requires IsAppDiffs(oldApps, newApps, diffs) && AggregatesLinks(c, appsDir, diffs) && c.IsRollbackSafe()
    requires IsAppDiffs(newApps, oldApps, back) && AggregatesLinks(d, appsDir, back)
    requires AllAgree(appsDir, oldApps)
    requires IsDesiredLinks(dOld, appsDir, oldApps) && LinksMatch(before, dOld) && LinksPartly(before, mid, c)
    ensures LinksRun(mid, d) == before
  {
    AgreeingFunctional(newApps, oldApps, back, appsDir, d);
    hide LinksRun, AggregatesLinks, IsAppDiffs, AllAgree, IsDesiredLinks, LinksPartly, LinksMatch, Functional;
    forall p
      ensures var after := LinksRun(mid, d);
              (p in after <==> p in before) && (p in after ==> after[p] == before[p])
    {
      BackAt(oldApps, newApps, diffs, back, appsDir, c, d, before, mid, dOld, p);
    }
  }
}
