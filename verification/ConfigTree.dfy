/**
  From a config directory on disk to the tree that gets committed: hosts at
  depth 0, apps at depth 1, the files of an app below that.
 */
module ConfigTree {
  import opened Wrappers
  import opened Paths
  import opened Trees

  /** What is on disk; `Special` is a symlink or a special file. */
  datatype Disk = File(content: Content) | Folder(entries: map<Name, Disk>) | Special

  /** Only regular files and directories, at every level. */
  ghost predicate Representable(d: Disk) {
    match d
    case File(_) => true
    case Special => false
    case Folder(entries) => forall n :: n in entries ==> Representable(entries[n])
  }

  /** The tree entry that an entry of a folder at `depth` becomes, if any. */
  ghost function BuiltEntry(d: Disk, depth: nat): Option<Tree>
    decreases d, 1
  {
    match d
    case File(content) => if depth < 2 then None else Some(Blob(content))
    case Folder(_) => if depth == 0 || Built(d, depth + 1) != EMPTY_TREE then Some(Built(d, depth + 1)) else None
    case Special => None
  }

  /** The tree of a folder whose entries are at `depth`. */
  ghost function Built(d: Disk, depth: nat): Tree
    requires d.Folder?
    decreases d, 0
  {
    Dir(map n | n in d.entries && BuiltEntry(d.entries[n], depth).Some? :: BuiltEntry(d.entries[n], depth).value)
  }

  /** The tree of some config directory. */
  ghost predicate IsBuilt(t: Tree) {
    exists d: Disk :: d.Folder? && t == Built(d, 0)
  }

  /** `Built` and `BuiltEntry`, for one entry. */
  lemma EntryOf(d: Disk, depth: nat, n: Name)
    requires d.Folder?
    ensures n in Built(d, depth).entries <==> n in d.entries && BuiltEntry(d.entries[n], depth).Some?
    ensures n in Built(d, depth).entries ==>
              (Built(d, depth).entries[n]
               == if d.entries[n].Folder?
                  then Built(d.entries[n], depth + 1) else BuiltEntry(d.entries[n], depth).value)
    ensures n in Built(d, depth).entries && depth < 2 ==> d.entries[n].Folder?
    ensures n in Built(d, depth).entries && depth >= 1 ==> Built(d, depth).entries[n] != EMPTY_TREE
    ensures depth == 0 ==> (n in Built(d, depth).entries <==> n in HostDirs(d))
  {
  }

  method BuildTreeRecursive(d: Disk, depth: nat) returns (r: Result<Tree, StoreError>)
    requires d.Folder?
    ensures r.Ok? <==> Representable(d)
    ensures r.Ok? ==> r.value == Built(d, depth)
    ensures r.Err? ==> r.error == InvalidConfig
    decreases d
  {
    var tb: map<Name, Tree> := map[];
    var rest := d.entries.Keys;
    while rest != {}
      invariant rest <= d.entries.Keys
      invariant forall n :: n in d.entries.Keys - rest ==> Representable(d.entries[n])
      invariant tb == map n | n in d.entries.Keys - rest && BuiltEntry(d.entries[n], depth).Some?
                        :: BuiltEntry(d.entries[n], depth).value
      decreases rest
    {
      var name :| name in rest;
      var entry := d.entries[name];
      match entry {
        case Folder(_) =>
          var built := BuildTreeRecursive(entry, depth + 1);
          if built.Err? {
            return built;
          }
          if depth == 0 || built.value != EMPTY_TREE {
            tb := tb[name := built.value];
          }
        case File(content) =>
          if depth >= 2 {
            tb := tb[name := Blob(content)];
          }
        case Special =>
          return Err(InvalidConfig);
      }
      rest := rest - {name};
    }
    return Ok(Dir(tb));
  }

  /** The file at a path below a folder. */
  function FileAt(d: Disk, p: Path): Option<Content> {
    match d
    case File(content) => if p == [] then Some(content) else None
    case Folder(entries) => if p != [] && p[0] in entries then FileAt(entries[p[0]], p[1..]) else None
    case Special => None
  }

  function BlobContent(t: Tree, p: Path): Option<Content> {
    match t
    case Blob(content) => if p == [] then Some(content) else None
    case Dir(entries) => if p != [] && p[0] in entries then BlobContent(entries[p[0]], p[1..]) else None
  }

  /** Exactly the files inside apps become blobs. */
  lemma {:induction false} BuiltBlobs(d: Disk, depth: nat, p: Path)
    requires d.Folder?
    ensures BlobContent(Built(d, depth), p) == if |p| + depth >= 3 then FileAt(d, p) else None
    decreases d
  {
    if p != [] && p[0] in d.entries {
      var entry := d.entries[p[0]];
      if entry.Folder? {
        BuiltBlobs(entry, depth + 1, p[1..]);
        if BuiltEntry(entry, depth).None? {
          assert BlobContent(Built(entry, depth + 1), p[1..]).None?;
        }
      }
    }
  }

  /** No subtree is empty, below the root of `t`. */
  ghost predicate Full(t: Tree) {
    t.Dir? ==> forall n :: n in t.entries ==> Full(t.entries[n]) && t.entries[n] != EMPTY_TREE
  }

  lemma {:induction false} BuiltFull(d: Disk, depth: nat)
    requires d.Folder? && depth >= 1
    ensures Full(Built(d, depth))
    decreases d
  {
    var t := Built(d, depth);
    forall n | n in t.entries ensures Full(t.entries[n]) && t.entries[n] != EMPTY_TREE {
      EntryOf(d, depth, n);
      if d.entries[n].Folder? {
        BuiltFull(d.entries[n], depth + 1);
      }
    }
  }

  lemma {:induction false} SomeBlob(t: Tree) returns (p: Path)
    requires Full(t) && t != EMPTY_TREE
    ensures BlobContent(t, p).Some?
    decreases t
  {
    if t.Blob? {
      p := [];
    } else {
      assert t.entries != map[];
      var n :| n in t.entries;
      var q := SomeBlob(t.entries[n]);
      p := [n] + q;
      assert p[1..] == q;
    }
  }

  /** Without empty subtrees, a tree is determined by its blobs. */
  lemma {:induction false} FullTreesByBlobs(t: Tree, u: Tree)
    requires t.Dir? && u.Dir? && Full(t) && Full(u)
    requires forall p :: BlobContent(t, p) == BlobContent(u, p)
    ensures t == u
    decreases t
  {
    EntriesByBlobs(t, u);
    EntriesByBlobs(u, t);
    forall n | n in t.entries ensures t.entries[n] == u.entries[n] {
      forall p ensures BlobContent(t.entries[n], p) == BlobContent(u.entries[n], p) {
        assert ([n] + p)[1..] == p;
        assert BlobContent(t, [n] + p) == BlobContent(u, [n] + p);
      }
      if t.entries[n].Dir? && u.entries[n].Dir? {
        FullTreesByBlobs(t.entries[n], u.entries[n]);
      } else {
        assert BlobContent(t.entries[n], []) == BlobContent(u.entries[n], []);
      }
    }
    assert t.entries == u.entries;
  }

  lemma EntriesByBlobs(t: Tree, u: Tree)
    requires t.Dir? && u.Dir? && Full(t)
    requires forall p :: BlobContent(t, p) == BlobContent(u, p)
    ensures t.entries.Keys <= u.entries.Keys
  {
    forall n | n in t.entries ensures n in u.entries {
      var q := SomeBlob(t.entries[n]);
      assert ([n] + q)[1..] == q;
      assert BlobContent(t, [n] + q).Some?;
    }
  }

  /** The host names that a config directory has. */
  ghost function HostDirs(d: Disk): set<Name>
    requires d.Folder?
  {
    set n | n in d.entries && d.entries[n].Folder?
  }

  ghost predicate SameAppFiles(d: Disk, e: Disk) {
    forall p :: |p| >= 3 ==> FileAt(d, p) == FileAt(e, p)
  }

  lemma {:induction false} HostTreesSame(d: Disk, e: Disk, h: Name)
    requires d.Folder? && e.Folder? && h in d.entries && h in e.entries && d.entries[h].Folder? && e.entries[h].Folder?
    requires SameAppFiles(d, e)
    ensures Built(d.entries[h], 1) == Built(e.entries[h], 1)
  {
    var x, y := d.entries[h], e.entries[h];
    BuiltFull(x, 1);
    BuiltFull(y, 1);
    forall p ensures BlobContent(Built(x, 1), p) == BlobContent(Built(y, 1), p) {
      BuiltBlobs(x, 1, p);
      BuiltBlobs(y, 1, p);
      assert ([h] + p)[1..] == p;
      assert |p| >= 2 ==> FileAt(d, [h] + p) == FileAt(e, [h] + p);
    }
    FullTreesByBlobs(Built(x, 1), Built(y, 1));
  }

  /**
    Two directories build the same tree exactly when they have the same host
    names and the same files inside apps: stray files above the app level and
    empty directories make no difference, everything else does.
   */
  lemma {:induction false} SameTreeIffSameFiles(d: Disk, e: Disk)
    requires d.Folder? && e.Folder?
    ensures Built(d, 0) == Built(e, 0) <==> HostDirs(d) == HostDirs(e) && SameAppFiles(d, e)
  {
    var t, u := Built(d, 0), Built(e, 0);
    forall h ensures (h in t.entries <==> h in HostDirs(d)) && (h in u.entries <==> h in HostDirs(e)) {
      EntryOf(d, 0, h);
      EntryOf(e, 0, h);
    }
    assert t.entries.Keys == HostDirs(d) && u.entries.Keys == HostDirs(e);
    if t == u {
      forall p: Path | |p| >= 3 ensures FileAt(d, p) == FileAt(e, p) {
        BuiltBlobs(d, 0, p);
        BuiltBlobs(e, 0, p);
      }
    }
    if HostDirs(d) == HostDirs(e) && SameAppFiles(d, e) {
      forall h | h in t.entries ensures t.entries[h] == u.entries[h] {
        assert h in HostDirs(d) && h in HostDirs(e);
        EntryOf(d, 0, h);
        EntryOf(e, 0, h);
        HostTreesSame(d, e, h);
      }
      assert t.entries == u.entries;
    }
  }

  /** What every tree built from a config directory looks like at the host level: app trees only, none empty. */
  predicate CanonicalHost(t: Tree) {
    t.Dir? && forall a :: a in t.entries ==> t.entries[a].Dir? && t.entries[a] != EMPTY_TREE
  }

  lemma {:induction false} BuiltHostsCanonical(d: Disk, h: Name)
    requires d.Folder? && h in Built(d, 0).entries
    ensures CanonicalHost(Built(d, 0).entries[h])
  {
    EntryOf(d, 0, h);
    var t := Built(d, 0).entries[h];
    forall a | a in t.entries ensures t.entries[a].Dir? && t.entries[a] != EMPTY_TREE {
      EntryOf(d.entries[h], 1, a);
    }
  }

  /** Canonical host trees differ exactly when their apps differ. */
  lemma CanonicalByApps(t: Tree, u: Tree)
    requires CanonicalHost(t) && CanonicalHost(u)
    ensures t == u <==> TreeEntries(t) == TreeEntries(u)
  {
    assert TreeEntries(t) == t.entries && TreeEntries(u) == u.entries;
  }
}
