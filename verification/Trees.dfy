/**
  Git trees. An object id is modelled by the object itself: two trees have
  the same id exactly when they are equal.
 */
module Trees {
  import opened Wrappers
  import opened Paths

  /** The deserialised `manifest.json`. */
  datatype Manifest = Manifest(unitsEnabled: seq<string>, symlinks: map<string, string>)

  /** File contents, with the manifest they parse to, if they do. */
  datatype Content = Content(data: string, parsed: Option<Manifest>)

  datatype Tree = Blob(content: Content) | Dir(entries: map<Name, Tree>)

  datatype StoreError = Git | Json | InvalidConfig

  const EMPTY_TREE := Dir(map[])

  ghost predicate ProperTree(t: Tree) {
    t.Dir? ==> forall n :: n in t.entries ==> ProperName(n) && ProperTree(t.entries[n])
  }

  /** There is a blob at `p`, counted from the root of `t`. */
  predicate BlobAt(t: Tree, p: Path) {
    match t
    case Blob(_) => p == []
    case Dir(entries) => p != [] && p[0] in entries && BlobAt(entries[p[0]], p[1..])
  }

  function BlobPaths(t: Tree): set<Path> {
    match t
    case Blob(_) => {[]}
    case Dir(entries) => set n, p | n in entries && p in BlobPaths(entries[n]) :: [n] + p
  }

  lemma {:induction false} BlobPathsAreBlobs(t: Tree, p: Path)
    ensures p in BlobPaths(t) <==> BlobAt(t, p)
    decreases t
  {
    if t.Dir? && p != [] {
      assert p == [p[0]] + p[1..];
      if p[0] in t.entries {
        BlobPathsAreBlobs(t.entries[p[0]], p[1..]);
      }
      if p in BlobPaths(t) {
        var n, q :| n in t.entries && q in BlobPaths(t.entries[n]) && p == [n] + q;
        assert q == p[1..];
      }
    }
  }

  lemma {:induction false} BlobPathsProper(t: Tree, p: Path)
    requires ProperTree(t) && BlobAt(t, p)
    ensures ProperPath(p)
    ensures t.Dir? ==> p != []
    decreases t
  {
    if t.Dir? {
      BlobPathsProper(t.entries[p[0]], p[1..]);
      assert p == [p[0]] + p[1..];
    }
  }

  /** In a tree of proper names, different blobs have different collected strings. */
  lemma {:induction false} BlobNamesDistinct(t: Tree, p: Path, q: Path)
    requires ProperTree(t) && p in BlobPaths(t) && q in BlobPaths(t) && JoinPath(p) == JoinPath(q)
    ensures p == q
  {
    BlobPathsAreBlobs(t, p);
    BlobPathsAreBlobs(t, q);
    BlobPathsProper(t, p);
    BlobPathsProper(t, q);
    JoinInjective(p, q);
  }

  /** No blob lies below another blob. */
  lemma {:induction false} BlobPathsPrefixFree(t: Tree, p: Path, q: Path)
    requires BlobAt(t, p) && BlobAt(t, q) && p <= q
    ensures p == q
    decreases t
  {
    if t.Dir? {
      assert q[0] == p[0];
      BlobPathsPrefixFree(t.entries[p[0]], p[1..], q[1..]);
      assert p == [p[0]] + p[1..] && q == [q[0]] + q[1..];
    }
  }

  /** `Tree::get_path`: follow names down from `t`. */
  function Lookup(t: Tree, p: Path): Option<Tree> {
    if p == [] then Some(t)
    else if t.Dir? && p[0] in t.entries then Lookup(t.entries[p[0]], p[1..])
    else None
  }

  /** The entries of `t` that are trees, one level deep. */
  function TreeEntries(t: Tree): (r: map<Name, Tree>) {
    match t
    case Blob(_) => map[]
    case Dir(entries) => map n | n in entries && entries[n].Dir? :: entries[n]
  }

  /** `get_name(subdir)`: the object id of a named entry, if there is one. */
  function SubtreeOid(app: Tree, subdir: Name): Option<Tree> {
    if app.Dir? && subdir in app.entries then Some(app.entries[subdir]) else None
  }

  /** What `prefix` and `rel` say together: the slash-joined path string. */
  ghost function Prefixed(prefix: string, t: Tree): set<string> {
    set p | p in BlobPaths(t) :: prefix + JoinPath(p)
  }

  /** The names under a directory whose entries in `done` have been visited. */
  ghost function PrefixedSome(prefix: string, entries: map<Name, Tree>, done: set<Name>): set<string> {
    set n, p | n in entries && n in done && p in BlobPaths(entries[n]) :: prefix + JoinPath([n] + p)
  }

  /**
    Collects the paths of all blobs with one shared prefix buffer: a level
    appends its name and truncates the buffer again on the way out.
   */
  class BlobCollector {
    var prefix: string
    var names: set<string>

    constructor ()
      ensures prefix == "" && names == {}
    {
      prefix, names := "", {};
    }

    method CollectBlobs(t: Tree)
      requires t.Dir?
      modifies this
      ensures prefix == old(prefix)
      ensures names == old(names) + Prefixed(old(prefix), t)
      decreases t
    {
      var rest := t.entries.Keys;
      while rest != {}
        invariant rest <= t.entries.Keys
        invariant prefix == old(prefix)
        invariant names == old(names) + PrefixedSome(old(prefix), t.entries, t.entries.Keys - rest)
        decreases rest
      {
        var name :| name in rest;
        ghost var before, done := names, t.entries.Keys - rest;
        var entry := t.entries[name];
        match entry {
          case Dir(_) =>
            var len := |prefix|;
            prefix := prefix + name;
            prefix := prefix + "/";
            CollectBlobs(entry);
            prefix := prefix[..len];
            DescendedNames(old(prefix), name, entry);
          case Blob(_) =>
            names := names + {prefix + name};
            assert JoinPath([name] + []) == name;
        }
        rest := rest - {name};
        VisitOne(old(prefix), t.entries, done, name);
        assert t.entries.Keys - rest == done + {name};
      }
      AllVisited(old(prefix), t);
    }
  }

  ghost function UnderName(prefix: string, name: Name, t: Tree): set<string> {
    set p | p in BlobPaths(t) :: prefix + JoinPath([name] + p)
  }

  lemma DescendedNames(prefix: string, name: Name, t: Tree)
    requires t.Dir?
    ensures Prefixed(prefix + name + "/", t) == UnderName(prefix, name, t)
  {
    forall p | p in BlobPaths(t)
      ensures prefix + name + "/" + JoinPath(p) == prefix + JoinPath([name] + p)
    {
      BlobPathsAreBlobs(t, p);
      assert ([name] + p)[1..] == p;
      assert prefix + name + "/" + JoinPath(p) == prefix + (name + "/" + JoinPath(p));
    }
  }

  lemma VisitOne(prefix: string, entries: map<Name, Tree>, done: set<Name>, name: Name)
    requires name in entries
    ensures PrefixedSome(prefix, entries, done + {name})
         == PrefixedSome(prefix, entries, done) + UnderName(prefix, name, entries[name])
    ensures entries[name].Blob? ==> UnderName(prefix, name, entries[name]) == {prefix + name}
  {
    if entries[name].Blob? {
      assert BlobPaths(entries[name]) == {[]};
      assert [name] + [] == [name];
      assert prefix + JoinPath([name] + []) in UnderName(prefix, name, entries[name]);
    }
  }

  lemma AllVisited(prefix: string, t: Tree)
    requires t.Dir?
    ensures PrefixedSome(prefix, t.entries, t.entries.Keys) == Prefixed(prefix, t)
  {
  }

  /** The blob paths of an app's subdirectory; a blob of that name is an error. */
  function SubdirEntries(app: Tree, subdir: Name): Result<set<Path>, StoreError> {
    match SubtreeOid(app, subdir)
    case None => Ok({})
    case Some(t) => if t.Dir? then Ok(BlobPaths(t)) else Err(Git)
  }

  /** `s` is the path, relative to `subdir`, of a blob of the app. */
  ghost predicate SubdirFileName(app: Tree, subdir: Name, s: string) {
    exists p :: BlobAt(app, [subdir] + p) && s == JoinPath(p)
  }

  /** The collected names are the relative paths of exactly the blobs below `subdir`. */
  method CollectSubdir(app: Tree, subdir: Name) returns (r: Result<set<string>, StoreError>)
    ensures r.Err? <==> SubdirEntries(app, subdir).Err?
    ensures r.Ok? ==> forall s :: s in r.value <==> SubdirFileName(app, subdir, s)
  {
    match SubtreeOid(app, subdir) {
      case None =>
        forall p ensures !BlobAt(app, [subdir] + p) {}
        r := Ok({});
      case Some(t) =>
        if t.Blob? {
          return Err(Git);
        }
        var c := new BlobCollector();
        c.CollectBlobs(t);
        r := Ok(c.names);
        forall s
          ensures s in c.names <==> SubdirFileName(app, subdir, s)
        {
          CollectedName(app, subdir, s);
        }
    }
  }

  lemma CollectedName(app: Tree, subdir: Name, s: string)
    requires SubtreeOid(app, subdir).Some? && app.entries[subdir].Dir?
    ensures s in Prefixed("", app.entries[subdir]) <==> SubdirFileName(app, subdir, s)
  {
    var t := app.entries[subdir];
    if s in Prefixed("", t) {
      var p :| p in BlobPaths(t) && s == "" + JoinPath(p);
      BlobPathsAreBlobs(t, p);
      assert ([subdir] + p)[1..] == p;
      assert BlobAt(app, [subdir] + p);
    }
    if SubdirFileName(app, subdir, s) {
      var p :| BlobAt(app, [subdir] + p) && s == JoinPath(p);
      assert ([subdir] + p)[1..] == p;
      BlobPathsAreBlobs(t, p);
      assert "" + JoinPath(p) == s;
    }
  }

  /** A manifest that is not there is the default one. */
  function ReadManifest(app: Tree): (r: Result<Manifest, StoreError>) {
    match SubtreeOid(app, "manifest.json")
    case None => Ok(Manifest([], map[]))
    case Some(Dir(_)) => Err(Git)
    case Some(Blob(content)) =>
      match content.parsed
      case None => Err(Json)
      case Some(m) => Ok(m)
  }

  /** A manifest that reads as `m` is a blob that parses to it, or is not there and `m` is empty. */
  lemma {:induction false} ManifestRead(entries: map<Name, Tree>, m: Manifest)
    ensures ReadManifest(Dir(entries)) == Ok(m) <==>
              if "manifest.json" in entries
              then exists data :: entries["manifest.json"] == Blob(Content(data, Some(m)))
              else m.unitsEnabled == [] && m.symlinks == map[]
  {
    if "manifest.json" in entries && entries["manifest.json"].Blob? {
      var content := entries["manifest.json"].content;
      assert content == Content(content.data, content.parsed);
    }
  }

  function EnabledUnits(m: Manifest): set<string> {
    set u | u in m.unitsEnabled
  }
}
