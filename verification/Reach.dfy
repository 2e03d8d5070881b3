/**
  Where links lead. On a host that is at a commit, every managed link resolves
  to the file it is named after, and every manifest link to its source in the
  app's tree.
 */
module Reach {
  import opened Wrappers
  import opened Paths
  import opened Trees
  import opened Plan
  import opened Desired
  import opened ConfigTree
  import opened Filesystem
  import opened ManagedLinks
  import opened ManifestLinks
  import opened HostState
  import opened Recovery

  // ----- Sources of manifest links -----

  lemma {:induction false} LookupProper(t: Tree, p: Path)
    requires ProperTree(t) && Lookup(t, p).Some?
    ensures ProperPath(p)
    decreases |p|
  {
    if p != [] {
      LookupProper(t.entries[p[0]], p[1..]);
      assert p == [p[0]] + p[1..];
    }
  }

  /** The source string is that of a path in the tree; a slash may follow if a tree is there. */
  ghost predicate NamesSource(app: Tree, source: string, p: Path) {
    && p != [] && ProperPath(p) && Lookup(app, p).Some?
    && (source == JoinPath(p) || (source == JoinPath(p) + "/" && Lookup(app, p).value.Dir?))
  }

  /** Validation accepts exactly the sources that name something in the app's tree. */
  lemma {:induction false} AcceptedSources(app: Tree, source: string)
    requires ProperTree(app)
    ensures SourceExists(app, source) <==> exists p :: NamesSource(app, source, p)
  {
    if SourceExists(app, source) {
      SourceNames(app, source);
    }
    forall p | NamesSource(app, source, p) ensures SourceExists(app, source) {
      NamedExists(app, source, p);
    }
  }

  lemma SourceNames(app: Tree, source: string)
    requires ProperTree(app) && SourceExists(app, source)
    ensures NamesSource(app, source, SourcePieces(source))
  {
    var p := SourcePieces(source);
    LookupProper(app, p);
    JoinOfSplit(source);
    if p != SplitSlash(source) {
      assert SplitSlash(source) == p + [""];
      JoinBelow(p, [""]);
    }
  }

  lemma NamedExists(app: Tree, source: string, p: Path)
    requires NamesSource(app, source, p)
    ensures SourceExists(app, source)
  {
    SplitOfJoin(p);
    if source != JoinPath(p) {
      SplitBelow(p, "");
      assert JoinPath(p) + "/" + "" == source;
    }
  }

  lemma {:induction false} DropTrailing(p: Path)
    requires ProperPath(p)
    ensures DropEmpty(p + [""]) == p
  {
    if p != [] {
      assert (p + [""])[1..] == p[1..] + [""];
      DropTrailing(p[1..]);
    }
  }

  /** As a path, a source is the path in the tree that it names. */
  lemma SourcePath(app: Tree, source: string, p: Path)
    requires NamesSource(app, source, p)
    ensures ToPath(source) == p
  {
    ToPathOfJoin(p);
    if source != JoinPath(p) {
      SplitOfJoin(p);
      SplitBelow(p, "");
      assert JoinPath(p) + "/" + "" == source;
      DropTrailing(p);
      assert p[0] == SplitSlash(source)[0] && ProperName(p[0]);
      FirstPiece(source);
      assert source[0] != '/';
    }
  }

  lemma FirstPiece(s: string)
    ensures s != "" && s[0] == '/' ==> SplitSlash(s)[0] == ""
  {
  }

  // ----- Following a link -----

  lemma {:induction false} BlobIsFound(t: Tree, p: Path)
    ensures BlobAt(t, p) <==> Lookup(t, p).Some? && Lookup(t, p).value.Blob?
    decreases |p|
  {
    if t.Dir? && p != [] && p[0] in t.entries {
      BlobIsFound(t.entries[p[0]], p[1..]);
    }
  }

  /** A path resolves exactly through the current version of the app that it names. */
  lemma {:induction false} ResolvesThrough(dirs: map<Name, AppDir>, appsDir: Path, p: Path, found: Tree)
    ensures Resolve(dirs, appsDir, p) == Some(found) <==>
              exists a, rel ::
                && p == CurrentDir(appsDir, a) + rel && a in dirs
                && dirs[a].current.Some? && dirs[a].current.value in dirs[a].versions
                && Lookup(dirs[a].versions[dirs[a].current.value], rel) == Some(found)
  {
    var n := |appsDir|;
    forall a, rel | p == CurrentDir(appsDir, a) + rel
      ensures p[..n] == appsDir && p[n] == a && p[n + 1] == "current" && p[n + 2..] == rel
    {
    }
    if Resolve(dirs, appsDir, p) == Some(found) {
      assert p == CurrentDir(appsDir, p[n]) + p[n + 2..];
    }
  }

  /** The link of an app's file resolves to that file of the version that is checked out. */
  lemma {:induction false} FileReached(dirs: map<Name, AppDir>, apps: Apps, appsDir: Path, a: Name, s: Name, p: Path)
    requires AppsAre(dirs, apps) && a in apps && p in Files(apps[a], s)
    ensures var file := Resolve(dirs, appsDir, FileTarget(appsDir, a, s, p));
            file.Some? && file.value.Blob? && file == Lookup(apps[a], [s] + p)
  {
    var target := FileTarget(appsDir, a, s, p);
    var sub := SubtreeOid(apps[a], s).value;
    BlobPathsAreBlobs(sub, p);
    BlobIsFound(sub, p);
    assert target[..|appsDir|] == appsDir && target[|appsDir|] == a && target[|appsDir| + 1] == "current";
    assert target[|appsDir| + 2..] == [s] + p;
    assert ([s] + p)[1..] == p;
  }

  /** The source of a manifest link is what its declaration names in the app's tree. */
  lemma {:induction false} SourceReached(dirs: map<Name, AppDir>, apps: Apps, appsDir: Path, a: Name, l: string)
    requires AppsAre(dirs, apps) && ValidHost(apps) && a in apps && l in Links(apps[a]) && ProperTree(apps[a])
    ensures var found := Resolve(dirs, appsDir, LinkSource(appsDir, a, apps[a], l));
            && found.Some? && found == Lookup(apps[a], ToPath(Links(apps[a])[l]))
            && NamesSource(apps[a], Links(apps[a])[l], ToPath(Links(apps[a])[l]))
  {
    var source := Links(apps[a])[l];
    ValidSource(appsDir, apps, a, l);
    assert LinksAcceptable(apps[a]);
    hide ValidHost, Links, AcceptableLink, SourcePieces;
    SourceNames(apps[a], source);
    SourcePath(apps[a], source, SourcePieces(source));
    var p, target := ToPath(source), LinkSource(appsDir, a, apps[a], l);
    assert target == CurrentDir(appsDir, a) + p;
    assert target[..|appsDir|] == appsDir && target[|appsDir|] == a && target[|appsDir| + 1] == "current";
    assert target[|appsDir| + 2..] == p;
  }

  /** A tree without empty subtrees has a blob at or below everything in it. */
  lemma {:induction false} HoldsBlob(t: Tree, p: Path) returns (q: Path)
    requires Full(t) && Lookup(t, p).Some? && p != []
    ensures p <= q && BlobAt(t, q)
    decreases |p|
  {
    var sub := t.entries[p[0]];
    if |p| == 1 {
      var r := SomeBlob(sub);
      ContentIsBlob(sub, r);
      q := p + r;
      assert q[1..] == r;
    } else {
      var r := HoldsBlob(sub, p[1..]);
      q := [p[0]] + r;
      assert p == [p[0]] + p[1..] && q[1..] == r;
    }
  }

  lemma {:induction false} ContentIsBlob(t: Tree, p: Path)
    ensures BlobContent(t, p).Some? <==> BlobAt(t, p)
    decreases |p|
  {
    if t.Dir? && p != [] && p[0] in t.entries {
      ContentIsBlob(t.entries[p[0]], p[1..]);
    }
  }

  // ----- A whole host -----

  /** A managed link of one directory leads to the file of an app that it is named after. */
  ghost predicate LeadsToFile(fs: Fs, dirs: map<Name, AppDir>, place: Place, apps: Apps, s: Name, n: Path)
    requires s in SUBDIRS
  {
    var p := place.roots.Of(s) + n;
    && p in fs && fs[p].Link?
    && exists a :: a in apps && BlobAt(apps[a], [s] + n)
                   && Resolve(dirs, place.appsDir, fs[p].target) == Lookup(apps[a], [s] + n)
  }

  /** A manifest link leads to a source that an app declares for it. */
  ghost predicate LeadsToSource(fs: Fs, dirs: map<Name, AppDir>, place: Place, apps: Apps, link: Path) {
    && link in fs && fs[link].Link?
    && exists a, l :: Declares(apps, a, l, link)
                      && var source := ToPath(Links(apps[a])[l]);
                         && Resolve(dirs, place.appsDir, fs[link].target) == Lookup(apps[a], source)
                         && Lookup(apps[a], source).Some?
  }

  /** On a host at a commit, exactly the files of its apps have managed links, and these lead to them. */
  lemma {:induction false} ManagedLinksLead(y: Snapshot, place: Place, apps: Apps, d: DesiredState, s: Name, n: Path)
    requires AtCommit(y, place, apps) && IsDesiredState(d, place.appsDir, apps)
    requires ManagedAre(y.tree, place.appsDir, place.roots, d) && s in SUBDIRS
    ensures n in Managed(y.tree, place.appsDir, place.roots.Of(s)) <==> exists a :: a in apps && n in Files(apps[a], s)
    ensures n in Managed(y.tree, place.appsDir, place.roots.Of(s)) ==> LeadsToFile(y.tree, y.apps, place, apps, s, n)
  {
    hide Managed, AppsAre, LinksAre, Resolve, IsDesiredSubdir, LinksOf, PointsThroughCurrent, Files, Lookup, BlobAt;
    assert Managed(y.tree, place.appsDir, place.roots.Of(s)) == d.Of(s);
    ManagedAt(y.tree, place.appsDir, place.roots.Of(s), n);
    DesiredLinkLeads(y.apps, apps, place.appsDir, d.Of(s), s, n);
  }

  lemma DesiredLinkLeads(dirs: map<Name, AppDir>, apps: Apps, appsDir: Path, m: map<Path, Path>, s: Name, n: Path)
    requires AppsAre(dirs, apps) && IsDesiredSubdir(m, appsDir, apps, s)
    ensures n in m <==> exists a :: a in apps && n in Files(apps[a], s)
    ensures n in m ==>
              exists a ::
                && a in apps && BlobAt(apps[a], [s] + n)
                && Resolve(dirs, appsDir, m[n]) == Lookup(apps[a], [s] + n)
  {
    hide AppsAre, Resolve, FileTarget, Files;
    if n in m {
      var a :| a in apps && n in Files(apps[a], s) && m[n] == FileTarget(appsDir, a, s, n);
      FileReached(dirs, apps, appsDir, a, s, n);
      BlobIsFound(apps[a], [s] + n);
    }
  }

  /** And every manifest link of a valid commit leads to its source. */
  lemma {:induction false} ManifestLinksLead(y: Snapshot, place: Place, apps: Apps, link: Path)
    requires AtCommit(y, place, apps) && ValidHost(apps) && forall a :: a in apps ==> ProperTree(apps[a])
    requires link in LinksOf(place.appsDir, apps)
    ensures LeadsToSource(y.tree, y.apps, place, apps, link)
  {
    LinksOfDesired(place.appsDir, apps);
    hide LinksOf, ValidHost, AppsAre, Resolve, Links, ToPath, LinkSource, NamesSource;
    var a, l :| Declares(apps, a, l, link)
                && LinksOf(place.appsDir, apps)[link] == LinkSource(place.appsDir, a, apps[a], l);
    SourceReached(y.apps, apps, place.appsDir, a, l);
  }
}
