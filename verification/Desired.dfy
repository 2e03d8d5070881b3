/**
  Validation of a host's apps, and the symlinks that a commit asks for on a
  host, computed from scratch.
 */
module Desired {
  import opened Wrappers
  import opened Paths
  import opened Trees
  import opened Plan

  // ----- Validation -----

  const MANAGED_ROOTS: set<string> :=
    {"/etc/systemd/network", "/etc/containers/systemd", "/etc/sysusers.d", "/etc/systemd/system"}

  /** Absolute, and not in a directory that is reconciled automatically. */
  predicate AcceptableLink(link: string) {
    && "/" <= link
    && forall dir :: dir in MANAGED_ROOTS ==> !(dir + "/" <= link)
  }

  /** The names between the slashes of a path string, without the empty one after a trailing slash. */
  function SourcePieces(source: string): Path {
    var pieces := SplitSlash(source);
    if |pieces| > 1 && pieces[|pieces| - 1] == "" then pieces[..|pieces| - 1] else pieces
  }

  /** `get_path` finds an entry: every piece names one, and with a trailing slash it is a tree. */
  predicate SourceExists(app: Tree, source: string) {
    var pieces := SourcePieces(source);
    && "" !in pieces && Lookup(app, pieces).Some?
    && (pieces != SplitSlash(source) ==> Lookup(app, pieces).value.Dir?)
  }

  /** Such a source is relative to the app's directory. */
  lemma SourceIsRelative(app: Tree, source: string)
    requires SourceExists(app, source)
    ensures ToPath(source) == [] || ToPath(source)[0] != ROOT
  {
    AbsolutePieces(source);
    RelativePath(source);
  }

  lemma AbsolutePieces(source: string)
    ensures source != "" && source[0] == '/' ==> "" in SourcePieces(source)
  {
    if source != "" && source[0] == '/' {
      assert SourcePieces(source)[0] == "";
    }
  }

  ghost predicate LinksAcceptable(app: Tree) {
    forall l :: l in Links(app) ==> AcceptableLink(l) && SourceExists(app, Links(app)[l])
  }

  /** No file of a managed subdirectory and no link is in both. */
  ghost predicate NothingShared(x: Tree, y: Tree) {
    && (forall s :: s in SUBDIRS ==> Files(x, s) !! Files(y, s))
    && Links(x).Keys !! Links(y).Keys
  }

  ghost predicate ValidHost(apps: Apps) {
    && (forall a :: a in apps ==> Readable(apps[a]) && LinksAcceptable(apps[a]))
    && (forall a, b :: a in apps && b in apps && a != b ==> NothingShared(apps[a], apps[b]))
  }

  ghost predicate OwnersOf(owners: map<Path, Name>, apps: Apps, s: Name) {
    && (forall p :: p in owners ==> owners[p] in apps && p in Files(apps[owners[p]], s))
    && (forall a, p :: a in apps && p in Files(apps[a], s) ==> p in owners)
  }

  ghost predicate LinkOwnersOf(owners: map<string, Name>, apps: Apps) {
    && (forall l :: l in owners ==> owners[l] in apps && l in Links(apps[owners[l]]))
    && (forall a, l :: a in apps && l in Links(apps[a]) ==> l in owners)
  }

  /** Enter an app's files among the owners; an error when one is already owned. */
  method ClaimFiles(owners: map<Path, Name>, files: set<Path>, app: Name)
    returns (r: Result<map<Path, Name>, StoreError>)
    ensures r.Ok? <==> files !! owners.Keys
    ensures r.Ok? ==> r.value == owners + map p | p in files :: app
    ensures r.Err? ==> r.error == InvalidConfig
  {
    var claimed := owners;
    var rest := files;
    while rest != {}
      invariant rest <= files
      invariant (files - rest) !! owners.Keys
      invariant claimed == owners + map p | p in files - rest :: app
      decreases rest
    {
      var name :| name in rest;
      if name in claimed {
        return Err(InvalidConfig);
      }
      claimed := claimed[name := app];
      rest := rest - {name};
    }
    return Ok(claimed);
  }

  /** Check an app's links and enter them among the owners. */
  method ClaimLinks(owners: map<string, Name>, manifest: Manifest, tree: Tree, app: Name)
    returns (r: Result<map<string, Name>, StoreError>)
    ensures r.Ok? <==> && manifest.symlinks.Keys !! owners.Keys
                       && forall l :: l in manifest.symlinks ==>
                           AcceptableLink(l) && SourceExists(tree, manifest.symlinks[l])
    ensures r.Ok? ==> r.value == owners + map l | l in manifest.symlinks :: app
    ensures r.Err? ==> r.error == InvalidConfig
  {
    hide AcceptableLink, SourceExists;
    var links := manifest.symlinks;
    var claimed := owners;
    var rest := links.Keys;
    while rest != {}
      invariant rest <= links.Keys
      invariant (links.Keys - rest) !! owners.Keys
      invariant forall l :: l in links.Keys - rest ==> AcceptableLink(l) && SourceExists(tree, links[l])
      invariant claimed == owners + map l | l in links.Keys - rest :: app
      decreases rest
    {
      var target :| target in rest;
      if !AcceptableLink(target) {
        return Err(InvalidConfig);
      }
      if !SourceExists(tree, links[target]) {
        return Err(InvalidConfig);
      }
      if target in claimed {
        return Err(InvalidConfig);
      }
      claimed := claimed[target := app];
      rest := rest - {target};
    }
    assert links.Keys - {} == links.Keys;
    return Ok(claimed);
  }

  lemma OwnersStep(owners: map<Path, Name>, apps: Apps, s: Name, app: Name, tree: Tree)
    requires app !in apps && OwnersOf(owners, apps, s) && Files(tree, s) !! owners.Keys
    ensures OwnersOf(owners + map p | p in Files(tree, s) :: app, apps[app := tree], s)
  {
  }

  lemma ValidStep(apps: Apps, app: Name, tree: Tree, networkd: map<Path, Name>, quadlets: map<Path, Name>,
                  sysusers: map<Path, Name>, units: map<Path, Name>, links: map<string, Name>)
    requires app !in apps && ValidHost(apps)
    requires OwnersOf(networkd, apps, NETWORKD) && OwnersOf(quadlets, apps, QUADLETS)
    requires OwnersOf(sysusers, apps, SYSUSERS) && OwnersOf(units, apps, UNITS) && LinkOwnersOf(links, apps)
    ensures ValidHost(apps[app := tree]) <==>
              && Readable(tree) && LinksAcceptable(tree)
              && Files(tree, NETWORKD) !! networkd.Keys && Files(tree, QUADLETS) !! quadlets.Keys
              && Files(tree, SYSUSERS) !! sysusers.Keys && Files(tree, UNITS) !! units.Keys
              && Links(tree).Keys !! links.Keys
  {
    hide Readable, LinksAcceptable, Files, Links;
    var next := apps[app := tree];
    FreeOfOwners(apps, tree, NETWORKD, networkd);
    FreeOfOwners(apps, tree, QUADLETS, quadlets);
    FreeOfOwners(apps, tree, SYSUSERS, sysusers);
    FreeOfOwners(apps, tree, UNITS, units);
    assert Links(tree).Keys !! links.Keys <==> forall a :: a in apps ==> Links(tree).Keys !! Links(apps[a]).Keys;
    if ValidHost(next) {
      assert next[app] == tree;
      forall a | a in apps ensures NothingShared(apps[a], tree) {
        assert next[a] == apps[a];
        assert NothingShared(next[a], next[app]);
      }
    }
  }

  lemma FreeOfOwners(apps: Apps, tree: Tree, s: Name, owners: map<Path, Name>)
    requires OwnersOf(owners, apps, s)
    ensures Files(tree, s) !! owners.Keys <==> forall a :: a in apps ==> Files(tree, s) !! Files(apps[a], s)
  {
  }

  /** What `Readable` and `LinksAcceptable` say, one read at a time. */
  lemma TreeParts(t: Tree)
    ensures Readable(t) <==> && ReadManifest(t).Ok?
                             && SubdirEntries(t, NETWORKD).Ok? && SubdirEntries(t, QUADLETS).Ok?
                             && SubdirEntries(t, SYSUSERS).Ok? && SubdirEntries(t, UNITS).Ok?
    ensures ReadManifest(t).Ok? ==> Links(t) == ReadManifest(t).value.symlinks
    ensures forall s :: SubdirEntries(t, s).Ok? ==> Files(t, s) == SubdirEntries(t, s).value
    ensures LinksAcceptable(t) <==> forall l :: l in Links(t) ==> AcceptableLink(l) && SourceExists(t, Links(t)[l])
  {
  }

  /** Claims the files of one subdirectory of an app. */
  method ClaimSubdir(owners: map<Path, Name>, ghost apps: Apps, s: Name, app: Name, tree: Tree)
    returns (r: Result<map<Path, Name>, StoreError>)
    requires app !in apps && OwnersOf(owners, apps, s)
    ensures r.Ok? <==> SubdirEntries(tree, s).Ok? && Files(tree, s) !! owners.Keys
    ensures r.Ok? ==> OwnersOf(r.value, apps[app := tree], s)
    ensures r.Err? && SubdirEntries(tree, s).Ok? ==> r.error == InvalidConfig
  {
    var files :- SubdirEntries(tree, s);
    r := ClaimFiles(owners, files, app);
    if r.Ok? {
      OwnersStep(owners, apps, s, app, tree);
    }
  }

  lemma LinkOwnersStep(owners: map<string, Name>, apps: Apps, app: Name, tree: Tree)
    requires app !in apps && LinkOwnersOf(owners, apps) && Links(tree).Keys !! owners.Keys
    ensures LinkOwnersOf(owners + map l | l in Links(tree) :: app, apps[app := tree])
  {
  }

  /** Accepts a host exactly when it is valid, whatever the order of the apps. */
  method ValidateAppManifests(apps: Apps) returns (r: Result<(), StoreError>)
    ensures r.Ok? <==> ValidHost(apps)
    ensures r.Err? && (forall a :: a in apps ==> Readable(apps[a])) ==> r.error == InvalidConfig
  {
    hide Readable, LinksAcceptable, NothingShared, Files, Links, AcceptableLink, SourceExists, ReadManifest;
    hide SubdirEntries;
    var networkd, quadlets, sysusers, units: map<Path, Name> := map[], map[], map[], map[];
    var links: map<string, Name> := map[];
    var rest := apps.Keys;
    ghost var seen: Apps := map[];
    while rest != {}
      invariant rest <= apps.Keys && seen == apps - rest
      invariant ValidHost(seen)
      invariant OwnersOf(networkd, seen, NETWORKD) && OwnersOf(quadlets, seen, QUADLETS)
      invariant OwnersOf(sysusers, seen, SYSUSERS) && OwnersOf(units, seen, UNITS) && LinkOwnersOf(links, seen)
      decreases rest
    {
      hide ValidHost, OwnersOf, LinkOwnersOf;
      var app :| app in rest;
      var tree := apps[app];
      ghost var next := seen[app := tree];
      OneMore(apps, rest, app);
      SubsetInvalid(apps, next);
      TreeParts(tree);
      ValidStep(seen, app, tree, networkd, quadlets, sysusers, units, links);
      var manifest :- ReadManifest(tree);
      networkd :- ClaimSubdir(networkd, seen, NETWORKD, app, tree);
      quadlets :- ClaimSubdir(quadlets, seen, QUADLETS, app, tree);
      sysusers :- ClaimSubdir(sysusers, seen, SYSUSERS, app, tree);
      units :- ClaimSubdir(units, seen, UNITS, app, tree);
      var claimed := ClaimLinks(links, manifest, tree, app);
      if claimed.Err? {
        return Err(claimed.error);
      }
      LinkOwnersStep(links, seen, app, tree);
      links := claimed.value;
      rest := rest - {app};
      seen := next;
    }
    assert seen == apps;
    return Ok(());
  }

  lemma OneMore(apps: Apps, rest: set<Name>, app: Name)
    requires app in rest && rest <= apps.Keys
    ensures (apps - rest)[app := apps[app]] == apps - (rest - {app})
    ensures app !in apps - rest
    ensures forall a :: a in apps - (rest - {app}) ==> a in apps && (apps - (rest - {app}))[a] == apps[a]
  {
  }

  lemma SubsetInvalid(apps: Apps, some: Apps)
    requires forall a :: a in some ==> a in apps && some[a] == apps[a]
    ensures ValidHost(apps) ==> ValidHost(some)
  {
  }

  // ----- Desired symlinks, from scratch -----

  function FileTarget(appsDir: Path, app: Name, s: Name, p: Path): Path {
    CurrentDir(appsDir, app) + [s] + p
  }

  /** Every file of the subdirectory in any app has a link, through an app that has it. */
  ghost predicate IsDesiredSubdir(m: map<Path, Path>, appsDir: Path, apps: Apps, s: Name) {
    && (forall p :: p in m <==> exists a :: a in apps && p in Files(apps[a], s))
    && (forall p :: p in m ==> exists a :: a in apps && p in Files(apps[a], s) && m[p] == FileTarget(appsDir, a, s, p))
  }

  /** Insert one app's links. */
  method InsertFileLinks(links: map<Path, Path>, appsDir: Path, app: Name, s: Name, files: set<Path>)
    returns (result: map<Path, Path>)
    ensures result == links + map p | p in files :: FileTarget(appsDir, app, s, p)
  {
    result := links;
    var names := files;
    while names != {}
      invariant names <= files
      invariant result == links + map p | p in files - names :: FileTarget(appsDir, app, s, p)
      decreases names
    {
      var name :| name in names;
      result := result[name := FileTarget(appsDir, app, s, name)];
      names := names - {name};
    }
    assert files - {} == files;
  }

  lemma DesiredSubdirStep(m: map<Path, Path>, appsDir: Path, apps: Apps, s: Name, app: Name, tree: Tree)
    requires app !in apps && IsDesiredSubdir(m, appsDir, apps, s)
    ensures IsDesiredSubdir(m + map p | p in Files(tree, s) :: FileTarget(appsDir, app, s, p), appsDir,
                            apps[app := tree], s)
  {
    hide Files, FileTarget;
    var added := map p | p in Files(tree, s) :: FileTarget(appsDir, app, s, p);
    var m', apps' := m + added, apps[app := tree];
    forall p ensures p in m' <==> exists a :: a in apps' && p in Files(apps'[a], s) {
      if p in Files(tree, s) {
        assert p in Files(apps'[app], s);
      } else if p in m {
        var a :| a in apps && p in Files(apps[a], s);
        assert apps'[a] == apps[a];
      }
    }
    forall p | p in m'
      ensures exists a :: a in apps' && p in Files(apps'[a], s) && m'[p] == FileTarget(appsDir, a, s, p)
    {
      if p in Files(tree, s) {
        assert p in Files(apps'[app], s) && m'[p] == FileTarget(appsDir, app, s, p);
      } else {
        var a :| a in apps && p in Files(apps[a], s) && m[p] == FileTarget(appsDir, a, s, p);
        assert apps'[a] == apps[a];
      }
    }
  }

  /** For a valid host, an app's files are not among the links of the other apps: no insert overwrites. */
  lemma FilesNotYetLinked(m: map<Path, Path>, appsDir: Path, apps: Apps, some: Apps, s: Name, app: Name)
    requires s in SUBDIRS && app in apps && app !in some
    requires forall a :: a in some ==> a in apps && some[a] == apps[a]
    requires IsDesiredSubdir(m, appsDir, some, s) && ValidHost(apps)
    ensures Files(apps[app], s) !! m.Keys
  {
    hide Files;
    forall p | p in m ensures p !in Files(apps[app], s) {
      var a :| a in some && p in Files(some[a], s);
      assert NothingShared(apps[a], apps[app]);
    }
  }

  /** The links of a managed subdirectory, over all apps of a host. */
  method DesiredSubdirSymlinks(appsDir: Path, apps: Apps, s: Name) returns (r: Result<map<Path, Path>, StoreError>)
    requires s in SUBDIRS
    ensures r.Ok? <==> forall a :: a in apps ==> SubdirEntries(apps[a], s).Ok?
    ensures r.Ok? ==> IsDesiredSubdir(r.value, appsDir, apps, s)
  {
    hide Files, SubdirEntries, IsDesiredSubdir, ValidHost;
    var result: map<Path, Path> := map[];
    var rest := apps.Keys;
    ghost var seen: Apps := map[];
    assert IsDesiredSubdir(result, appsDir, seen, s) by { NothingDesired(appsDir, s); }
    while rest != {}
      invariant rest <= apps.Keys && seen == apps - rest
      invariant forall a :: a in seen ==> SubdirEntries(apps[a], s).Ok?
      invariant IsDesiredSubdir(result, appsDir, seen, s)
      decreases rest
    {
      var app :| app in rest;
      var files :- SubdirEntries(apps[app], s);
      TreeParts(apps[app]);
      DesiredSubdirStep(result, appsDir, seen, s, app, apps[app]);
      if ValidHost(apps) {
        FilesNotYetLinked(result, appsDir, apps, seen, s, app);
        assert files !! result.Keys;
      }
      result := InsertFileLinks(result, appsDir, app, s, files);
      rest := rest - {app};
      seen := seen[app := apps[app]];
      assert seen == apps - rest;
    }
    assert seen == apps;
    return Ok(result);
  }

  lemma NothingDesired(appsDir: Path, s: Name)
    ensures IsDesiredSubdir(map[], appsDir, map[], s)
  {
  }

  /**
    For a valid host the links of a managed subdirectory are the disjoint union
    of the per-app links: an app's file is linked through that app, and through
    no other.
   */
  lemma {:induction false} DesiredSubdirIsUnion(m: map<Path, Path>, appsDir: Path, apps: Apps, s: Name)
    requires s in SUBDIRS && ValidHost(apps) && IsDesiredSubdir(m, appsDir, apps, s)
    ensures forall a, p :: a in apps && p in Files(apps[a], s) ==> p in m && m[p] == FileTarget(appsDir, a, s, p)
    ensures forall a, b, p :: a in apps && b in apps && p in Files(apps[a], s) && p in Files(apps[b], s) ==> a == b
    ensures m.Keys == set a, p | a in apps && p in Files(apps[a], s) :: p
  {
    hide Files, Links;
    forall a, b, p | a in apps && b in apps && p in Files(apps[a], s) && p in Files(apps[b], s)
      ensures a == b
    {
      assert a != b ==> NothingShared(apps[a], apps[b]);
    }
  }

  // ----- Manifest symlinks -----

  function LinkSource(appsDir: Path, app: Name, t: Tree, l: string): Path
    requires l in Links(t)
  {
    Joined(CurrentDir(appsDir, app), ToPath(Links(t)[l]))
  }

  /** An absolute source takes the place of the app's directory: no manifest that declares one is accepted. */
  lemma {:induction false} AbsoluteSource(appsDir: Path, app: Name, t: Tree, l: string)
    requires l in Links(t) && "/" <= Links(t)[l]
    ensures LinkSource(appsDir, app, t, l) == ToPath(Links(t)[l]) && !LinksAcceptable(t)
  {
    hide Links, AcceptableLink, SourcePieces;
    AbsolutePieces(Links(t)[l]);
  }

  /** On a valid host the source of a link is inside its app's current version. */
  lemma ValidSource(appsDir: Path, apps: Apps, a: Name, l: string)
    requires ValidHost(apps) && a in apps && l in Links(apps[a])
    ensures LinkSource(appsDir, a, apps[a], l) == CurrentDir(appsDir, a) + ToPath(Links(apps[a])[l])
  {
    assert LinksAcceptable(apps[a]);
    hide AcceptableLink, Links, Readable, NothingShared, ToPath, SourceExists;
    SourceIsRelative(apps[a], Links(apps[a])[l]);
  }

  ghost predicate Declares(apps: Apps, a: Name, l: string, link: Path) {
    a in apps && l in Links(apps[a]) && link == ToPath(l)
  }

  /** Every declared link is there, with the source that one of its declarations gives it. */
  ghost predicate IsDesiredLinks(m: map<Path, Path>, appsDir: Path, apps: Apps) {
    && (forall link :: link in m <==> exists a, l :: Declares(apps, a, l, link))
    && (forall link :: link in m ==>
          exists a, l :: Declares(apps, a, l, link) && m[link] == LinkSource(appsDir, a, apps[a], l))
  }

  method InsertLinks(links: map<Path, Path>, appsDir: Path, app: Name, symlinks: map<string, string>)
    returns (result: map<Path, Path>)
    ensures result.Keys == links.Keys + set l | l in symlinks :: ToPath(l)
    ensures forall link :: link in result ==>
              || (link in links && link !in (set l | l in symlinks :: ToPath(l)) && result[link] == links[link])
              || exists l :: l in symlinks && ToPath(l) == link
                  && result[link] == Joined(CurrentDir(appsDir, app), ToPath(symlinks[l]))
  {
    result := links;
    var rest := symlinks.Keys;
    ghost var done: set<string> := {};
    while rest != {}
      invariant rest <= symlinks.Keys && done == symlinks.Keys - rest
      invariant result.Keys == links.Keys + set l | l in done :: ToPath(l)
      invariant forall link :: link in result ==>
                  || (link in links && link !in (set l | l in done :: ToPath(l)) && result[link] == links[link])
                  || exists l :: l in done && ToPath(l) == link
                      && result[link] == Joined(CurrentDir(appsDir, app), ToPath(symlinks[l]))
      decreases rest
    {
      var l :| l in rest;
      result := result[ToPath(l) := Joined(CurrentDir(appsDir, app), ToPath(symlinks[l]))];
      rest := rest - {l};
      done := done + {l};
    }
    assert done == symlinks.Keys;
  }

  /** The manifest symlinks over all apps of a host. */
  method DesiredSymlinks(appsDir: Path, apps: Apps) returns (r: Result<map<Path, Path>, StoreError>)
    ensures r.Ok? <==> forall a :: a in apps ==> ReadManifest(apps[a]).Ok?
    ensures r.Ok? ==> IsDesiredLinks(r.value, appsDir, apps)
  {
    hide ReadManifest, Links, ToPath;
    var result: map<Path, Path> := map[];
    var rest := apps.Keys;
    ghost var seen: Apps := map[];
    while rest != {}
      invariant rest <= apps.Keys && seen == apps - rest
      invariant forall a :: a in seen ==> ReadManifest(apps[a]).Ok?
      invariant IsDesiredLinks(result, appsDir, seen)
      decreases rest
    {
      hide IsDesiredLinks;
      var app :| app in rest;
      var manifest :- ReadManifest(apps[app]);
      TreeParts(apps[app]);
      ghost var before := result;
      result := InsertLinks(result, appsDir, app, manifest.symlinks);
      DesiredLinksStep(before, result, appsDir, seen, app, apps[app]);
      rest := rest - {app};
      seen := seen[app := apps[app]];
      assert seen == apps - rest;
    }
    assert seen == apps;
    return Ok(result);
  }

  lemma DesiredLinksStep(m: map<Path, Path>, m': map<Path, Path>, appsDir: Path, apps: Apps, app: Name, tree: Tree)
    requires app !in apps && IsDesiredLinks(m, appsDir, apps)
    requires m'.Keys == m.Keys + set l | l in Links(tree) :: ToPath(l)
    requires forall link :: link in m' ==>
               || (link in m && link !in (set l | l in Links(tree) :: ToPath(l)) && m'[link] == m[link])
               || exists l :: l in Links(tree) && ToPath(l) == link && m'[link] == LinkSource(appsDir, app, tree, l)
    ensures IsDesiredLinks(m', appsDir, apps[app := tree])
  {
    hide Links, ToPath, LinkSource;
    var apps' := apps[app := tree];
    forall a, l, link | Declares(apps, a, l, link) ensures Declares(apps', a, l, link) {
      assert apps'[a] == apps[a];
    }
    forall a, l, link | Declares(apps', a, l, link) ensures link in m' {
      assert a == app || Declares(apps, a, l, link);
    }
    forall link | link in m'
      ensures exists a, l :: Declares(apps', a, l, link) && m'[link] == LinkSource(appsDir, a, apps'[a], l)
    {
      if exists l :: l in Links(tree) && ToPath(l) == link && m'[link] == LinkSource(appsDir, app, tree, l) {
        var l :| l in Links(tree) && ToPath(l) == link && m'[link] == LinkSource(appsDir, app, tree, l);
        assert Declares(apps', app, l, link);
      } else {
        var a, l :| Declares(apps, a, l, link) && m[link] == LinkSource(appsDir, a, apps[a], l);
        assert Declares(apps', a, l, link) && apps'[a] == apps[a];
      }
    }
  }

  /** No path is declared twice: as path strings the links differ already, this is about the paths they denote. */
  ghost predicate LinksDistinct(apps: Apps) {
    forall a, l, b, k, link :: Declares(apps, a, l, link) && Declares(apps, b, k, link) ==> a == b && l == k
  }

  /** The sources that the declarations of one path give it, in one app or in several, are one. */
  ghost predicate SourcesAgree(appsDir: Path, apps: Apps, link: Path) {
    forall a, l, b, k :: Declares(apps, a, l, link) && Declares(apps, b, k, link) ==>
      LinkSource(appsDir, a, apps[a], l) == LinkSource(appsDir, b, apps[b], k)
  }

  ghost predicate AllAgree(appsDir: Path, apps: Apps) {
    forall link :: SourcesAgree(appsDir, apps, link)
  }

  /** Every declaration has its own source in `m`: no insert has overwritten another. */
  ghost predicate KeepsEvery(m: map<Path, Path>, appsDir: Path, apps: Apps) {
    forall a, l, link :: Declares(apps, a, l, link) ==> link in m && m[link] == LinkSource(appsDir, a, apps[a], l)
  }

  ghost function DeclaredPaths(apps: Apps): set<Path> {
    set a, l | a in apps && l in Links(apps[a]) :: ToPath(l)
  }

  ghost function SourceOf(appsDir: Path, apps: Apps, link: Path): Path {
    if exists a, l :: Declares(apps, a, l, link) then
      (var a, l :| Declares(apps, a, l, link); LinkSource(appsDir, a, apps[a], l))
    else []
  }

  /** The manifest links of a commit, as a map. */
  ghost function LinksOf(appsDir: Path, apps: Apps): map<Path, Path> {
    map link | link in DeclaredPaths(apps) :: SourceOf(appsDir, apps, link)
  }

  lemma LinksOfDesired(appsDir: Path, apps: Apps)
    ensures IsDesiredLinks(LinksOf(appsDir, apps), appsDir, apps)
  {
    hide Links, ToPath, LinkSource;
    forall link ensures link in LinksOf(appsDir, apps) <==> exists a, l :: Declares(apps, a, l, link) {
      if link in DeclaredPaths(apps) {
        var a, l :| a in apps && l in Links(apps[a]) && link == ToPath(l);
        assert Declares(apps, a, l, link);
      }
    }
  }

  /**
    No declaration is lost, in whatever order the apps and links are inserted,
    exactly when declarations of the same path give it the same source.
   */
  lemma {:induction false} NoLinkLost(appsDir: Path, apps: Apps)
    ensures (forall m :: IsDesiredLinks(m, appsDir, apps) ==> KeepsEvery(m, appsDir, apps))
            <==> AllAgree(appsDir, apps)
  {
    hide KeepsEvery, IsDesiredLinks;
    if forall link :: SourcesAgree(appsDir, apps, link) {
      forall m | IsDesiredLinks(m, appsDir, apps) ensures KeepsEvery(m, appsDir, apps) {
        AgreeingAreKept(m, appsDir, apps);
      }
    }
    forall link | forall m :: IsDesiredLinks(m, appsDir, apps) ==> KeepsEvery(m, appsDir, apps)
      ensures SourcesAgree(appsDir, apps, link)
    {
      KeptAgree(appsDir, apps, link);
    }
  }

  lemma AgreeingAreKept(m: map<Path, Path>, appsDir: Path, apps: Apps)
    requires IsDesiredLinks(m, appsDir, apps) && AllAgree(appsDir, apps)
    ensures KeepsEvery(m, appsDir, apps)
  {
    hide ToPath, Links, LinkSource;
    forall a, l, link | Declares(apps, a, l, link) ensures link in m && m[link] == LinkSource(appsDir, a, apps[a], l) {
      var b, k :| Declares(apps, b, k, link) && m[link] == LinkSource(appsDir, b, apps[b], k);
      assert SourcesAgree(appsDir, apps, link);
    }
  }

  lemma KeptAgree(appsDir: Path, apps: Apps, link: Path)
    requires forall m :: IsDesiredLinks(m, appsDir, apps) ==> KeepsEvery(m, appsDir, apps)
    ensures SourcesAgree(appsDir, apps, link)
  {
    hide ToPath, Links, LinkSource, LinksOf, KeepsEvery;
    LinksOfDesired(appsDir, apps);
    forall a, l, b, k | Declares(apps, a, l, link) && Declares(apps, b, k, link)
      ensures LinkSource(appsDir, a, apps[a], l) == LinkSource(appsDir, b, apps[b], k)
    {
      var m := LinksOf(appsDir, apps)[link := LinkSource(appsDir, a, apps[a], l)];
      OtherSource(LinksOf(appsDir, apps), appsDir, apps, a, l, link);
      assert KeepsEvery(m, appsDir, apps);
      KeptAt(m, appsDir, apps, b, k, link);
    }
  }

  lemma KeptAt(m: map<Path, Path>, appsDir: Path, apps: Apps, a: Name, l: string, link: Path)
    requires KeepsEvery(m, appsDir, apps) && Declares(apps, a, l, link)
    ensures link in m && m[link] == LinkSource(appsDir, a, apps[a], l)
  {
  }

  /** Any of a path's declarations may be the last one to be inserted. */
  lemma OtherSource(m: map<Path, Path>, appsDir: Path, apps: Apps, a: Name, l: string, link: Path)
    requires IsDesiredLinks(m, appsDir, apps) && Declares(apps, a, l, link)
    ensures IsDesiredLinks(m[link := LinkSource(appsDir, a, apps[a], l)], appsDir, apps)
  {
    hide ToPath, Links, LinkSource;
    var m' := m[link := LinkSource(appsDir, a, apps[a], l)];
    forall p | p in m' ensures exists b, k :: Declares(apps, b, k, p) && m'[p] == LinkSource(appsDir, b, apps[b], k) {
      if p != link {
        assert p in m;
      }
    }
  }

  lemma DistinctAgree(appsDir: Path, apps: Apps)
    requires LinksDistinct(apps)
    ensures AllAgree(appsDir, apps)
  {
    hide Declares;
  }

  /** An app with one file and one link to it. */
  function OneLinkApp(link: string): Tree {
    Dir(map["f" := Blob(Content("", None)),
            "manifest.json" := Blob(Content("", Some(Manifest([], map[link := "f"]))))])
  }

  /**
    Validation compares link targets as strings, the host compares them as
    paths: two apps may share a path that they spell differently, and then one
    of the links is lost.
   */
  lemma ValidationComparesStrings(appsDir: Path, m: map<Path, Path>)
    ensures ValidHost(SPELLED_TWICE) && !LinksDistinct(SPELLED_TWICE)
    ensures IsDesiredLinks(m, appsDir, SPELLED_TWICE) ==> |m| == 1
  {
    hide OneLinkApp, Readable, LinksAcceptable, Files, Links, ToPath, LinkSource;
    var apps := SPELLED_TWICE;
    ShortLinks();
    hide AcceptableLink;
    OneLinkAppValid("/x");
    OneLinkAppValid("//x");
    TwoSpellings();
    assert ValidHost(apps) by {
      assert NothingShared(apps["a"], apps["b"]) && NothingShared(apps["b"], apps["a"]);
    }
    assert Declares(apps, "a", "/x", ["/", "x"]) && Declares(apps, "b", "//x", ["/", "x"]);
    assert !LinksDistinct(apps);
    if IsDesiredLinks(m, appsDir, apps) {
      OnlyLink(appsDir, m);
    }
  }

  const SPELLED_TWICE: Apps := map["a" := OneLinkApp("/x"), "b" := OneLinkApp("//x")]

  lemma OnlyLink(appsDir: Path, m: map<Path, Path>)
    requires IsDesiredLinks(m, appsDir, SPELLED_TWICE)
    ensures |m| == 1
  {
    hide OneLinkApp, Readable, LinksAcceptable, Files, Links, ToPath, LinkSource;
    ShortLinks();
    hide AcceptableLink;
    OneLinkAppValid("/x");
    OneLinkAppValid("//x");
    TwoSpellings();
    assert Declares(SPELLED_TWICE, "a", "/x", ["/", "x"]);
    forall link | link in m ensures link == ["/", "x"] {
      var a, l :| Declares(SPELLED_TWICE, a, l, link);
    }
    assert m.Keys == {["/", "x"]};
    assert |m| == |m.Keys|;
  }

  lemma TwoSpellings()
    ensures ToPath("/x") == ["/", "x"] && ToPath("//x") == ["/", "x"]
  {
    SplitNoSlash("x");
    assert "/x"[1..] == "x" && "//x"[1..] == "/x";
    assert SplitSlash("/x") == ["", "x"];
    assert SplitSlash("//x") == ["", "", "x"];
    assert ["x"][1..] == [] && ["", "x"][1..] == ["x"] && ["", "", "x"][1..] == ["", "x"];
    assert DropEmpty(["x"]) == ["x"];
    assert DropEmpty(["", "x"]) == ["x"];
    assert DropEmpty(["", "", "x"]) == ["x"];
  }

  lemma OneLinkAppValid(link: string)
    requires AcceptableLink(link)
    ensures Readable(OneLinkApp(link)) && LinksAcceptable(OneLinkApp(link))
    ensures Links(OneLinkApp(link)) == map[link := "f"]
    ensures forall s :: s in SUBDIRS ==> Files(OneLinkApp(link), s) == {}
  {
    var t := OneLinkApp(link);
    SplitNoSlash("f");
    assert SourcePieces("f") == ["f"];
    assert ["f"][1..] == [];
    assert Lookup(t, ["f"]).Some?;
    hide AcceptableLink;
  }

  lemma ShortLinks()
    ensures AcceptableLink("/x") && AcceptableLink("//x")
  {
    forall dir | dir in MANAGED_ROOTS ensures !(dir + "/" <= "/x") && !(dir + "/" <= "//x") {
      assert |dir + "/"| > 3;
    }
  }

  /** An app with one file and two spellings of one link to it. */
  const TWO_LINK_APP: Tree :=
    Dir(map["f" := Blob(Content("", None)),
            "manifest.json" := Blob(Content("", Some(Manifest([], map["/x" := "f", "//x" := "f"]))))])

  lemma TwoLinkAppValid()
    ensures Readable(TWO_LINK_APP) && LinksAcceptable(TWO_LINK_APP)
    ensures Links(TWO_LINK_APP) == map["/x" := "f", "//x" := "f"]
  {
    ShortLinks();
    SplitNoSlash("f");
    assert SourcePieces("f") == ["f"];
    assert ["f"][1..] == [];
    assert Lookup(TWO_LINK_APP, ["f"]).Some?;
    hide AcceptableLink;
  }

  /** Dropping one of two spellings of a path, both to the same file, strands the link: both commits are valid. */
  lemma SpellingDropped(appsDir: Path)
    ensures var oldApps, newApps := map["a" := TWO_LINK_APP], map["a" := OneLinkApp("/x")];
            && ValidHost(oldApps) && ValidHost(newApps)
            && AllAgree(appsDir, oldApps) && AllAgree(appsDir, newApps)
            && Stranded(oldApps, newApps, ["/", "x"])
  {
    hide OneLinkApp, Links, ToPath, TWO_LINK_APP, ValidHost, AllAgree, Stranded;
    SpellingsValid();
    TwoSpellings();
    var oldApps, newApps := map["a" := TWO_LINK_APP], map["a" := OneLinkApp("/x")];
    OneFile(appsDir, oldApps);
    OneFile(appsDir, newApps);
    assert "/x" != "//x" by { assert |"/x"| != |"//x"|; }
    OneSpellingLeft(oldApps, newApps, "/x", "//x", ["/", "x"]);
  }

  lemma SpellingsValid()
    ensures ValidHost(map["a" := TWO_LINK_APP]) && ValidHost(map["a" := OneLinkApp("/x")])
    ensures Links(TWO_LINK_APP) == map["/x" := "f", "//x" := "f"] && Links(OneLinkApp("/x")) == map["/x" := "f"]
  {
    ShortLinks();
    OneLinkAppValid("/x");
    TwoLinkAppValid();
    hide OneLinkApp, Readable, LinksAcceptable, Files, Links, AcceptableLink, TWO_LINK_APP, ValidHost;
    OneAppValid(TWO_LINK_APP);
    OneAppValid(OneLinkApp("/x"));
  }

  /** One app that declares a path by two strings, and then by one of them. */
  lemma OneSpellingLeft(oldApps: Apps, newApps: Apps, kept: string, dropped: string, link: Path)
    requires oldApps.Keys == newApps.Keys == {"a"} && kept != dropped && ToPath(kept) == ToPath(dropped) == link
    requires Links(oldApps["a"]) == map[kept := "f", dropped := "f"] && Links(newApps["a"]) == map[kept := "f"]
    ensures Stranded(oldApps, newApps, link)
  {
    hide Links, ToPath;
    assert Declares(newApps, "a", kept, link) && Declares(oldApps, "a", kept, link);
    assert Declares(oldApps, "a", dropped, link) && !Declares(newApps, "a", dropped, link);
  }

  lemma OneAppValid(t: Tree)
    requires Readable(t) && LinksAcceptable(t)
    ensures ValidHost(map["a" := t])
  {
    hide Readable, LinksAcceptable, Files, Links;
  }

  lemma OneFile(appsDir: Path, apps: Apps)
    requires apps.Keys == {"a"} && forall l :: l in Links(apps["a"]) ==> Links(apps["a"])[l] == "f"
    ensures AllAgree(appsDir, apps)
  {
    hide Links, ToPath;
  }

  // ----- The incremental link changes agree with the from-scratch links -----

  function PutAll(m: map<Path, Path>, pairs: seq<(Path, Path)>): map<Path, Path>
    decreases |pairs|
  {
    if pairs == [] then m else PutAll(m[pairs[0].0 := pairs[0].1], pairs[1..])
  }

  /** Removes, then changes, then creates. */
  ghost function ApplyLinks(m: map<Path, Path>, c: SymlinkChanges<Path>): map<Path, Path> {
    PutAll(PutAll(m - SetOf(c.remove), c.change), c.create)
  }

  ghost predicate Functional(pairs: seq<(Path, Path)>) {
    forall x, y :: x in pairs && y in pairs && x.0 == y.0 ==> x == y
  }

  lemma {:induction false} PutAllAt(m: map<Path, Path>, pairs: seq<(Path, Path)>, link: Path)
    requires Functional(pairs)
    ensures link in PutAll(m, pairs) <==> link in m || exists src :: (link, src) in pairs
    ensures forall src :: (link, src) in pairs ==> PutAll(m, pairs)[link] == src
    ensures (link in m && !exists src :: (link, src) in pairs) ==> PutAll(m, pairs)[link] == m[link]
    decreases |pairs|
  {
    if pairs != [] {
      var rest := pairs[1..];
      forall x ensures x in pairs <==> x == pairs[0] || x in rest {
        assert pairs == [pairs[0]] + rest;
      }
      PutAllAt(m[pairs[0].0 := pairs[0].1], rest, link);
      assert (pairs[0].0, pairs[0].1) == pairs[0];
    }
  }

  /** `a` changes, and declares `link` on one side under the string `l`. */
  ghost predicate ChangeDeclares(diffs: map<Name, AppDiff>, apps: Apps, a: Name, l: string, link: Path) {
    a in diffs && Declares(apps, a, l, link)
  }

  lemma CreatePairs(oldApps: Apps, newApps: Apps, diffs: map<Name, AppDiff>, appsDir: Path, c: SymlinkChanges<Path>,
                    p: (Path, Path))
    requires IsAppDiffs(oldApps, newApps, diffs) && AggregatesLinks(c, appsDir, diffs)
    ensures p in c.create <==> exists a, l ::
              && ChangeDeclares(diffs, newApps, a, l, p.0) && !Declares(oldApps, a, l, p.0)
              && p.1 == LinkSource(appsDir, a, newApps[a], l)
  {
    hide ToPath;
    DiffSides(oldApps, newApps, diffs);
    assert p in c.create <==> p in SetOf(c.create);
    if p in c.create {
      var a :| a in diffs && p in CreatedLinks(appsDir, a, diffs[a]);
      var q :| q in Created(Links(diffs[a].Before()), Links(diffs[a].After()))
               && p == (ToPath(q.0), Joined(CurrentDir(appsDir, a), ToPath(q.1)));
      assert ChangeDeclares(diffs, newApps, a, q.0, p.0);
    }
    forall a, l | && ChangeDeclares(diffs, newApps, a, l, p.0) && !Declares(oldApps, a, l, p.0)
                  && p.1 == LinkSource(appsDir, a, newApps[a], l)
      ensures p in c.create
    {
      assert (l, Links(newApps[a])[l]) in Created(Links(diffs[a].Before()), Links(diffs[a].After()));
      assert p in CreatedLinks(appsDir, a, diffs[a]);
    }
  }

  lemma ChangePairs(oldApps: Apps, newApps: Apps, diffs: map<Name, AppDiff>, appsDir: Path, c: SymlinkChanges<Path>,
                    p: (Path, Path))
    requires IsAppDiffs(oldApps, newApps, diffs) && AggregatesLinks(c, appsDir, diffs)
    ensures p in c.change <==> exists a, l ::
              && ChangeDeclares(diffs, newApps, a, l, p.0) && Declares(oldApps, a, l, p.0)
              && Links(oldApps[a])[l] != Links(newApps[a])[l]
              && p.1 == LinkSource(appsDir, a, newApps[a], l)
  {
    hide ToPath;
    DiffSides(oldApps, newApps, diffs);
    assert p in c.change <==> p in SetOf(c.change);
    if p in c.change {
      var a :| a in diffs && p in ChangedLinks(appsDir, a, diffs[a]);
      var q :| q in Changed(Links(diffs[a].Before()), Links(diffs[a].After()))
               && p == (ToPath(q.0), Joined(CurrentDir(appsDir, a), ToPath(q.1)));
      assert ChangeDeclares(diffs, newApps, a, q.0, p.0);
    }
    forall a, l | && ChangeDeclares(diffs, newApps, a, l, p.0) && Declares(oldApps, a, l, p.0)
                  && Links(oldApps[a])[l] != Links(newApps[a])[l]
                  && p.1 == LinkSource(appsDir, a, newApps[a], l)
      ensures p in c.change
    {
      assert (l, Links(newApps[a])[l]) in Changed(Links(diffs[a].Before()), Links(diffs[a].After()));
      assert p in ChangedLinks(appsDir, a, diffs[a]);
    }
  }

  lemma RemovePaths(oldApps: Apps, newApps: Apps, diffs: map<Name, AppDiff>, appsDir: Path, c: SymlinkChanges<Path>,
                    link: Path)
    requires IsAppDiffs(oldApps, newApps, diffs) && AggregatesLinks(c, appsDir, diffs)
    ensures link in c.remove <==>
              exists a, l :: ChangeDeclares(diffs, oldApps, a, l, link) && !Declares(newApps, a, l, link)
  {
    hide ToPath;
    DiffSides(oldApps, newApps, diffs);
    assert link in c.remove <==> link in SetOf(c.remove);
    if link in c.remove {
      var a :| a in diffs && link in RemovedLinks(diffs[a]);
      var l :| l in Removed(Links(diffs[a].Before()), Links(diffs[a].After())) && link == ToPath(l);
      assert ChangeDeclares(diffs, oldApps, a, l, link);
    }
    forall a, l | ChangeDeclares(diffs, oldApps, a, l, link) && !Declares(newApps, a, l, link)
      ensures link in c.remove
    {
      assert l in Removed(Links(diffs[a].Before()), Links(diffs[a].After()));
      assert link in RemovedLinks(diffs[a]);
    }
  }

  /** The lists have at most one source for a link. */
  lemma AgreeingFunctional(oldApps: Apps, newApps: Apps, diffs: map<Name, AppDiff>, appsDir: Path,
                           c: SymlinkChanges<Path>)
    requires IsAppDiffs(oldApps, newApps, diffs) && AggregatesLinks(c, appsDir, diffs)
    requires AllAgree(appsDir, newApps)
    ensures Functional(c.change) && Functional(c.create)
  {
    hide AggregatesLinks, IsAppDiffs, LinkSource, Declares;
    forall x, y | x in c.create && y in c.create && x.0 == y.0 ensures x == y {
      CreatePairs(oldApps, newApps, diffs, appsDir, c, x);
      CreatePairs(oldApps, newApps, diffs, appsDir, c, y);
      assert SourcesAgree(appsDir, newApps, x.0);
    }
    forall x, y | x in c.change && y in c.change && x.0 == y.0 ensures x == y {
      ChangePairs(oldApps, newApps, diffs, appsDir, c, x);
      ChangePairs(oldApps, newApps, diffs, appsDir, c, y);
      assert SourcesAgree(appsDir, newApps, x.0);
    }
  }

  ghost predicate KeptAsIs(oldApps: Apps, newApps: Apps, a: Name, l: string, link: Path)
    requires Declares(newApps, a, l, link)
  {
    Declares(oldApps, a, l, link) && Links(oldApps[a])[l] == Links(newApps[a])[l]
  }

  /**
    The path keeps some of its declarations, unchanged, and loses others: a
    remove takes the link away, and no change or create puts it back.
   */
  ghost predicate Stranded(oldApps: Apps, newApps: Apps, link: Path) {
    && (exists a, l :: Declares(newApps, a, l, link))
    && (forall a, l :: Declares(newApps, a, l, link) ==> KeptAsIs(oldApps, newApps, a, l, link))
    && (exists a, l :: Declares(oldApps, a, l, link) && !Declares(newApps, a, l, link))
  }

  ghost predicate NoneIsStranded(oldApps: Apps, newApps: Apps) {
    forall link :: !Stranded(oldApps, newApps, link)
  }

  /** Only a commit that declares a path twice can strand it. */
  lemma DistinctNotStranded(oldApps: Apps, newApps: Apps)
    requires LinksDistinct(oldApps)
    ensures NoneIsStranded(oldApps, newApps)
  {
    hide Links, ToPath;
  }

  /** From any from-scratch links of the old commit, the changes lead to every from-scratch result for the new one. */
  ghost predicate Converges(oldApps: Apps, newApps: Apps, appsDir: Path, c: SymlinkChanges<Path>) {
    forall before, after :: IsDesiredLinks(before, appsDir, oldApps) && IsDesiredLinks(after, appsDir, newApps) ==>
      ApplyLinks(before, c) == after
  }

  /**
    The link changes of changed apps only, run on the old links, give the new
    links exactly when the new declarations of each path agree on its source
    and no path is stranded.
   */
  lemma {:induction false} LinkChangesConverge(oldApps: Apps, newApps: Apps, diffs: map<Name, AppDiff>, appsDir: Path,
                                               c: SymlinkChanges<Path>)
    requires IsAppDiffs(oldApps, newApps, diffs) && AggregatesLinks(c, appsDir, diffs)
    ensures Converges(oldApps, newApps, appsDir, c)
            <==> AllAgree(appsDir, newApps) && NoneIsStranded(oldApps, newApps)
  {
    hide IsAppDiffs, AggregatesLinks, Converges, SourcesAgree, Stranded;
    if Converges(oldApps, newApps, appsDir, c) {
      ConvergingAgree(oldApps, newApps, diffs, appsDir, c);
      NoneStranded(oldApps, newApps, diffs, appsDir, c);
    }
    if AllAgree(appsDir, newApps) && NoneIsStranded(oldApps, newApps) {
      AllConverge(oldApps, newApps, diffs, appsDir, c);
    }
  }

  ghost predicate SameLink(x: map<Path, Path>, y: map<Path, Path>, link: Path) {
    (link in x <==> link in y) && (link in y ==> x[link] == y[link])
  }

  lemma AllConverge(oldApps: Apps, newApps: Apps, diffs: map<Name, AppDiff>, appsDir: Path, c: SymlinkChanges<Path>)
    requires IsAppDiffs(oldApps, newApps, diffs) && AggregatesLinks(c, appsDir, diffs)
    requires AllAgree(appsDir, newApps) && NoneIsStranded(oldApps, newApps)
    ensures Converges(oldApps, newApps, appsDir, c)
  {
    hide IsAppDiffs, AggregatesLinks, SourcesAgree, Stranded, IsDesiredLinks, Functional, ApplyLinks;
    AgreeingFunctional(oldApps, newApps, diffs, appsDir, c);
    forall before, after | IsDesiredLinks(before, appsDir, oldApps) && IsDesiredLinks(after, appsDir, newApps)
      ensures ApplyLinks(before, c) == after
    {
      var result := ApplyLinks(before, c);
      forall link ensures (link in result <==> link in after) && (link in after ==> result[link] == after[link]) {
        assert !Stranded(oldApps, newApps, link);
        LinkConverges(oldApps, newApps, diffs, appsDir, c, before, after, link);
        assert SameLink(result, after, link);
      }
    }
  }

  /** With two results from scratch, the changes miss one of them. */
  lemma ConvergingAgree(oldApps: Apps, newApps: Apps, diffs: map<Name, AppDiff>, appsDir: Path, c: SymlinkChanges<Path>)
    requires IsAppDiffs(oldApps, newApps, diffs) && AggregatesLinks(c, appsDir, diffs)
    requires Converges(oldApps, newApps, appsDir, c)
    ensures AllAgree(appsDir, newApps)
  {
    hide IsAppDiffs, AggregatesLinks, ToPath, Links, LinkSource, LinksOf, ApplyLinks;
    var before, after := LinksOf(appsDir, oldApps), LinksOf(appsDir, newApps);
    LinksOfDesired(appsDir, oldApps);
    LinksOfDesired(appsDir, newApps);
    hide IsDesiredLinks;
    forall link, a, l | Declares(newApps, a, l, link)
      ensures link in after && after[link] == LinkSource(appsDir, a, newApps[a], l)
    {
      OtherSource(after, appsDir, newApps, a, l, link);
      assert ApplyLinks(before, c) == after;
      assert ApplyLinks(before, c) == after[link := LinkSource(appsDir, a, newApps[a], l)];
    }
  }

  lemma NoneStranded(oldApps: Apps, newApps: Apps, diffs: map<Name, AppDiff>, appsDir: Path, c: SymlinkChanges<Path>)
    requires IsAppDiffs(oldApps, newApps, diffs) && AggregatesLinks(c, appsDir, diffs)
    requires Converges(oldApps, newApps, appsDir, c)
    requires AllAgree(appsDir, newApps)
    ensures forall link :: !Stranded(oldApps, newApps, link)
  {
    hide IsAppDiffs, AggregatesLinks, SourcesAgree, Stranded, IsDesiredLinks, LinksOf, Functional, ApplyLinks;
    AgreeingFunctional(oldApps, newApps, diffs, appsDir, c);
    LinksOfDesired(appsDir, oldApps);
    LinksOfDesired(appsDir, newApps);
    var before, after := LinksOf(appsDir, oldApps), LinksOf(appsDir, newApps);
    assert ApplyLinks(before, c) == after;
    forall link ensures !Stranded(oldApps, newApps, link) {
      assert SourcesAgree(appsDir, newApps, link);
      LinkConverges(oldApps, newApps, diffs, appsDir, c, before, after, link);
    }
  }

  /** One path comes out as from scratch, unless it is stranded. */
  lemma LinkConverges(oldApps: Apps, newApps: Apps, diffs: map<Name, AppDiff>, appsDir: Path,
                      c: SymlinkChanges<Path>, before: map<Path, Path>, after: map<Path, Path>, link: Path)
    requires IsAppDiffs(oldApps, newApps, diffs) && AggregatesLinks(c, appsDir, diffs)
    requires AllAgree(appsDir, newApps)
    requires IsDesiredLinks(before, appsDir, oldApps) && IsDesiredLinks(after, appsDir, newApps)
    requires Functional(c.change) && Functional(c.create)
    ensures SameLink(ApplyLinks(before, c), after, link) <==> !Stranded(oldApps, newApps, link)
  {
    hide LinkSource, ToPath, Links, AggregatesLinks, IsAppDiffs, ApplyLinks, Functional, SourcesAgree, IsDesiredLinks;
    ResultAt(before, c, link);
    DeclaredAt(before, appsDir, oldApps, link);
    DeclaredAt(after, appsDir, newApps, link);
    if link !in after {
      UndeclaredLink(oldApps, newApps, diffs, appsDir, c, link);
    } else if a, l :| Declares(newApps, a, l, link) && !KeptAsIs(oldApps, newApps, a, l, link) {
      MovedLink(oldApps, newApps, diffs, appsDir, c, a, l, link);
      AgreeingAreKept(after, appsDir, newApps);
      KeptAt(after, appsDir, newApps, a, l, link);
    } else {
      QuietLink(oldApps, newApps, diffs, appsDir, c, link);
      if link !in c.remove {
        QuietSource(oldApps, newApps, appsDir, before, after, link);
      }
    }
  }

  lemma DeclaredAt(m: map<Path, Path>, appsDir: Path, apps: Apps, link: Path)
    requires IsDesiredLinks(m, appsDir, apps)
    ensures link in m <==> exists a, l :: Declares(apps, a, l, link)
  {
  }

  lemma QuietSource(oldApps: Apps, newApps: Apps, appsDir: Path, before: map<Path, Path>, after: map<Path, Path>,
                    link: Path)
    requires IsDesiredLinks(before, appsDir, oldApps) && IsDesiredLinks(after, appsDir, newApps)
    requires SourcesAgree(appsDir, newApps, link) && link in before && link in after
    requires forall a, l :: Declares(newApps, a, l, link) ==> KeptAsIs(oldApps, newApps, a, l, link)
    requires forall a, l :: Declares(oldApps, a, l, link) ==> Declares(newApps, a, l, link)
    ensures before[link] == after[link]
  {
    hide ToPath, Links;
    var a, l :| Declares(oldApps, a, l, link) && before[link] == LinkSource(appsDir, a, oldApps[a], l);
    var b, k :| Declares(newApps, b, k, link) && after[link] == LinkSource(appsDir, b, newApps[b], k);
    assert KeptAsIs(oldApps, newApps, a, l, link);
  }

  lemma ResultAt(m: map<Path, Path>, c: SymlinkChanges<Path>, link: Path)
    requires Functional(c.change) && Functional(c.create)
    ensures var r := ApplyLinks(m, c);
            && (link in r <==>
                  || (link in m && link !in c.remove)
                  || (exists s :: (link, s) in c.change) || exists s :: (link, s) in c.create)
            && (forall s :: (link, s) in c.create ==> r[link] == s)
            && ((forall s :: (link, s) !in c.create) ==> forall s :: (link, s) in c.change ==> r[link] == s)
            && ((forall s :: (link, s) !in c.create && (link, s) !in c.change) && link in r ==> r[link] == m[link])
  {
    hide PutAll, Functional;
    var kept := m - SetOf(c.remove);
    PutAllAt(kept, c.change, link);
    PutAllAt(PutAll(kept, c.change), c.create, link);
    assert link in c.remove <==> link in SetOf(c.remove);
  }

  /** A declaration that is new or has a new source string puts the link in place. */
  lemma MovedLink(oldApps: Apps, newApps: Apps, diffs: map<Name, AppDiff>, appsDir: Path, c: SymlinkChanges<Path>,
                  a: Name, l: string, link: Path)
    requires IsAppDiffs(oldApps, newApps, diffs) && AggregatesLinks(c, appsDir, diffs)
    requires Declares(newApps, a, l, link) && !KeptAsIs(oldApps, newApps, a, l, link)
    requires AllAgree(appsDir, newApps)
    ensures var src := LinkSource(appsDir, a, newApps[a], l);
            && ((link, src) in c.create || (link, src) in c.change)
            && (forall s :: (link, s) in c.create ==> s == src)
  {
    hide AggregatesLinks, IsAppDiffs, ToPath, LinkSource;
    var src := LinkSource(appsDir, a, newApps[a], l);
    assert ChangeDeclares(diffs, newApps, a, l, link) by { ChangesIt(oldApps, newApps, diffs, a, l, link); }
    CreatePairs(oldApps, newApps, diffs, appsDir, c, (link, src));
    ChangePairs(oldApps, newApps, diffs, appsDir, c, (link, src));
    forall s | (link, s) in c.create ensures s == src {
      CreatePairs(oldApps, newApps, diffs, appsDir, c, (link, s));
      assert SourcesAgree(appsDir, newApps, link);
    }
  }

  lemma ChangesIt(oldApps: Apps, newApps: Apps, diffs: map<Name, AppDiff>, a: Name, l: string, link: Path)
    requires IsAppDiffs(oldApps, newApps, diffs) && Declares(newApps, a, l, link)
    requires !KeptAsIs(oldApps, newApps, a, l, link)
    ensures a in diffs
  {
    hide ToPath, Links;
    assert a in diffs <==> Differs(oldApps, newApps, a);
  }

  /** With every declaration of the new commit unchanged, the link can only be removed. */
  lemma QuietLink(oldApps: Apps, newApps: Apps, diffs: map<Name, AppDiff>, appsDir: Path, c: SymlinkChanges<Path>,
                  link: Path)
    requires IsAppDiffs(oldApps, newApps, diffs) && AggregatesLinks(c, appsDir, diffs)
    requires forall a, l :: Declares(newApps, a, l, link) ==> KeptAsIs(oldApps, newApps, a, l, link)
    ensures forall s :: (link, s) !in c.create && (link, s) !in c.change
    ensures link in c.remove <==> exists a, l :: Declares(oldApps, a, l, link) && !Declares(newApps, a, l, link)
  {
    hide AggregatesLinks, ToPath, LinkSource, Links;
    RemovePaths(oldApps, newApps, diffs, appsDir, c, link);
    forall s ensures (link, s) !in c.create && (link, s) !in c.change {
      CreatePairs(oldApps, newApps, diffs, appsDir, c, (link, s));
      ChangePairs(oldApps, newApps, diffs, appsDir, c, (link, s));
    }
    forall a, l | Declares(oldApps, a, l, link) && !Declares(newApps, a, l, link)
      ensures ChangeDeclares(diffs, oldApps, a, l, link)
    {
      assert a in diffs <==> Differs(oldApps, newApps, a);
    }
  }

  /** A link that the new commit does not declare is removed if it was there, and not put back. */
  lemma UndeclaredLink(oldApps: Apps, newApps: Apps, diffs: map<Name, AppDiff>, appsDir: Path, c: SymlinkChanges<Path>,
                       link: Path)
    requires IsAppDiffs(oldApps, newApps, diffs) && AggregatesLinks(c, appsDir, diffs)
    requires !exists a, l :: Declares(newApps, a, l, link)
    ensures forall s :: (link, s) !in c.create && (link, s) !in c.change
    ensures (exists a, l :: Declares(oldApps, a, l, link)) ==> link in c.remove
  {
    forall s ensures (link, s) !in c.create && (link, s) !in c.change {
      CreatePairs(oldApps, newApps, diffs, appsDir, c, (link, s));
      ChangePairs(oldApps, newApps, diffs, appsDir, c, (link, s));
    }
    if exists a, l :: Declares(oldApps, a, l, link) {
      var a, l :| Declares(oldApps, a, l, link);
      assert !Declares(newApps, a, l, link);
      assert a in diffs <==> Differs(oldApps, newApps, a);
      assert ChangeDeclares(diffs, oldApps, a, l, link);
      RemovePaths(oldApps, newApps, diffs, appsDir, c, link);
    }
  }
}
