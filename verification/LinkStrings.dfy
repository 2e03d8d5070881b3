/**
  Validation tests link targets as strings, the host resolves them as paths.
  For strings that spell their path plainly the two agree; others pass
  validation and then meet a managed directory, or each other.
 */
module LinkStrings {
  import opened Wrappers
  import opened Paths
  import opened Trees
  import opened Plan
  import opened Desired
  import opened Filesystem
  import opened ManagedLinks
  import opened ManifestLinks
  import opened HostState
  import opened Recovery

  /** The directories that the agent manages. */
  const MANAGED: Roots := Roots(["/", "etc", "systemd", "network"], ["/", "etc", "containers", "systemd"],
                                ["/", "etc", "sysusers.d"], ["/", "etc", "systemd", "system"])

  /** Absolute, without repeated or trailing slashes and without "." pieces. */
  predicate Plain(link: string) {
    var pieces := SplitSlash(link);
    |pieces| > 1 && pieces[0] == "" && ProperPath(pieces[1..])
  }

  /** A managed directory, or above one. */
  predicate AtOrAbove(link: string) {
    exists dir :: dir in MANAGED_ROOTS && (link == dir || link + "/" <= dir)
  }

  ghost predicate AllPlain(apps: Apps) {
    forall a, l :: a in apps && l in Links(apps[a]) ==> Plain(l)
  }

  lemma PlainPath(l: string)
    requires Plain(l)
    ensures var p := SplitSlash(l)[1..];
            p != [] && ProperPath(p) && l == "/" + JoinPath(p) && ToPath(l) == [ROOT] + p && "/" <= l
  {
    var pieces := SplitSlash(l);
    JoinOfSplit(l);
    DropEmptyOfProper(pieces[1..]);
    assert DropEmpty(pieces) == DropEmpty(pieces[1..]);
  }

  function DirOf(s: Name): string
    requires s in SUBDIRS
  {
    if s == NETWORKD then "/etc/systemd/network"
    else if s == QUADLETS then "/etc/containers/systemd"
    else if s == SYSUSERS then "/etc/sysusers.d"
    else "/etc/systemd/system"
  }

  lemma DirsOf()
    ensures forall dir :: dir in MANAGED_ROOTS <==> exists s :: s in SUBDIRS && dir == DirOf(s)
  {
    assert forall s :: s in SUBDIRS ==> DirOf(s) in MANAGED_ROOTS;
    assert NETWORKD in SUBDIRS && QUADLETS in SUBDIRS && SYSUSERS in SUBDIRS && UNITS in SUBDIRS;
    forall dir | dir in MANAGED_ROOTS ensures exists s :: s in SUBDIRS && dir == DirOf(s) {
      assert dir == DirOf(NETWORKD) || dir == DirOf(QUADLETS) || dir == DirOf(SYSUSERS) || dir == DirOf(UNITS);
    }
  }

  lemma Spelled()
    ensures "/etc/systemd/network" == "/" + (("etc" + "/") + (("systemd" + "/") + "network"))
    ensures "/etc/containers/systemd" == "/" + (("etc" + "/") + (("containers" + "/") + "systemd"))
    ensures "/etc/sysusers.d" == "/" + (("etc" + "/") + "sysusers.d")
    ensures "/etc/systemd/system" == "/" + (("etc" + "/") + (("systemd" + "/") + "system"))
  {
  }

  /** The string and the path of a managed directory. */
  lemma DirPath(s: Name) returns (q: Path)
    requires s in SUBDIRS
    ensures q != [] && ProperPath(q) && MANAGED.Of(s) == [ROOT] + q && DirOf(s) == "/" + JoinPath(q)
  {
    q := MANAGED.Of(s)[1..];
    DirProper(s);
    hide ProperPath;
    Spelled();
    if s == NETWORKD {
      JoinThree("etc", "systemd", "network");
    } else if s == QUADLETS {
      JoinThree("etc", "containers", "systemd");
    } else if s == SYSUSERS {
      assert q == ["etc", "sysusers.d"] && q[1..] == ["sysusers.d"];
    } else {
      JoinThree("etc", "systemd", "system");
    }
  }

  lemma DirProper(s: Name)
    requires s in SUBDIRS
    ensures MANAGED.Of(s)[0] == ROOT && ProperPath(MANAGED.Of(s)[1..])
  {
  }

  lemma JoinThree(a: Name, b: Name, c: Name)
    ensures JoinPath([a, b, c]) == (a + "/") + ((b + "/") + c)
  {
    assert [a, b, c][1..] == [b, c] && [b, c][1..] == [c];
    assert JoinPath([c]) == c && JoinPath([b, c]) == (b + "/") + c;
  }

  /** A plainly spelled target starts with a managed directory and a slash exactly when it is inside that directory. */
  lemma PlainInside(l: string, s: Name)
    requires Plain(l) && s in SUBDIRS
    ensures DirOf(s) + "/" <= l <==> MANAGED.Of(s) < ToPath(l)
  {
    PlainPath(l);
    var p := SplitSlash(l)[1..];
    var q := DirPath(s);
    hide Plain, ToPath, DirOf, JoinPath, SplitSlash, ProperPath;
    BelowByString(q, p);
    SlashFirst(JoinPath(q) + "/", JoinPath(p));
    assert ("/" + JoinPath(q)) + "/" == "/" + (JoinPath(q) + "/");
    RootFirst(q, p);
  }

  lemma PlainAbove(l: string, s: Name)
    requires Plain(l) && s in SUBDIRS
    ensures l == DirOf(s) || l + "/" <= DirOf(s) <==> ToPath(l) <= MANAGED.Of(s)
  {
    PlainPath(l);
    var p := SplitSlash(l)[1..];
    var q := DirPath(s);
    hide Plain, ToPath, DirOf, JoinPath, SplitSlash, ProperPath;
    BelowByString(p, q);
    SlashFirst(JoinPath(p) + "/", JoinPath(q));
    assert l + "/" == "/" + (JoinPath(p) + "/");
    RootFirst(p, q);
    assert p <= q <==> p == q || p < q;
    if l == DirOf(s) {
      assert l[1..] == JoinPath(p) && l[1..] == JoinPath(q);
      JoinInjective(p, q);
    }
  }

  /** It is accepted exactly when its path is not inside a managed directory. */
  lemma {:induction false} PlainOutside(l: string)
    requires Plain(l)
    ensures AcceptableLink(l) <==> Outside(MANAGED, ToPath(l))
  {
    PlainPath(l);
    DirsOf();
    hide Plain, ToPath, DirOf, JoinPath, SplitSlash, ProperPath, MANAGED_ROOTS;
    forall s | s in SUBDIRS ensures DirOf(s) + "/" <= l <==> MANAGED.Of(s) < ToPath(l) {
      PlainInside(l, s);
    }
  }

  /** And it is at or above a managed directory as a string exactly when it is as a path. */
  lemma {:induction false} PlainLeading(l: string)
    requires Plain(l)
    ensures AtOrAbove(l) <==> Leading(MANAGED, ToPath(l))
  {
    DirsOf();
    hide Plain, ToPath, DirOf, MANAGED_ROOTS, SUBDIRS, Roots.Of;
    if AtOrAbove(l) {
      var dir :| dir in MANAGED_ROOTS && (l == dir || l + "/" <= dir);
      var s :| s in SUBDIRS && dir == DirOf(s);
      PlainAbove(l, s);
    }
    if Leading(MANAGED, ToPath(l)) {
      var s :| s in SUBDIRS && ToPath(l) <= MANAGED.Of(s);
      PlainAbove(l, s);
      assert DirOf(s) in MANAGED_ROOTS;
    }
  }

  lemma SlashFirst(x: string, y: string)
    ensures "/" + x <= "/" + y <==> x <= y
  {
    assert ("/" + x)[1..] == x && ("/" + y)[1..] == y;
    if "/" + x <= "/" + y {
      assert ("/" + y)[..|x| + 1][1..] == y[..|x|];
    }
  }

  lemma RootFirst(q: Path, p: Path)
    ensures [ROOT] + q < [ROOT] + p <==> q < p
    ensures [ROOT] + q <= [ROOT] + p <==> q <= p
  {
    assert ([ROOT] + q)[1..] == q && ([ROOT] + p)[1..] == p;
    if [ROOT] + q <= [ROOT] + p {
      assert ([ROOT] + p)[..|q| + 1][1..] == p[..|q|];
    }
  }

  lemma PlainDistinct(apps: Apps)
    requires ValidHost(apps) && AllPlain(apps)
    ensures LinksDistinct(apps)
  {
    hide Plain, Links, ToPath, AcceptableLink, Readable, LinksAcceptable;
    forall a, l, b, k, link | Declares(apps, a, l, link) && Declares(apps, b, k, link) ensures a == b && l == k {
      PlainPath(l);
      PlainPath(k);
      assert SplitSlash(l)[1..] == ToPath(l)[1..] && SplitSlash(k)[1..] == ToPath(k)[1..];
      assert l == k;
    }
  }

  /** With plainly spelled targets, a valid host has distinct links, none of them inside a managed directory. */
  lemma {:induction false} PlainLinksPlaced(appsDir: Path, apps: Apps)
    requires ValidHost(apps) && AllPlain(apps)
    ensures LinksDistinct(apps) && LinksPlaced(Place(appsDir, MANAGED), apps)
  {
    PlainDistinct(apps);
    DistinctAgree(appsDir, apps);
    hide Plain, Links, ToPath, Outside, SourcesAgree, LinksDistinct, ValidHost, MANAGED;
    forall a, l, link | Declares(apps, a, l, link) ensures Outside(MANAGED, link) {
      ValidLink(apps, a, l);
      PlainOutside(l);
    }
  }

  lemma ValidLink(apps: Apps, a: Name, l: string)
    requires ValidHost(apps) && a in apps && l in Links(apps[a])
    ensures AcceptableLink(l)
  {
    hide AcceptableLink, Links, Readable, NothingShared;
    assert LinksAcceptable(apps[a]);
  }

  // ----- Other spellings -----

  lemma ExtraSlash(l: string)
    requires "/" <= l
    ensures ToPath("/" + l) == ToPath(l)
  {
    SplitAtSlash("", l);
    assert "" + "/" + l == "/" + l;
    assert DropEmpty([""] + SplitSlash(l)) == DropEmpty(SplitSlash(l))
      by { assert ([""] + SplitSlash(l))[1..] == SplitSlash(l); }
  }

  /** Accepted are exactly the absolute paths whose strings do not continue a managed directory's. */
  lemma {:induction false} AcceptedTargets(link: string)
    ensures AcceptableLink(link) <==>
              && ToPath(link) != [] && ToPath(link)[0] == ROOT
              && forall dir, rest :: dir in MANAGED_ROOTS ==> link != dir + "/" + rest
  {
    if !("/" <= link) {
      RelativePath(link);
    }
    hide ToPath;
    forall dir | dir in MANAGED_ROOTS && dir + "/" <= link ensures link == dir + "/" + link[|dir| + 1..] {
    }
    forall dir, rest | dir in MANAGED_ROOTS && link == dir + "/" + rest ensures dir + "/" <= link {
    }
  }

  /** Every path, also one inside a managed directory, has a spelling that validation accepts. */
  lemma {:induction false} EveryPathIsAccepted(l: string)
    requires Plain(l)
    ensures AcceptableLink("/" + l) && ToPath("/" + l) == ToPath(l)
  {
    PlainPath(l);
    ExtraSlash(l);
    forall dir | dir in MANAGED_ROOTS ensures !(dir + "/" <= "/" + l) {
      assert (dir + "/")[1] == 'e';
      assert ("/" + l)[1] == l[0] == '/';
    }
  }

  lemma OneLinkHost(l: string)
    requires AcceptableLink(l)
    ensures ValidHost(map["a" := OneLinkApp(l)])
    ensures Declares(map["a" := OneLinkApp(l)], "a", l, ToPath(l))
    ensures forall s :: s in SUBDIRS ==> Files(OneLinkApp(l), s) == {}
  {
    OneLinkAppValid(l);
    hide OneLinkApp, Readable, LinksAcceptable, Files, Links, ToPath, AcceptableLink;
  }

  /**
    On a host whose manifest links and managed directories are both as a commit
    asks, a link inside a managed directory is there under the name of a file
    that some app links there anyway.
   */
  lemma {:induction false} LinkInside(fs: Fs, appsDir: Path, roots: Roots, apps: Apps, d: DesiredState, a: Name,
                                      l: string, s: Name)
    requires ValidHost(apps) && s in SUBDIRS && a in apps && l in Links(apps[a]) && roots.Of(s) < ToPath(l)
    requires IsDesiredState(d, appsDir, apps) && LinksAre(fs, appsDir, apps) && ManagedAre(fs, appsDir, roots, d)
    ensures exists b :: b in apps && ToPath(l)[|roots.Of(s)|..] in Files(apps[b], s)
  {
    var root, link := roots.Of(s), ToPath(l);
    var n := link[|root|..];
    assert link == root + n && n != [];
    assert Declares(apps, a, l, link);
    DeclaredIsManaged(fs, appsDir, apps, a, l, link);
    ManagedAt(fs, appsDir, root, n);
    hide Links, ToPath, Files, LinksOf, Managed, LinksAre, IsManaged, Declares, ValidHost;
    assert Managed(fs, appsDir, root) == d.Of(s);
    assert IsDesiredSubdir(d.Of(s), appsDir, apps, s);
  }

  /** Manifest links look like managed ones: they go through `current`. */
  lemma DeclaredIsManaged(fs: Fs, appsDir: Path, apps: Apps, a: Name, l: string, link: Path)
    requires Declares(apps, a, l, link) && LinksAre(fs, appsDir, apps) && ValidHost(apps)
    ensures IsManaged(fs, appsDir, link)
  {
    LinksOfDesired(appsDir, apps);
    hide Links, ToPath, LinksOf, ValidHost;
    var links := LinksOf(appsDir, apps);
    var b, k :| Declares(apps, b, k, link) && links[link] == LinkSource(appsDir, b, apps[b], k);
    ValidSource(appsDir, apps, b, k);
  }

  /**
    So a host can be valid and yet have no state at all that is at its commit:
    for each path inside a managed directory there is one.
   */
  lemma {:induction false} ValidWithoutState(l: string, s: Name)
    requires Plain(l) && s in SUBDIRS && MANAGED.Of(s) < ToPath(l)
    ensures var apps := map["a" := OneLinkApp("/" + l)];
            && ValidHost(apps) && !LinksOutside(MANAGED, apps)
            && forall fs, appsDir, d :: IsDesiredState(d, appsDir, apps) && LinksAre(fs, appsDir, apps) ==>
                !ManagedAre(fs, appsDir, MANAGED, d)
  {
    var apps := map["a" := OneLinkApp("/" + l)];
    EveryPathIsAccepted(l);
    OneLinkHost("/" + l);
    hide ToPath, Plain, OneLinkApp, MANAGED, AcceptableLink, LinksAre, ManagedAre, IsDesiredState, ValidHost;
    assert !Outside(MANAGED, ToPath(l));
    forall fs, appsDir, d | IsDesiredState(d, appsDir, apps) && LinksAre(fs, appsDir, apps)
      ensures !ManagedAre(fs, appsDir, MANAGED, d)
    {
      if ManagedAre(fs, appsDir, MANAGED, d) {
        LinkInside(fs, appsDir, MANAGED, apps, d, "a", "/" + l, s);
      }
    }
  }

  /** Such paths are those of any name in a managed directory, and a second leading slash is enough. */
  lemma {:induction false} NameInside(s: Name, n: Name)
    requires s in SUBDIRS && ProperName(n)
    ensures var l := DirOf(s) + "/" + n;
            && Plain(l) && ToPath(l) == MANAGED.Of(s) + [n] && !AcceptableLink(l)
            && AcceptableLink("/" + l) && ToPath("/" + l) == MANAGED.Of(s) + [n]
  {
    var q := DirPath(s);
    var l, p := DirOf(s) + "/" + n, q + [n];
    assert ProperPath(p);
    JoinBelow(q, [n]);
    assert l == "/" + JoinPath(p) by { assert ("/" + JoinPath(q)) + "/" + n == "/" + (JoinPath(q) + "/" + n); }
    SplitOfJoin(p);
    SplitAtSlash("", JoinPath(p));
    hide SplitSlash, JoinPath, DirOf, AcceptableLink, ToPath;
    assert "" + "/" + JoinPath(p) == l && ([""] + p)[1..] == p;
    PlainPath(l);
    assert MANAGED.Of(s) + [n] == [ROOT] + p;
    EveryPathIsAccepted(l);
    PlainOutside(l);
  }

  /**
    A deploy never completes with a manifest link of its commit at or above a
    managed directory: reading the directory fails.
   */
  lemma {:induction false} LinkAbove(x: Snapshot, y: Snapshot, place: Place, oldApps: Apps, apps: Apps, ch: Change,
                                     p: Prefix, d: DesiredState, a: Name, l: string)
    requires IsChange(ch, place, oldApps, apps) && AtCommit(x, place, oldApps) && LinksPlaced(place, apps)
    requires NoneIsStranded(oldApps, apps)
    requires a in apps && l in Links(apps[a]) && Leading(place.roots, ToPath(l)) && ToPath(l) != []
    ensures !Deployed(x, y, place, ch, p, d)
  {
    if Deployed(x, y, place, ch, p, d) {
      DeployCompletes(x, y, place, oldApps, apps, ch, p, d);
      DeclaredThere(y.tree, place.appsDir, apps, a, l);
      var s :| s in SUBDIRS && ToPath(l) <= place.roots.Of(s);
      InPrefixes(place.roots.Of(s), ToPath(l));
      hide IsChange, AtCommit, LinksPlaced, NoneIsStranded, Links, ToPath, LinksRun, ManagedAreaOnly, ManagedAre;
      hide AppsDone;
    }
  }

  lemma DeclaredThere(fs: Fs, appsDir: Path, apps: Apps, a: Name, l: string)
    requires LinksAre(fs, appsDir, apps) && a in apps && l in Links(apps[a])
    ensures ToPath(l) in fs && fs[ToPath(l)].Link?
  {
    LinksOfDesired(appsDir, apps);
    hide Links, ToPath, LinksOf;
    assert Declares(apps, a, l, ToPath(l));
  }

  /** And validation accepts every plainly spelled target at or above a managed directory. */
  lemma {:induction false} ValidAtOrAbove(appsDir: Path, l: string)
    requires Plain(l) && AtOrAbove(l)
    ensures var apps := map["a" := OneLinkApp(l)];
            && ValidHost(apps) && LinksPlaced(Place(appsDir, MANAGED), apps)
            && Declares(apps, "a", l, ToPath(l)) && Leading(MANAGED, ToPath(l)) && ToPath(l) != []
  {
    PlainPath(l);
    PlainLeading(l);
    PlainOutside(l);
    RootsApart();
    hide Plain, ToPath, OneLinkApp, AcceptableLink, MANAGED, AtOrAbove, ValidHost, LinksPlaced, Outside, Roots.Valid;
    hide AllPlain;
    var s :| s in SUBDIRS && ToPath(l) <= MANAGED.Of(s);
    AboveIsOutside(MANAGED, s, ToPath(l));
    OneLinkHost(l);
    OneLinkPlain(l);
    PlainLinksPlaced(appsDir, map["a" := OneLinkApp(l)]);
  }

  lemma OneLinkPlain(l: string)
    requires AcceptableLink(l) && Plain(l)
    ensures AllPlain(map["a" := OneLinkApp(l)])
  {
    OneLinkAppValid(l);
    hide OneLinkApp, Links, Plain;
  }

  lemma RootsApart()
    ensures MANAGED.Valid()
  {
    var m := MANAGED;
    assert m.networkd[3][0] == 'n' && m.units[3][0] == 's';
    assert m.networkd[2][0] == m.units[2][0] == 's' && m.sysusers[2][0] == 's' && m.quadlets[2][0] == 'c';
    assert m.networkd[2][3] == m.units[2][3] == 't' && m.sysusers[2][3] == 'u';
  }
}
