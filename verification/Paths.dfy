/**
  Slash-separated paths. A path is the sequence of its components; an absolute
  path starts with the root component "/". This is how `std::path::Path`
  compares paths: repeated separators and inner "." components do not count.
 */
module Paths {

  type Name = string

  type Path = seq<Name>

  const ROOT: Name := "/"

  /** A name that a directory entry or a tree entry can have. */
  predicate ProperName(n: Name) {
    n != "" && n != "." && '/' !in n
  }

  predicate ProperPath(p: Path) {
    forall i :: 0 <= i < |p| ==> ProperName(p[i])
  }

  /** Whether `p` is `base` or lies below it, as `Path::starts_with`. */
  predicate StartsWith(p: Path, base: Path) {
    base <= p
  }

  /** A path starts with itself, and every path below starts with it. */
  lemma {:induction false} StartsWithIff(p: Path, base: Path)
    ensures StartsWith(p, base) <==> exists rest :: p == base + rest
  {
    if StartsWith(p, base) {
      assert p == base + p[|base|..];
    }
  }

  function Parent(p: Path): Path
    requires p != []
  {
    p[..|p| - 1]
  }

  /** `Path::join`: an absolute second path replaces the first. */
  function Joined(base: Path, p: Path): Path {
    if p != [] && p[0] == ROOT then p else base + p
  }

  /** Two prefixes of one path are comparable. */
  lemma PrefixesCompare(a: Path, b: Path, c: Path)
    requires a <= c && b <= c
    ensures a <= b || b <= a
  {
  }

  /** The relative path string of a component sequence. */
  function JoinPath(p: Path): string {
    if p == [] then ""
    else if |p| == 1 then p[0]
    else p[0] + "/" + JoinPath(p[1..])
  }

  /** The pieces of `s` between slashes, empty pieces included. */
  function SplitSlash(s: string): (r: seq<string>)
    ensures |r| >= 1
  {
    if s == "" then [""]
    else
      var rest := SplitSlash(s[1..]);
      if s[0] == '/' then [""] + rest else [[s[0]] + rest[0]] + rest[1..]
  }

  function DropEmpty(pieces: seq<string>): seq<string> {
    if pieces == [] then []
    else if pieces[0] == "" || pieces[0] == "." then DropEmpty(pieces[1..])
    else [pieces[0]] + DropEmpty(pieces[1..])
  }

  /** `PathBuf::from(s)`: the components of a path string. */
  function ToPath(s: string): Path {
    var pieces := SplitSlash(s);
    if s != "" && s[0] == '/' then [ROOT] + DropEmpty(pieces)
    else if pieces[0] == "." then ["."] + DropEmpty(pieces)
    else DropEmpty(pieces)
  }

  lemma {:induction false} PiecesNoSlash(s: string)
    ensures forall piece :: piece in SplitSlash(s) ==> '/' !in piece
  {
    if s != "" {
      PiecesNoSlash(s[1..]);
      assert SplitSlash(s[1..])[0] in SplitSlash(s[1..]);
    }
  }

  lemma {:induction false} DropEmptyKeeps(pieces: seq<string>)
    ensures forall piece :: piece in DropEmpty(pieces) ==> piece in pieces
  {
    if pieces != [] {
      DropEmptyKeeps(pieces[1..]);
      assert pieces == [pieces[0]] + pieces[1..];
    }
  }

  /** A path string that does not start with a slash is a relative path. */
  lemma RelativePath(s: string)
    requires s == "" || s[0] != '/'
    ensures ToPath(s) == [] || ToPath(s)[0] != ROOT
  {
    PiecesNoSlash(s);
    DropEmptyKeeps(SplitSlash(s));
    assert '/' in ROOT;
    if ToPath(s) != [] {
      assert ToPath(s)[0] == "." || ToPath(s)[0] in DropEmpty(SplitSlash(s));
    }
  }

  lemma {:induction false} SplitNoSlash(n: string)
    requires '/' !in n
    ensures SplitSlash(n) == [n]
  {
    if n != "" {
      assert n[0] in n;
      forall c | c in n[1..] ensures c != '/' { assert c in n; }
      SplitNoSlash(n[1..]);
      assert [n[0]] + n[1..] == n;
    }
  }

  lemma {:induction false} SplitAtSlash(n: string, rest: string)
    requires '/' !in n
    ensures SplitSlash(n + "/" + rest) == [n] + SplitSlash(rest)
  {
    var s := n + "/" + rest;
    if n == "" {
      assert s[1..] == rest;
    } else {
      assert n[0] in n;
      forall c | c in n[1..] ensures c != '/' { assert c in n; }
      SplitAtSlash(n[1..], rest);
      assert s[1..] == n[1..] + "/" + rest;
      assert [n[0]] + n[1..] == n;
    }
  }

  lemma {:induction false} SplitOfJoin(p: Path)
    requires p != [] && ProperPath(p)
    ensures SplitSlash(JoinPath(p)) == p
  {
    var head, rest := p[0], p[1..];
    assert p == [head] + rest && ProperName(head);
    if |p| == 1 {
      SplitNoSlash(head);
    } else {
      SplitOfJoin(rest);
      hide ProperPath, SplitSlash;
      SplitAtSlash(head, JoinPath(rest));
    }
  }

  lemma {:induction false} DropEmptyOfProper(p: Path)
    requires ProperPath(p)
    ensures DropEmpty(p) == p
  {
    if p != [] {
      DropEmptyOfProper(p[1..]);
    }
  }

  /** Reading a joined relative path back gives its components. */
  lemma {:induction false} ToPathOfJoin(p: Path)
    requires p != [] && ProperPath(p)
    ensures ToPath(JoinPath(p)) == p
  {
    SplitOfJoin(p);
    DropEmptyOfProper(p);
    var s := JoinPath(p);
    assert p[0] != "" && p[0] != ".";
    assert '/' !in p[0];
    assert s[0] == p[0][0];
    assert p[0][0] in p[0];
  }

  /** So the joined string of a proper path identifies it. */
  /** The other forms: an absolute path string, and one that starts with a component ".", which stays there. */
  lemma {:induction false} ToPathForms(p: Path)
    requires p != [] && ProperPath(p)
    ensures ToPath("/" + JoinPath(p)) == [ROOT] + p
    ensures ToPath("./" + JoinPath(p)) == ["."] + p
  {
    SplitOfJoin(p);
    DropEmptyOfProper(p);
    assert ("/" + JoinPath(p))[1..] == JoinPath(p);
    assert DropEmpty([""] + p) == p by { assert ([""] + p)[1..] == p; }
    SplitAtSlash(".", JoinPath(p));
    assert "./" + JoinPath(p) == "." + "/" + JoinPath(p);
    assert DropEmpty(["."] + p) == p by { assert (["."] + p)[1..] == p; }
  }

  lemma {:induction false} JoinInjective(p: Path, q: Path)
    requires ProperPath(p) && ProperPath(q) && JoinPath(p) == JoinPath(q)
    ensures p == q
  {
    if p != [] && q != [] {
      ToPathOfJoin(p);
      ToPathOfJoin(q);
    }
  }

  // ----- Joined strings -----

  lemma {:induction false} JoinOfSplit(s: string)
    ensures JoinPath(SplitSlash(s)) == s
  {
    if s != "" {
      JoinOfSplit(s[1..]);
      var rest := SplitSlash(s[1..]);
      if s[0] == '/' {
        assert ([""] + rest)[1..] == rest;
        assert "/" + s[1..] == s;
      } else {
        JoinHead([s[0]], rest);
        assert [s[0]] + s[1..] == s;
      }
    }
  }

  lemma JoinHead(c: string, pieces: seq<string>)
    requires pieces != []
    ensures JoinPath([c + pieces[0]] + pieces[1..]) == c + JoinPath(pieces)
  {
    var longer := [c + pieces[0]] + pieces[1..];
    assert longer[1..] == pieces[1..];
    if |pieces| > 1 {
      assert (c + pieces[0]) + "/" + JoinPath(pieces[1..]) == c + (pieces[0] + "/" + JoinPath(pieces[1..]));
    }
  }

  lemma {:induction false} SplitBelow(q: Path, rest: string)
    requires q != [] && ProperPath(q)
    ensures SplitSlash(JoinPath(q) + "/" + rest) == q + SplitSlash(rest)
  {
    var head, tail := q[0], q[1..];
    assert q == [head] + tail && ProperName(head);
    if |q| == 1 {
      hide ProperPath, SplitSlash;
      SplitAtSlash(head, rest);
    } else {
      SplitBelow(tail, rest);
      hide ProperPath, SplitSlash;
      SplitAtSlash(head, JoinPath(tail) + "/" + rest);
      assert JoinPath(q) + "/" + rest == head + "/" + (JoinPath(tail) + "/" + rest);
      assert [head] + (tail + SplitSlash(rest)) == q + SplitSlash(rest);
    }
  }

  lemma {:induction false} JoinBelow(q: Path, rest: Path)
    requires q != [] && rest != []
    ensures JoinPath(q + rest) == JoinPath(q) + "/" + JoinPath(rest)
  {
    if |q| == 1 {
      assert (q + rest)[1..] == rest;
    } else {
      JoinBelow(q[1..], rest);
      assert (q + rest)[1..] == q[1..] + rest;
      assert q[0] + "/" + (JoinPath(q[1..]) + "/" + JoinPath(rest)) == JoinPath(q) + "/" + JoinPath(rest);
    }
  }

  /** On joined strings, "starts with the directory and a slash" is being strictly inside it. */
  lemma BelowByString(q: Path, p: Path)
    requires q != [] && p != [] && ProperPath(q) && ProperPath(p)
    ensures JoinPath(q) + "/" <= JoinPath(p) <==> q < p
  {
    if q < p {
      assert p == q + p[|q|..];
      JoinBelow(q, p[|q|..]);
    }
    var start := JoinPath(q) + "/";
    if start <= JoinPath(p) {
      var rest := JoinPath(p)[|start|..];
      assert JoinPath(p) == JoinPath(q) + "/" + rest;
      SplitBelow(q, rest);
      SplitOfJoin(p);
    }
  }
}
