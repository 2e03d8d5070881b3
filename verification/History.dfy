/**
  The commit graph. Object ids are numbers; `rank` witnesses that the graph is
  acyclic, as every graph of content-addressed commits is.
 */
module History {

  type Oid = nat

  datatype Dag = Dag(parents: map<Oid, set<Oid>>, rank: map<Oid, nat>) {
    ghost predicate Acyclic() {
      && parents.Keys == rank.Keys
      && forall c, p :: c in parents && p in parents[c] ==> p in parents && rank[p] < rank[c]
    }

    /** `a` is `c` or an ancestor of it. */
    predicate Reaches(c: Oid, a: Oid)
      requires Acyclic() && c in parents
      decreases rank[c]
    {
      a == c || exists p :: p in parents[c] && Reaches(p, a)
    }

    /** `graph_descendant_of(c, a)`: a commit is no descendant of itself. */
    predicate DescendantOf(c: Oid, a: Oid)
      requires Acyclic() && c in parents
    {
      c != a && Reaches(c, a)
    }
  }

  lemma {:induction false} ReachesKnown(g: Dag, c: Oid, a: Oid)
    requires g.Acyclic() && c in g.parents && g.Reaches(c, a)
    ensures a in g.parents
    ensures a != c ==> g.rank[a] < g.rank[c]
    decreases g.rank[c]
  {
    if a != c {
      var p :| p in g.parents[c] && g.Reaches(p, a);
      ReachesKnown(g, p, a);
    }
  }

  lemma {:induction false} ReachesTransitive(g: Dag, c: Oid, b: Oid, a: Oid)
    requires g.Acyclic() && c in g.parents && g.Reaches(c, b)
    requires b in g.parents && g.Reaches(b, a)
    ensures g.Reaches(c, a)
    decreases g.rank[c]
  {
    if b != c {
      var p :| p in g.parents[c] && g.Reaches(p, b);
      ReachesTransitive(g, p, b, a);
    }
  }

  /** Reachability of old commits does not change when commits are added. */
  lemma {:induction false} ReachesStable(g: Dag, g': Dag, c: Oid, a: Oid)
    requires g.Acyclic() && g'.Acyclic() && c in g.parents
    requires forall x :: x in g.parents ==> x in g'.parents && g'.parents[x] == g.parents[x]
    ensures g'.Reaches(c, a) <==> g.Reaches(c, a)
    decreases g.rank[c]
  {
    if a != c {
      forall p | p in g.parents[c] ensures g'.Reaches(p, a) <==> g.Reaches(p, a) {
        ReachesStable(g, g', p, a);
      }
    }
  }

  // ----- Stores closed under ancestry -----

  /** A store that holds the parents of every commit it holds. */
  ghost predicate Closed(g: Dag, store: set<Oid>) {
    && store <= g.parents.Keys
    && forall c :: c in store ==> g.parents[c] <= store
  }

  ghost function Ancestry(g: Dag, c: Oid): set<Oid>
    requires g.Acyclic() && c in g.parents
  {
    set a | a in g.parents && g.Reaches(c, a)
  }

  lemma {:induction false} ClosedHolds(g: Dag, store: set<Oid>, c: Oid, a: Oid)
    requires g.Acyclic() && Closed(g, store) && c in store && g.Reaches(c, a)
    ensures a in store
    decreases g.rank[c]
  {
    if a != c {
      var p :| p in g.parents[c] && g.Reaches(p, a);
      ClosedHolds(g, store, p, a);
    }
  }

  /** Writing a pack of `want` without what `have` reaches, to a store that has `have`. */
  lemma PackCompletes(g: Dag, store: set<Oid>, want: Oid, pack: set<Oid>, have: set<Oid>)
    requires g.Acyclic() && Closed(g, store) && want in g.parents && have <= store
    requires forall a :: a in pack <==> a in Ancestry(g, want) && !exists h :: h in have && g.Reaches(h, a)
    ensures Closed(g, store + pack)
    ensures Ancestry(g, want) <= store + pack
  {
    forall a | a in Ancestry(g, want) ensures a in store + pack {
      if a !in pack {
        var h :| h in have && g.Reaches(h, a);
        ClosedHolds(g, store, h, a);
      }
    }
    forall c, p | c in store + pack && p in g.parents[c] ensures p in store + pack {
      if c in pack {
        assert g.Reaches(c, p);
        ReachesTransitive(g, want, c, p);
      }
    }
  }

  // ----- Frontier -----

  /** The commits of `s` that no other commit of `s` descends from. */
  ghost function Maximal(g: Dag, s: set<Oid>): set<Oid>
    requires g.Acyclic() && s <= g.parents.Keys
  {
    set c | c in s && !exists o :: o in s && g.DescendantOf(o, c)
  }

  ghost predicate Covers(g: Dag, f: set<Oid>, s: set<Oid>)
    requires g.Acyclic() && f <= g.parents.Keys
  {
    forall c :: c in s ==> exists o :: o in f && g.Reaches(o, c)
  }

  ghost predicate Antichain(g: Dag, f: set<Oid>)
    requires g.Acyclic() && f <= g.parents.Keys
  {
    forall c, o :: c in f && o in f && g.Reaches(o, c) ==> o == c
  }

  ghost predicate StrictlySorted(l: seq<Oid>) {
    forall i, j :: 0 <= i < j < |l| ==> l[i] < l[j]
  }

  function Elements(l: seq<Oid>): set<Oid> {
    set c | c in l
  }

  lemma ElementsAppend(a: seq<Oid>, b: seq<Oid>)
    ensures Elements(a + b) == Elements(a) + Elements(b)
  {
  }

  lemma SortedInsert(low: seq<Oid>, c: Oid, high: seq<Oid>)
    requires StrictlySorted(low) && StrictlySorted(high)
    requires (forall k :: 0 <= k < |low| ==> low[k] < c) && (forall k :: 0 <= k < |high| ==> c < high[k])
    ensures StrictlySorted(low + [c] + high)
  {
  }

  /** Insert into a sorted list, for `Vec::sort`. */
  method Insert(l: seq<Oid>, c: Oid) returns (r: seq<Oid>)
    requires StrictlySorted(l) && c !in l
    ensures StrictlySorted(r) && Elements(r) == Elements(l) + {c}
  {
    var i := 0;
    while i < |l| && l[i] < c
      invariant 0 <= i <= |l|
      invariant forall k :: 0 <= k < i ==> l[k] < c
    {
      i := i + 1;
    }
    var low, high := l[..i], l[i..];
    r := low + [c] + high;
    ElementsAppend(low, high);
    ElementsAppend(low, [c]);
    ElementsAppend(low + [c], high);
    assert l == low + high;
    forall k | 0 <= k < |high| ensures c < high[k] {
      assert high[k] == l[i + k] && l[i + k] in l;
    }
    SortedInsert(low, c, high);
  }

  /** Drop the commits that another one descends from; the output is sorted. */
  method Frontier(g: Dag, commits: seq<Oid>) returns (frontier: seq<Oid>)
    requires g.Acyclic() && Elements(commits) <= g.parents.Keys
    ensures StrictlySorted(frontier)
    ensures Elements(frontier) == Maximal(g, Elements(commits))
  {
    var unique := Elements(commits);
    frontier := [];
    var rest := unique;
    while rest != {}
      invariant rest <= unique
      invariant StrictlySorted(frontier)
      invariant Elements(frontier) == Maximal(g, unique) - rest
      decreases rest
    {
      var oid :| oid in rest;
      var dominated := false;
      var others := unique;
      while others != {} && !dominated
        invariant others <= unique
        invariant dominated ==> exists o :: o in unique && g.DescendantOf(o, oid)
        invariant !dominated ==> forall o :: o in unique - others ==> !g.DescendantOf(o, oid)
        decreases others
      {
        var other :| other in others;
        if other != oid && g.DescendantOf(other, oid) {
          dominated := true;
        }
        others := others - {other};
      }
      if !dominated {
        frontier := Insert(frontier, oid);
      }
      rest := rest - {oid};
    }
  }

  /** Climb from `c` to a maximal commit above it. */
  lemma {:induction false} MaximalAbove(g: Dag, s: set<Oid>, c: Oid) returns (m: Oid)
    requires g.Acyclic() && s <= g.parents.Keys && c in s
    ensures m in Maximal(g, s) && g.Reaches(m, c)
    decreases set o | o in s && g.DescendantOf(o, c)
  {
    if c in Maximal(g, s) {
      m := c;
    } else {
      var o :| o in s && g.DescendantOf(o, c);
      var above, higher := set x | x in s && g.DescendantOf(x, c), set x | x in s && g.DescendantOf(x, o);
      forall x | x in higher ensures x in above {
        ReachesTransitive(g, x, o, c);
        ReachesKnown(g, x, o);
        ReachesKnown(g, o, c);
      }
      assert o in above && o !in higher;
      m := MaximalAbove(g, s, o);
      ReachesTransitive(g, m, o, c);
    }
  }

  lemma FrontierCovers(g: Dag, s: set<Oid>)
    requires g.Acyclic() && s <= g.parents.Keys
    ensures Antichain(g, Maximal(g, s)) && Covers(g, Maximal(g, s), s)
  {
    forall c | c in s ensures exists o :: o in Maximal(g, s) && g.Reaches(o, c) {
      var o := MaximalAbove(g, s, c);
    }
  }

  lemma CoverHoldsFrontier(g: Dag, s: set<Oid>, f: set<Oid>)
    requires g.Acyclic() && s <= g.parents.Keys && f <= s && Covers(g, f, s)
    ensures Maximal(g, s) <= f
  {
    hide Dag.Reaches;
    forall c | c in Maximal(g, s) ensures c in f {
      var o :| o in f && g.Reaches(o, c);
      assert !g.DescendantOf(o, c);
    }
  }

  /**
    The frontier is an antichain that covers the input, it is contained in
    every cover, and no other antichain covers.
   */
  lemma {:induction false} FrontierIsMinimalCover(g: Dag, s: set<Oid>, f: set<Oid>)
    requires g.Acyclic() && s <= g.parents.Keys && f <= s
    ensures Antichain(g, Maximal(g, s)) && Covers(g, Maximal(g, s), s)
    ensures Covers(g, f, s) ==> Maximal(g, s) <= f
    ensures Covers(g, f, s) && Antichain(g, f) <==> f == Maximal(g, s)
  {
    hide Dag.Reaches;
    FrontierCovers(g, s);
    var m := Maximal(g, s);
    if Covers(g, f, s) {
      CoverHoldsFrontier(g, s, f);
      if Antichain(g, f) {
        hide Maximal;
        forall c | c in f ensures c in m {
          assert c in s;
          var o :| o in m && g.Reaches(o, c);
          assert o in f;
        }
      }
    }
  }

  lemma ElementsEmpty(l: seq<Oid>)
    ensures Elements(l) == {} <==> l == []
  {
    if l != [] { assert l[0] in Elements(l); }
  }

  /** A strictly sorted list is determined by its elements, so the order and repetition of the input do not matter. */
  lemma {:induction false} SortedUnique(l: seq<Oid>, k: seq<Oid>)
    requires StrictlySorted(l) && StrictlySorted(k) && Elements(l) == Elements(k)
    ensures l == k
    decreases |l|
  {
    ElementsEmpty(l);
    ElementsEmpty(k);
    if l != [] {
      assert l[0] in Elements(k);
      assert k[0] in Elements(l);
      var i :| 0 <= i < |l| && l[i] == k[0];
      var j :| 0 <= j < |k| && k[j] == l[0];
      assert l[0] == k[0];
      forall c ensures c in Elements(l[1..]) <==> c in Elements(k[1..]) {
        assert c in Elements(l) <==> c == l[0] || c in Elements(l[1..]);
        assert c in Elements(k) <==> c == k[0] || c in Elements(k[1..]);
      }
      SortedUnique(l[1..], k[1..]);
    }
  }
}
