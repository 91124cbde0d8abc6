/**
 * Walks and cycles of a directed graph whose edge relation is a finite set of pairs.
 * Every graph algorithm of the project states its result in these terms.
 */
module Digraph {

  /** Consecutive nodes are joined by edges; a single node is a walk. */
  ghost predicate Walk<T(!new)>(edges: set<(T, T)>, w: seq<T>) {
    |w| >= 1 && forall i :: 0 <= i < |w| - 1 ==> (w[i], w[i + 1]) in edges
  }

  /** A walk of at least one edge that ends where it started. */
  ghost predicate ClosedWalk<T(!new)>(edges: set<(T, T)>, w: seq<T>) {
    Walk(edges, w) && |w| >= 2 && w[0] == w[|w| - 1]
  }

  /** `b` can be reached from `a` by one or more edges. */
  ghost predicate Reaches<T(!new)>(edges: set<(T, T)>, a: T, b: T) {
    exists w :: Walk(edges, w) && |w| >= 2 && w[0] == a && w[|w| - 1] == b
  }

  ghost predicate Acyclic<T(!new)>(edges: set<(T, T)>) {
    forall x :: !Reaches(edges, x, x)
  }

  ghost predicate NoDuplicates<T(!new)>(s: seq<T>) {
    forall i, j :: 0 <= i < j < |s| ==> s[i] != s[j]
  }

  /** The set of listed elements. */
  ghost function Elems<T(!new)>(s: seq<T>): set<T> {
    set x | x in s
  }

  lemma ElemsAppend<T(!new)>(s: seq<T>, x: T)
    ensures Elems(s + [x]) == Elems(s) + {x}
  {
  }

  lemma NoDuplicatesAppend<T(!new)>(s: seq<T>, x: T)
    requires NoDuplicates(s) && x !in s
    ensures NoDuplicates(s + [x])
  {
  }

  lemma NoDuplicatesConcat<T(!new)>(a: seq<T>, b: seq<T>)
    requires NoDuplicates(a) && NoDuplicates(b) && forall x :: x in a ==> x !in b
    ensures NoDuplicates(a + b)
  {
    forall i, j | 0 <= i < j < |a + b| ensures (a + b)[i] != (a + b)[j] {
      if i < |a| <= j {
        assert a[i] in a && b[j - |a|] in b;
      }
    }
  }

  lemma WalkAppend<T(!new)>(edges: set<(T, T)>, w: seq<T>, x: T)
    requires w == [] || (Walk(edges, w) && (w[|w| - 1], x) in edges)
    ensures Walk(edges, w + [x])
  {
    var u := w + [x];
    forall i | 0 <= i < |u| - 1 ensures (u[i], u[i + 1]) in edges {
      if i < |w| - 1 {
        assert (w[i], w[i + 1]) in edges;
      }
    }
  }

  /** Stepping from the end of a walk back onto the walk closes a cycle. */
  lemma WalkCloses<T(!new)>(edges: set<(T, T)>, w: seq<T>, k: nat)
    requires Walk(edges, w) && k < |w| && (w[|w| - 1], w[k]) in edges
    ensures ClosedWalk(edges, w[k..] + [w[k]])
  {
    var c := w[k..] + [w[k]];
    forall i | 0 <= i < |c| - 1 ensures (c[i], c[i + 1]) in edges {
      if i < |c| - 2 {
        assert (w[k + i], w[k + i + 1]) in edges;
      }
    }
  }

  lemma TargetsFirstAppend<T(!new)>(edges: set<(T, T)>, scope: set<T>, order: seq<T>, x: T)
    requires TargetsFirst(edges, scope, order)
    requires forall b :: (x, b) in edges && b in scope ==> b in order
    ensures TargetsFirst(edges, scope, order + [x])
  {
    var longer := order + [x];
    forall j, b | 0 <= j < |longer| && (longer[j], b) in edges && b in scope ensures b in longer[..j] {
      assert longer[..j] == order[..j];
      if j == |order| {
        assert order[..j] == order;
      }
    }
  }

  lemma SourcesFirstAppend<T(!new)>(edges: set<(T, T)>, order: seq<T>, x: T)
    requires SourcesFirst(edges, order)
    requires forall a :: (a, x) in edges ==> a in order
    ensures SourcesFirst(edges, order + [x])
  {
    var longer := order + [x];
    forall j, a | 0 <= j < |longer| && (a, longer[j]) in edges ensures a in longer[..j] {
      assert longer[..j] == order[..j];
      if j == |order| {
        assert order[..j] == order;
      }
    }
  }

  /** Every edge that points at a listed node starts at a node listed earlier. */
  ghost predicate SourcesFirst<T(!new)>(edges: set<(T, T)>, order: seq<T>) {
    forall j, a :: 0 <= j < |order| && (a, order[j]) in edges ==> a in order[..j]
  }

  /** Every edge that leaves a listed node for a node of `scope` ends at a node listed earlier. */
  ghost predicate TargetsFirst<T(!new)>(edges: set<(T, T)>, scope: set<T>, order: seq<T>) {
    forall j, b :: 0 <= j < |order| && (order[j], b) in edges && b in scope ==> b in order[..j]
  }

  lemma ClosedWalkIsCycle<T(!new)>(edges: set<(T, T)>, w: seq<T>)
    requires ClosedWalk(edges, w)
    ensures !Acyclic(edges)
  {
    assert Reaches(edges, w[0], w[0]);
  }

  /** Walks compose. */
  lemma ReachesTransitive<T(!new)>(edges: set<(T, T)>, a: T, b: T, c: T)
    requires Reaches(edges, a, b) && Reaches(edges, b, c)
    ensures Reaches(edges, a, c)
  {
    var u :| Walk(edges, u) && |u| >= 2 && u[0] == a && u[|u| - 1] == b;
    var v :| Walk(edges, v) && |v| >= 2 && v[0] == b && v[|v| - 1] == c;
    var w := u + v[1..];
    forall i | 0 <= i < |w| - 1 ensures (w[i], w[i + 1]) in edges {
      if i < |u| - 1 {
        assert (u[i], u[i + 1]) in edges;
      } else {
        var k := i - |u| + 1;
        assert w[i] == v[k] && w[i + 1] == v[k + 1];
      }
    }
    assert Walk(edges, w);
  }

  lemma EdgeReaches<T(!new)>(edges: set<(T, T)>, a: T, b: T)
    requires (a, b) in edges
    ensures Reaches(edges, a, b)
  {
    assert Walk(edges, [a, b]);
  }

  lemma MemberAt<T(!new)>(x: T, s: seq<T>) returns (k: nat)
    requires x in s
    ensures k < |s| && s[k] == x
  {
    k :| 0 <= k < |s| && s[k] == x;
  }

  /** Along a walk into a duplicate-free, sources-first list the position only grows. */
  lemma {:induction false} WalkPositions<T(!new)>(edges: set<(T, T)>, order: seq<T>, w: seq<T>, j: nat) returns (i: nat)
    requires SourcesFirst(edges, order)
    requires Walk(edges, w) && j < |order| && w[|w| - 1] == order[j]
    ensures i < |order| && w[0] == order[i] && i + |w| - 1 <= j
  {
    if |w| == 1 {
      i := j;
    } else {
      var n := |w| - 1;
      assert (w[n - 1], w[n - 1 + 1]) in edges;
      var k := MemberAt(w[n - 1], order[..j]);
      var u := w[..n];
      assert Walk(edges, u) by {
        forall m | 0 <= m < |u| - 1 ensures (u[m], u[m + 1]) in edges {
          assert (w[m], w[m + 1]) in edges;
        }
      }
      i := WalkPositions(edges, order, u, k);
    }
  }

  /** In a sources-first list, whatever reaches a listed node is listed before it. */
  lemma ReachesBefore<T(!new)>(edges: set<(T, T)>, order: seq<T>, a: T, j: nat) returns (i: nat)
    requires SourcesFirst(edges, order) && j < |order| && Reaches(edges, a, order[j])
    ensures i < j && order[i] == a
  {
    var w :| Walk(edges, w) && |w| >= 2 && w[0] == a && w[|w| - 1] == order[j];
    i := WalkPositions(edges, order, w, j);
  }

  /** A complete sources-first listing without repeats is a proof of acyclicity. */
  lemma SourcesFirstAcyclic<T(!new)>(edges: set<(T, T)>, order: seq<T>)
    requires NoDuplicates(order) && SourcesFirst(edges, order)
    requires forall e :: e in edges ==> e.1 in order
    ensures Acyclic(edges)
  {
    forall x ensures !Reaches(edges, x, x) {
      if Reaches(edges, x, x) {
        var w :| Walk(edges, w) && |w| >= 2 && w[0] == x && w[|w| - 1] == x;
        assert (w[|w| - 2], w[|w| - 2 + 1]) in edges;
        var j := MemberAt(x, order);
        var i := WalkPositions(edges, order, w, j);
        assert false;
      }
    }
  }

  ghost function Flip<T(!new)>(edges: set<(T, T)>): set<(T, T)> {
    set e | e in edges :: (e.1, e.0)
  }

  ghost function Reversed<T(!new)>(w: seq<T>): (r: seq<T>)
    ensures |r| == |w| && forall i :: 0 <= i < |w| ==> r[i] == w[|w| - 1 - i]
  {
    seq(|w|, i requires 0 <= i < |w| => w[|w| - 1 - i])
  }

  lemma FlipWalk<T(!new)>(edges: set<(T, T)>, w: seq<T>)
    requires Walk(edges, w)
    ensures Walk(Flip(edges), Reversed(w))
  {
    var r := Reversed(w);
    forall i | 0 <= i < |r| - 1 ensures (r[i], r[i + 1]) in Flip(edges) {
      var k := |w| - 2 - i;
      assert (w[k], w[k + 1]) in edges;
    }
  }

  lemma FlipReaches<T(!new)>(edges: set<(T, T)>, a: T, b: T)
    requires Reaches(edges, a, b)
    ensures Reaches(Flip(edges), b, a)
  {
    var w :| Walk(edges, w) && |w| >= 2 && w[0] == a && w[|w| - 1] == b;
    FlipWalk(edges, w);
  }

  /** A depth-first finishing order of every node is a proof of acyclicity. */
  lemma TargetsFirstAcyclic<T(!new)>(edges: set<(T, T)>, scope: set<T>, order: seq<T>)
    requires NoDuplicates(order) && TargetsFirst(edges, scope, order)
    requires forall e :: e in edges ==> e.0 in order && e.1 in scope
    ensures Acyclic(edges)
  {
    var flipped := Flip(edges);
    forall j, a | 0 <= j < |order| && (a, order[j]) in flipped ensures a in order[..j] {
      assert (order[j], a) in edges;
    }
    SourcesFirstAcyclic(flipped, order);
    forall x ensures !Reaches(edges, x, x) {
      if Reaches(edges, x, x) {
        FlipReaches(edges, x, x);
      }
    }
  }

  ghost predicate HasPredecessor<T(!new)>(edges: set<(T, T)>, region: set<T>, x: T) {
    exists p :: p in region && (p, x) in edges
  }

  /** Walking backwards inside a finite set in which every node has a predecessor closes a cycle. */
  lemma {:induction false} WalkBack<T(!new)>(edges: set<(T, T)>, region: set<T>, w: seq<T>)
    requires forall x :: x in region ==> HasPredecessor(edges, region, x)
    requires Walk(edges, w) && NoDuplicates(w) && forall x :: x in w ==> x in region
    ensures !Acyclic(edges)
    decreases region - (set x | x in w)
  {
    assert w[0] in w;
    var p :| p in region && (p, w[0]) in edges;
    var u := [p] + w;
    assert Walk(edges, u) by {
      forall i | 0 <= i < |u| - 1 ensures (u[i], u[i + 1]) in edges {
        if i > 0 {
          assert (w[i - 1], w[i - 1 + 1]) in edges;
        }
      }
    }
    if p in w {
      var k := MemberAt(p, w);
      var c := u[..k + 2];
      forall i | 0 <= i < |c| - 1 ensures (c[i], c[i + 1]) in edges {
        assert (u[i], u[i + 1]) in edges;
      }
      ClosedWalkIsCycle(edges, c);
    } else {
      var before, after := region - (set x | x in w), region - (set x | x in u);
      assert p in before && p !in after && after <= before;
      WalkBack(edges, region, u);
    }
  }

  /** Any non-empty finite set of nodes of an acyclic graph has a member no other member points at. */
  lemma SourceExists<T(!new)>(edges: set<(T, T)>, region: set<T>) returns (x: T)
    requires Acyclic(edges) && region != {}
    ensures x in region && !HasPredecessor(edges, region, x)
  {
    if forall x :: x in region ==> HasPredecessor(edges, region, x) {
      x :| x in region;
      WalkBack(edges, region, [x]);
    } else {
      x :| x in region && !HasPredecessor(edges, region, x);
    }
  }

  /** The pairs of a set of nodes of which the first leads to the second. */
  ghost function Closure<T(!new)>(edges: set<(T, T)>, region: set<T>): set<(T, T)> {
    set a, b | a in region && b in region && Reaches(edges, a, b) :: (a, b)
  }

  lemma {:induction false} ClosureWalk<T(!new)>(edges: set<(T, T)>, region: set<T>, w: seq<T>)
    requires Walk(Closure(edges, region), w) && |w| >= 2
    ensures Reaches(edges, w[0], w[|w| - 1])
  {
    var n := |w| - 1;
    assert (w[n - 1], w[n - 1 + 1]) in Closure(edges, region);
    if n > 1 {
      var u := w[..n];
      forall i | 0 <= i < |u| - 1 ensures (u[i], u[i + 1]) in Closure(edges, region) {
        assert (w[i], w[i + 1]) in Closure(edges, region);
      }
      ClosureWalk(edges, region, u);
      ReachesTransitive(edges, w[0], w[n - 1], w[n]);
    }
  }

  /** Any non-empty finite set of nodes of an acyclic graph has a member that no other member leads to. */
  lemma EarliestMember<T(!new)>(edges: set<(T, T)>, region: set<T>) returns (x: T)
    requires Acyclic(edges) && region != {}
    ensures x in region && forall y :: y in region ==> !Reaches(edges, y, x)
  {
    var closure := Closure(edges, region);
    forall z ensures !Reaches(closure, z, z) {
      if Reaches(closure, z, z) {
        var w :| Walk(closure, w) && |w| >= 2 && w[0] == z && w[|w| - 1] == z;
        ClosureWalk(edges, region, w);
      }
    }
    x := SourceExists(closure, region);
    forall y | y in region ensures !Reaches(edges, y, x) {
      assert !(y in region && (y, x) in closure);
    }
  }

  /** A sources-first listing can be continued over any further nodes whose predecessors are listed or among them. */
  lemma {:induction false} ContinueListing<T(!new)>(edges: set<(T, T)>, prefix: seq<T>, rest: set<T>)
    returns (order: seq<T>)
    requires Acyclic(edges) && NoDuplicates(prefix) && SourcesFirst(edges, prefix) && rest !! Elems(prefix)
    requires forall a, b :: (a, b) in edges && b in rest ==> a in prefix || a in rest
    ensures |prefix| <= |order| && order[..|prefix|] == prefix && NoDuplicates(order) && SourcesFirst(edges, order)
    ensures Elems(order) == Elems(prefix) + rest
    decreases rest
  {
    if rest == {} {
      order := prefix;
    } else {
      var x := SourceExists(edges, rest);
      assert x !in Elems(prefix);
      forall a | (a, x) in edges ensures a in prefix {
        assert !(a in rest && (a, x) in edges);
      }
      NoDuplicatesAppend(prefix, x);
      SourcesFirstAppend(edges, prefix, x);
      ElemsAppend(prefix, x);
      order := ContinueListing(edges, prefix + [x], rest - {x});
      assert order[..|prefix|] == order[..|prefix| + 1][..|prefix|];
    }
  }
}
