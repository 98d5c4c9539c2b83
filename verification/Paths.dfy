/** Routes through a finite directed graph, given as a set of edges. */
module Paths {

  /** `p` runs from `a` to `b` along at least one edge. */
  ghost predicate Route<T(!new)>(edges: set<(T, T)>, p: seq<T>, a: T, b: T) {
    && |p| >= 2
    && p[0] == a
    && p[|p| - 1] == b
    && forall i :: 0 <= i < |p| - 1 ==> (p[i], p[i + 1]) in edges
  }

  ghost predicate Reaches<T(!new)>(edges: set<(T, T)>, a: T, b: T) {
    exists p :: Route(edges, p, a, b)
  }

  ghost predicate Acyclic<T(!new)>(edges: set<(T, T)>) {
    forall a :: !Reaches(edges, a, a)
  }

  /** `a` lies on a cycle, or reaches a node that does. */
  ghost predicate LeadsToCycle<T(!new)>(edges: set<(T, T)>, a: T) {
    exists c :: (c == a || Reaches(edges, a, c)) && Reaches(edges, c, c)
  }

  lemma OneStep<T(!new)>(edges: set<(T, T)>, a: T, b: T)
    requires (a, b) in edges
    ensures Reaches(edges, a, b)
  {
    assert Route(edges, [a, b], a, b);
  }

  lemma Join<T(!new)>(edges: set<(T, T)>, a: T, b: T, c: T)
    requires Reaches(edges, a, b) && Reaches(edges, b, c)
    ensures Reaches(edges, a, c)
  {
    var p :| Route(edges, p, a, b);
    var q :| Route(edges, q, b, c);
    assert Route(edges, p + q[1..], a, c);
  }

  lemma Prepend<T(!new)>(edges: set<(T, T)>, a: T, b: T, c: T)
    requires (a, b) in edges
    requires b == c || Reaches(edges, b, c)
    ensures Reaches(edges, a, c)
  {
    OneStep(edges, a, b);
    if b != c {
      Join(edges, a, b, c);
    }
  }

  lemma Append<T(!new)>(edges: set<(T, T)>, a: T, b: T, c: T)
    requires a == b || Reaches(edges, a, b)
    requires (b, c) in edges
    ensures Reaches(edges, a, c)
  {
    OneStep(edges, b, c);
    if a != b {
      Join(edges, a, b, c);
    }
  }

  lemma FirstStep<T(!new)>(edges: set<(T, T)>, a: T, b: T) returns (c: T)
    requires Reaches(edges, a, b)
    ensures (a, c) in edges && (c == b || Reaches(edges, c, b))
  {
    var p :| Route(edges, p, a, b);
    c := p[1];
    if |p| > 2 {
      assert Route(edges, p[1..], c, b);
    }
  }

  /** A set that edges never leave is never left by a route either. */
  lemma {:induction false} StaysInside<T(!new)>(edges: set<(T, T)>, inside: set<T>, a: T, b: T)
    requires a in inside && Reaches(edges, a, b)
    requires forall x, y :: x in inside && (x, y) in edges ==> y in inside
    ensures b in inside
  {
    var p :| Route(edges, p, a, b);
    RouteStaysInside(edges, inside, p, |p| - 1);
  }

  lemma {:induction false} RouteStaysInside<T(!new)>(edges: set<(T, T)>, inside: set<T>, p: seq<T>, k: nat)
    requires k < |p| && p[0] in inside
    requires forall i :: 0 <= i < |p| - 1 ==> (p[i], p[i + 1]) in edges
    requires forall x, y :: x in inside && (x, y) in edges ==> y in inside
    ensures p[k] in inside
  {
    if k > 0 {
      RouteStaysInside(edges, inside, p, k - 1);
      assert (p[k - 1], p[k - 1 + 1]) in edges;
    }
  }

  lemma Shrinks<T>(smaller: set<T>, larger: set<T>)
    requires smaller < larger
    ensures |smaller| < |larger|
  {
    var x :| x in larger && x !in smaller;
    Subset(smaller, larger - {x});
  }

  lemma {:induction false} Subset<T>(smaller: set<T>, larger: set<T>)
    requires smaller <= larger
    ensures |smaller| <= |larger|
  {
    if smaller != {} {
      var x :| x in smaller;
      Subset(smaller - {x}, larger - {x});
    }
  }

  lemma {:induction false} DistinctFits<T>(s: seq<T>, within: set<T>)
    requires forall i, j :: 0 <= i < j < |s| ==> s[i] != s[j]
    requires forall i :: 0 <= i < |s| ==> s[i] in within
    ensures |s| <= |within|
  {
    if s != [] {
      var last := s[|s| - 1];
      DistinctFits(s[..|s| - 1], within - {last});
    }
  }

  ghost predicate HasNext<T(!new)>(edges: set<(T, T)>, within: set<T>, x: T) {
    exists y :: y in within && (x, y) in edges
  }

  /** In a finite set where every node has a successor in the set, every node leads to a cycle. */
  lemma EndlessLeadsToCycle<T(!new)>(edges: set<(T, T)>, stuck: set<T>, a: T)
    requires a in stuck
    requires forall x {:trigger HasNext(edges, stuck, x)} :: x in stuck ==> HasNext(edges, stuck, x)
    ensures exists c :: c in stuck && (c == a || Reaches(edges, a, c)) && Reaches(edges, c, c)
  {
    Walk(edges, stuck, [a]);
  }

  lemma {:induction false} Walk<T(!new)>(edges: set<(T, T)>, stuck: set<T>, trail: seq<T>)
    requires trail != [] && forall i :: 0 <= i < |trail| ==> trail[i] in stuck
    requires forall i, j :: 0 <= i < j < |trail| ==> trail[i] != trail[j]
    requires forall i :: 0 <= i < |trail| - 1 ==> (trail[i], trail[i + 1]) in edges
    requires forall x {:trigger HasNext(edges, stuck, x)} :: x in stuck ==> HasNext(edges, stuck, x)
    ensures exists c :: c in stuck && (c == trail[0] || Reaches(edges, trail[0], c)) && Reaches(edges, c, c)
    decreases |stuck| - |trail|
  {
    var last := trail[|trail| - 1];
    assert HasNext(edges, stuck, last);
    var next :| next in stuck && (last, next) in edges;
    if k :| 0 <= k < |trail| && trail[k] == next {
      assert Route(edges, trail[k..] + [next], next, next);
      if k > 0 {
        assert Route(edges, trail[..k + 1], trail[0], next);
      }
    } else {
      var longer := trail + [next];
      DistinctFits(longer, stuck);
      Walk(edges, stuck, longer);
      assert longer[0] == trail[0];
    }
  }

  /** `order` lists nodes once each, every node after all its successors. */
  ghost predicate Layered<T(!new)>(edges: set<(T, T)>, order: seq<T>) {
    && (forall i, j :: 0 <= i < j < |order| ==> order[i] != order[j])
    && (forall i, y :: 0 <= i < |order| && (order[i], y) in edges ==> y in order[..i])
  }

  lemma LayeredPrefix<T(!new)>(edges: set<(T, T)>, order: seq<T>, n: nat)
    requires Layered(edges, order) && n <= |order|
    ensures Layered(edges, order[..n])
  {
    assert forall i :: 0 <= i < n ==> order[..n][..i] == order[..i];
  }

  lemma LayeredIsClosed<T(!new)>(edges: set<(T, T)>, order: seq<T>, a: T, b: T)
    requires Layered(edges, order) && a in order && (a, b) in edges
    ensures b in order
  {
    var i :| 0 <= i < |order| && order[i] == a;
    assert b in order[..i];
  }

  lemma LayeredExtends<T(!new)>(edges: set<(T, T)>, order: seq<T>, a: T)
    requires Layered(edges, order) && a !in order
    requires forall y :: (a, y) in edges ==> y in order
    ensures Layered(edges, order + [a])
  {
    var longer := order + [a];
    forall i, y | 0 <= i < |longer| && (longer[i], y) in edges
      ensures y in longer[..i]
    {
      assert longer[..i] == order[..i];
      assert order[..|order|] == order;
    }
  }

  /** What has been listed so leads to no cycle. */
  lemma LayeredHasNoCycle<T(!new)>(edges: set<(T, T)>, order: seq<T>, a: T)
    requires Layered(edges, order) && a in order
    ensures !LeadsToCycle(edges, a)
  {
    if c :| (c == a || Reaches(edges, a, c)) && Reaches(edges, c, c) {
      var all := set i | 0 <= i < |order| :: order[i];
      if c != a {
        StaysInside(edges, all, a, c);
      }
      var j :| 0 <= j < |order| && order[j] == c;
      var first := FirstStep(edges, c, c);
      var earlier := set i | 0 <= i < j :: order[i];
      assert first in order[..j];
      forall x, y | x in earlier && (x, y) in edges
        ensures y in earlier
      {
        var i :| 0 <= i < j && order[i] == x;
        assert y in order[..i];
      }
      if first != c {
        StaysInside(edges, earlier, first, c);
      }
    }
  }

  lemma AcyclicMeansNoneLeads<T(!new)>(edges: set<(T, T)>)
    ensures Acyclic(edges) <==> forall a :: !LeadsToCycle(edges, a)
  {
    if !Acyclic(edges) {
      var a :| Reaches(edges, a, a);
      assert LeadsToCycle(edges, a);
    }
  }

  /** An acyclic graph on finitely many nodes can be listed successors first. */
  lemma {:induction false} AcyclicHasOrder<T(!new)>(edges: set<(T, T)>, nodes: set<T>, order: seq<T>) returns (longer: seq<T>)
    requires Acyclic(edges) && forall e :: e in edges ==> e.1 in nodes
    requires Layered(edges, order) && forall x :: x in order ==> x in nodes
    ensures Layered(edges, longer) && forall x :: x in longer <==> x in nodes
    decreases |nodes| - |order|
  {
    DistinctFits(order, nodes);
    var rest := set x | x in nodes && x !in order;
    if rest == {} {
      assert forall x :: x in nodes && x !in order ==> x in rest;
      longer := order;
    } else {
      if a :| a in rest && !HasNext(edges, rest, a) {
        forall y | (a, y) in edges
          ensures y in order
        {
          assert (a, y).1 in nodes;
        }
        LayeredExtends(edges, order, a);
        DistinctFits(order + [a], nodes);
        longer := AcyclicHasOrder(edges, nodes, order + [a]);
      } else {
        var a :| a in rest;
        EndlessLeadsToCycle(edges, rest, a);
        longer := order;
      }
    }
  }
}
