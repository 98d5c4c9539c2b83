/** One-shot barriers (internal/barrier) and the precedence graphs that fire them
    (internal/lifecycle). */
module Lifecycle {
  import opened Paths

  class Barrier {
    var fired: bool

    constructor ()
      ensures !fired
    {
      fired := false;
    }

    /** Idempotent, and never undone. */
    method Trigger()
      modifies this
      ensures fired
    {
      fired := true;
    }
  }

  /** Reaching `to` implies that `from` has been reached. */
  datatype Edge<S> = Edge(from: S, to: S)

  /** The edges that count: both ends must be declared states. */
  ghost function Declared<S(!new)>(states: seq<S>, edges: seq<Edge<S>>): set<(S, S)> {
    set e | e in edges && e.from in states && e.to in states :: (e.from, e.to)
  }

  /** The states that fire together with `s`, other than by naming `s` itself. */
  ghost function Preds<S(!new)>(states: seq<S>, edges: seq<Edge<S>>, s: S): set<S> {
    set p | p in states && Reaches(Declared(states, edges), p, s)
  }

  function At<S(==)>(direct: map<S, seq<S>>, node: S): seq<S> {
    if node in direct then direct[node] else []
  }

  ghost function EdgesOf<S(!new)>(direct: map<S, seq<S>>): set<(S, S)> {
    set to, from | to in direct && from in direct[to] :: (from, to)
  }

  ghost predicate Lists<T(!new)>(s: seq<T>, elements: set<T>) {
    && (forall i, j :: 0 <= i < j < |s| ==> s[i] != s[j])
    && (forall x :: x in s <==> x in elements)
  }

  /** Adds to `visited`, and appends to `out`, every state with a route to `node` that
      `visited` does not already close off. */
  method Visit<S(==, !new)>(direct: map<S, seq<S>>, node: S, visited: set<S>, out: seq<S>, ghost nodes: set<S>)
    returns (visited': set<S>, out': seq<S>)
    requires forall to, from :: to in direct && from in direct[to] ==> from in nodes
    requires visited <= nodes && Lists(out, visited)
    ensures visited <= visited' <= nodes && Lists(out', visited')
    ensures forall p :: p in At(direct, node) ==> p in visited'
    ensures forall x, p :: x in visited' - visited && p in At(direct, x) ==> p in visited'
    ensures forall x :: x in visited' - visited ==> Reaches(EdgesOf(direct), x, node)
    decreases |nodes - visited|
  {
    visited', out' := visited, out;
    var before := At(direct, node);
    for k := 0 to |before|
      invariant visited <= visited' <= nodes && Lists(out', visited')
      invariant forall i :: 0 <= i < k ==> before[i] in visited'
      invariant forall x, p :: x in visited' - visited && p in At(direct, x) ==> p in visited'
      invariant forall x :: x in visited' - visited ==> Reaches(EdgesOf(direct), x, node)
    {
      var p := before[k];
      if p !in visited' {
        ghost var atStart := visited';
        var marked := visited' + {p};
        assert nodes - marked < nodes - visited;
        Shrinks(nodes - marked, nodes - visited);
        visited', out' := Visit(direct, p, marked, out' + [p], nodes);
        assert (p, node) in EdgesOf(direct);
        forall x | x in visited' - visited
          ensures Reaches(EdgesOf(direct), x, node)
        {
          if x in visited' - marked {
            Append(EdgesOf(direct), x, p, node);
          } else if x == p {
            OneStep(EdgesOf(direct), p, node);
          }
        }
      }
    }
  }

  class Def<S(==, !new)> {
    const states: seq<S>
    ghost const edges: seq<Edge<S>>
    const preds: map<S, seq<S>>

    /** The transitive predecessors of every state, computed once, each listed once. */
    ghost predicate Valid() {
      && preds.Keys == (set s | s in states)
      && forall s :: s in preds ==> Lists(preds[s], Preds(states, edges, s))
    }

    constructor (states: seq<S>, edges: seq<Edge<S>>)
      ensures Valid() && this.states == states && this.edges == edges
    {
      var direct: map<S, seq<S>> := map[];
      for i := 0 to |edges|
        invariant EdgesOf(direct) == Declared(states, edges[..i])
      {
        var e := edges[i];
        ghost var before := direct;
        if e.from in states && e.to in states {
          direct := direct[e.to := At(direct, e.to) + [e.from]];
          assert EdgesOf(direct) == EdgesOf(before) + {(e.from, e.to)};
        }
        assert edges[..i + 1] == edges[..i] + [e];
      }
      assert edges[..|edges|] == edges;
      var table: map<S, seq<S>> := map[];
      for i := 0 to |states|
        invariant table.Keys == set s | s in states[..i]
        invariant forall s :: s in table ==> Lists(table[s], Preds(states, edges, s))
      {
        ghost var nodes := set s | s in states;
        assert forall to, from :: to in direct && from in direct[to] ==> (from, to) in EdgesOf(direct);
        var visited, out := Visit(direct, states[i], {}, [], nodes);
        forall p
          ensures p in visited <==> p in Preds(states, edges, states[i])
        {
          if p in Preds(states, edges, states[i]) {
            ReachedIsVisited(direct, states[i], visited, p);
          }
        }
        table := table[states[i] := out];
        assert states[..i + 1] == states[..i] + [states[i]];
      }
      assert states[..|states|] == states;
      this.states := states;
      this.edges := edges;
      preds := table;
    }
  }

  /** A set closed under direct predecessors that holds those of `node` holds all of them. */
  lemma {:induction false} ReachedIsVisited<S(!new)>(direct: map<S, seq<S>>, node: S, visited: set<S>, p: S)
    requires forall q :: q in At(direct, node) ==> q in visited
    requires forall x, q :: x in visited && q in At(direct, x) ==> q in visited
    requires Reaches(EdgesOf(direct), p, node)
    ensures p in visited
  {
    var route :| Route(EdgesOf(direct), route, p, node);
    BackAlongRoute(direct, node, visited, route);
  }

  lemma {:induction false} BackAlongRoute<S(!new)>(direct: map<S, seq<S>>, node: S, visited: set<S>, route: seq<S>)
    requires forall q :: q in At(direct, node) ==> q in visited
    requires forall x, q :: x in visited && q in At(direct, x) ==> q in visited
    requires |route| >= 2 && Route(EdgesOf(direct), route, route[0], node)
    ensures route[0] in visited
  {
    assert (route[0], route[1]) in EdgesOf(direct);
    if |route| > 2 {
      BackAlongRoute(direct, node, visited, route[1..]);
    }
  }

  /** One entity's barriers, one per state of its Def. */
  class Instance<S(==, !new)> {
    const def: Def<S>
    const barriers: map<S, Barrier>

    ghost predicate Valid() {
      && def.Valid()
      && barriers.Keys == (set s | s in def.states)
      && forall s, t :: s in barriers && t in barriers && barriers[s] == barriers[t] ==> s == t
    }

    ghost function Fired(): set<S>
      reads barriers.Values
    {
      set s | s in barriers && barriers[s].fired
    }

    constructor (def: Def<S>)
      requires def.Valid()
      ensures Valid() && this.def == def && Fired() == {}
      ensures fresh(barriers.Values)
    {
      var made: map<S, Barrier> := map[];
      for i := 0 to |def.states|
        invariant made.Keys == set s | s in def.states[..i]
        invariant fresh(made.Values)
        invariant forall s :: s in made ==> !made[s].fired
        invariant forall s, t :: s in made && t in made && made[s] == made[t] ==> s == t
      {
        var b := new Barrier();
        assert forall s :: s in made ==> made[s] in made.Values;
        made := made[def.states[i] := b];
        assert def.states[..i + 1] == def.states[..i] + [def.states[i]];
      }
      assert def.states[..|def.states|] == def.states;
      this.def := def;
      barriers := made;
    }

    /** Fires `s` and everything that precedes it; an undeclared state fires nothing. */
    method Reach(s: S)
      requires Valid()
      modifies barriers.Values
      ensures Fired() == old(Fired()) + Fires(def.states, def.edges, s)
    {
      if s in barriers {
        var before := def.preds[s];
        assert Lists(before, Preds(def.states, def.edges, s));
        for k := 0 to |before|
          invariant Fired() == old(Fired()) + set p | p in before[..k]
        {
          assert before[k] in Preds(def.states, def.edges, s);
          TriggerOne(before[k]);
          assert before[..k + 1] == before[..k] + [before[k]];
        }
        assert before[..|before|] == before;
        TriggerOne(s);
      }
    }

    method TriggerOne(s: S)
      requires Valid() && s in barriers
      modifies barriers[s]
      ensures Fired() == old(Fired()) + {s}
    {
      barriers[s].Trigger();
    }

    method Reached(s: S) returns (r: bool)
      requires Valid()
      ensures r <==> s in Fired()
    {
      r := s in barriers && barriers[s].fired;
    }
  }

  /** What one Reach call fires. */
  ghost function Fires<S(!new)>(states: seq<S>, edges: seq<Edge<S>>, s: S): set<S> {
    if s in states then {s} + Preds(states, edges, s) else {}
  }

  /** What a sequence of Reach calls on a fresh instance has fired. */
  ghost function FiredAfter<S(!new)>(states: seq<S>, edges: seq<Edge<S>>, calls: seq<S>): set<S> {
    if calls == [] then {}
    else FiredAfter(states, edges, calls[..|calls| - 1]) + Fires(states, edges, calls[|calls| - 1])
  }

  /** The fired set is the downward closure of the declared states reached, whatever the order. */
  lemma {:induction false} FiredIsDownwardClosure<S(!new)>(states: seq<S>, edges: seq<Edge<S>>, calls: seq<S>, p: S)
    ensures p in FiredAfter(states, edges, calls) <==>
            p in states && exists s :: s in calls && s in states && (p == s || Reaches(Declared(states, edges), p, s))
  {
    if calls != [] {
      FiredIsDownwardClosure(states, edges, calls[..|calls| - 1], p);
      assert calls == calls[..|calls| - 1] + [calls[|calls| - 1]];
    }
  }

  /** No observer sees a state fired whose predecessor is not. */
  lemma FiredIsPredecessorClosed<S(!new)>(states: seq<S>, edges: seq<Edge<S>>, calls: seq<S>, p: S, s: S)
    requires (p, s) in Declared(states, edges)
    requires s in FiredAfter(states, edges, calls)
    ensures p in FiredAfter(states, edges, calls)
  {
    FiredIsDownwardClosure(states, edges, calls, s);
    var r :| r in calls && r in states && (s == r || Reaches(Declared(states, edges), s, r));
    Prepend(Declared(states, edges), p, s, r);
    FiredIsDownwardClosure(states, edges, calls, p);
  }
}
