/** The evaluation plan and the fold over it (internal/alphasfile/eval.go). What an expression computes
    is left open: each producer is a function of the environment it is evaluated in. */
module Evaluation {
  import opened Paths
  import opened Wrappers
  import opened Dag

  function InOrder(nodes: seq<Producer>): seq<string> {
    seq(|nodes|, i requires 0 <= i < |nodes| => nodes[i].id)
  }

  lemma InOrderHolds(nodes: seq<Producer>)
    ensures Done(InOrder(nodes)) == Ids(nodes)
  {
    var ids := InOrder(nodes);
    forall x | x in Ids(nodes)
      ensures x in ids
    {
      var i :| 0 <= i < |nodes| && nodes[i].id == x;
      assert ids[i] == x;
    }
  }

  /** Sorts the producer graph of the services; fails before anything is evaluated. */
  method Plan(nodes: seq<Producer>) returns (r: Result<seq<string>, seq<string>>, deps: Deps)
    requires forall n, d :: n in nodes && d in n.parts ==> d in Ids(nodes)
    ensures deps.Keys == Ids(nodes) && forall id, d :: id in deps ==> (d in deps[id] <==> DependsOn(nodes, id, d))
    ensures r.Ok? <==> Distinct(InOrder(nodes)) && Acyclic(Edges(deps))
    ensures r.Ok? ==> LeastFirst(deps, r.value) && Layered(Edges(deps), r.value) && Done(r.value) == deps.Keys
    ensures r.Err? ==> forall x :: x in r.error <==> LeadsToCycle(Edges(deps), x)
  {
    deps := NewGraph(nodes);
    InOrderHolds(nodes);
    forall id, d | id in deps && d in deps[id]
      ensures d in deps
    {
      PartsAreNodes(nodes, id, d);
    }
    r := TopoSort(InOrder(nodes), deps);
  }

  lemma PartsAreNodes(nodes: seq<Producer>, id: string, d: string)
    requires forall n, e :: n in nodes && e in n.parts ==> e in Ids(nodes)
    requires DependsOn(nodes, id, d)
    ensures d in Ids(nodes)
  {
    if HasPart(nodes, |nodes|, id, d) {
      var j :| 0 <= j < |nodes| && nodes[j].id == id && d in nodes[j].parts;
      assert nodes[j] in nodes;
    }
  }

  // ---- the fold ----

  /** Whether `a` and `b` look alike to `id`: on its dependencies, on its own slot, and on everything
      no producer writes. */
  ghost predicate SameFor<V(!new)>(deps: Deps, id: string, a: map<string, V>, b: map<string, V>)
    requires id in deps
  {
    forall x :: x in deps[id] || x == id || x !in deps ==> SameAt(a, b, x)
  }

  ghost predicate SameAt<V(!new)>(a: map<string, V>, b: map<string, V>, x: string) {
    (x in a <==> x in b) && (x in a ==> a[x] == b[x])
  }

  /** Producers read only what the graph has an edge for. */
  ghost predicate ReadsOnlyDeps<V(!new), E(!new)>(eval: (string, map<string, V>) -> Result<V, E>, deps: Deps) {
    forall id, a, b {:trigger eval(id, a), eval(id, b)} :: id in deps && SameFor(deps, id, a, b) ==> eval(id, a) == eval(id, b)
  }

  /** The environment after the producers in `order`, from the initial one; the first error ends it. */
  function Fold<V, E>(eval: (string, map<string, V>) -> Result<V, E>, seed: map<string, V>, order: seq<string>): Result<map<string, V>, E> {
    if order == [] then Ok(seed)
    else
      var last := order[|order| - 1];
      match Fold(eval, seed, order[..|order| - 1])
      case Err(e) => Err(e)
      case Ok(env) =>
        match eval(last, env)
        case Err(e) => Err(e)
        case Ok(v) => Ok(env[last := v])
  }

  class Resolver<V, E> {
    const eval: (string, map<string, V>) -> Result<V, E>
    var slots: map<string, V>

    constructor (eval: (string, map<string, V>) -> Result<V, E>, seed: map<string, V>)
      ensures this.eval == eval && slots == seed
    {
      this.eval := eval;
      slots := seed;
    }

    /** Evaluates each producer once, publishing its value for those that follow. */
    method Compute(order: seq<string>) returns (failed: Option<E>)
      modifies this
      ensures match Fold(eval, old(slots), order)
              case Ok(env) => failed == None && slots == env
              case Err(e) => failed == Some(e)
    {
      ghost var seed := slots;
      for i := 0 to |order|
        invariant Fold(eval, seed, order[..i]) == Ok(slots)
      {
        var v := eval(order[i], slots);
        assert order[..i + 1][..i] == order[..i];
        if v.Err? {
          FoldFails(eval, seed, order, i + 1);
          return Some(v.error);
        }
        slots := slots[order[i] := v.value];
      }
      assert order[..|order|] == order;
      return None;
    }
  }

  lemma {:induction false} FoldFails<V, E>(eval: (string, map<string, V>) -> Result<V, E>, seed: map<string, V>, order: seq<string>, k: nat)
    requires k <= |order| && Fold(eval, seed, order[..k]).Err?
    ensures Fold(eval, seed, order) == Fold(eval, seed, order[..k])
    decreases |order| - k
  {
    if k < |order| {
      assert order[..k + 1][..k] == order[..k];
      FoldFails(eval, seed, order, k + 1);
    } else {
      assert order[..k] == order;
    }
  }

  // ---- the equations ----

  /** The environment as `id` finds it: everything final but its own slot. */
  ghost function Before<V>(env: map<string, V>, seed: map<string, V>, id: string): map<string, V> {
    if id in seed then env[id := seed[id]] else env - {id}
  }

  /** The recursive equations: every producer has the value its expression has where its
      dependencies have theirs; what no producer writes is as it was. */
  ghost predicate Solves<V, E>(eval: (string, map<string, V>) -> Result<V, E>, deps: Deps, seed: map<string, V>, env: map<string, V>) {
    && env.Keys == seed.Keys + deps.Keys
    && (forall x :: x in env && x !in deps ==> env[x] == seed[x])
    && (forall id :: id in deps ==> eval(id, Before(env, seed, id)) == Ok(env[id]))
  }

  /** `part` has what `env` has for the producers in `done`, and is untouched elsewhere. */
  ghost predicate Partly<V(!new)>(deps: Deps, seed: map<string, V>, done: seq<string>, part: map<string, V>, env: map<string, V>) {
    forall x :: if x in done then x in part && x in env && part[x] == env[x] else SameAt(part, seed, x)
  }

  lemma {:induction false} FoldTouchesOrder<V(!new), E>(eval: (string, map<string, V>) -> Result<V, E>, seed: map<string, V>, order: seq<string>)
    requires Fold(eval, seed, order).Ok?
    ensures forall x :: if x in order then x in Fold(eval, seed, order).value else SameAt(Fold(eval, seed, order).value, seed, x)
  {
    if order != [] {
      FoldTouchesOrder(eval, seed, order[..|order| - 1]);
      assert order == order[..|order| - 1] + [order[|order| - 1]];
    }
  }

  ghost predicate Covers(deps: Deps, order: seq<string>) {
    Layered(Edges(deps), order) && forall x :: x in order <==> x in deps
  }

  /** When its turn comes, a producer finds what it reads as it will be in the end. */
  lemma FindsFinal<V(!new)>(deps: Deps, seed: map<string, V>, done: seq<string>, part: map<string, V>, env: map<string, V>, id: string)
    requires Partly(deps, seed, done, part, env) && id in deps && id !in done && (forall d :: d in deps[id] ==> d in done)
    requires forall x :: x in done ==> x in deps
    requires forall x :: x !in deps ==> SameAt(env, seed, x)
    ensures SameFor(deps, id, part, Before(env, seed, id))
  {
    var before := Before(env, seed, id);
    forall x | x in deps[id] || x == id || x !in deps
      ensures SameAt(part, before, x)
    {
    }
  }

  lemma {:induction false} FoldIsPartly<V(!new), E(!new)>(eval: (string, map<string, V>) -> Result<V, E>, deps: Deps, seed: map<string, V>,
                                                          order: seq<string>, env: map<string, V>)
    requires ReadsOnlyDeps(eval, deps) && Layered(Edges(deps), order) && (forall x :: x in order ==> x in deps)
    requires Solves(eval, deps, seed, env)
    ensures Fold(eval, seed, order).Ok? && Partly(deps, seed, order, Fold(eval, seed, order).value, env)
  {
    if order != [] {
      var n := |order| - 1;
      var before, last := order[..n], order[n];
      assert order == before + [last];
      LayeredPrefix(Edges(deps), order, n);
      FoldIsPartly(eval, deps, seed, before, env);
      DepsAreOut(deps, order);
      FindsFinal(deps, seed, before, Fold(eval, seed, before).value, env, last);
    }
  }

  lemma DepsAreOut(deps: Deps, order: seq<string>)
    requires order != [] && Layered(Edges(deps), order) && order[|order| - 1] in deps
    ensures var n := |order| - 1; order[n] !in order[..n] && forall d :: d in deps[order[n]] ==> d in order[..n]
  {
    var n := |order| - 1;
    forall d | d in deps[order[n]]
      ensures d in order[..n]
    {
      assert (order[n], d) in Edges(deps);
    }
  }

  /** Each producer, run against the final environment, gives what the fold gave it. */
  lemma {:induction false} FoldSolves<V(!new), E(!new)>(eval: (string, map<string, V>) -> Result<V, E>, deps: Deps, seed: map<string, V>,
                                                        order: seq<string>, env: map<string, V>)
    requires ReadsOnlyDeps(eval, deps) && Layered(Edges(deps), order) && (forall x :: x in order ==> x in deps)
    requires Fold(eval, seed, order).Ok? && Partly(deps, seed, order, Fold(eval, seed, order).value, env)
    requires forall x :: x !in deps ==> SameAt(env, seed, x)
    ensures forall id :: id in order ==> id in env && eval(id, Before(env, seed, id)) == Ok(env[id])
  {
    if order != [] {
      var n := |order| - 1;
      var before, last := order[..n], order[n];
      assert order == before + [last];
      LayeredPrefix(Edges(deps), order, n);
      DepsAreOut(deps, order);
      var part := Fold(eval, seed, before).value;
      FoldTouchesOrder(eval, seed, before);
      assert Partly(deps, seed, before, part, env) by {
        forall x
          ensures if x in before then x in part && x in env && part[x] == env[x] else SameAt(part, seed, x)
        {
          assert x in before ==> x in order;
        }
      }
      FoldSolves(eval, deps, seed, before, env);
      FindsFinal(deps, seed, before, part, env, last);
    }
  }

  /** Folding over any topological order gives an environment exactly when it solves the equations,
      which do not mention the order. */
  lemma FoldIffSolves<V(!new), E(!new)>(eval: (string, map<string, V>) -> Result<V, E>, deps: Deps, seed: map<string, V>,
                                        order: seq<string>, env: map<string, V>)
    requires ReadsOnlyDeps(eval, deps) && Covers(deps, order)
    ensures Fold(eval, seed, order) == Ok(env) <==> Solves(eval, deps, seed, env)
  {
    if Solves(eval, deps, seed, env) {
      FoldIsPartly(eval, deps, seed, order, env);
      assert Fold(eval, seed, order).value == env;
    }
    if Fold(eval, seed, order) == Ok(env) {
      FoldTouchesOrder(eval, seed, order);
      FoldSolves(eval, deps, seed, order, env);
    }
  }

  /** The result does not depend on which topological order is folded over, and neither does success. */
  lemma OrderDoesNotMatter<V(!new), E(!new)>(eval: (string, map<string, V>) -> Result<V, E>, deps: Deps, seed: map<string, V>,
                                             one: seq<string>, other: seq<string>)
    requires ReadsOnlyDeps(eval, deps) && Covers(deps, one) && Covers(deps, other)
    ensures Fold(eval, seed, one).Ok? <==> Fold(eval, seed, other).Ok?
    ensures Fold(eval, seed, one).Ok? ==> Fold(eval, seed, one) == Fold(eval, seed, other)
  {
    forall env
      ensures Fold(eval, seed, one) == Ok(env) <==> Fold(eval, seed, other) == Ok(env)
    {
      FoldIffSolves(eval, deps, seed, one, env);
      FoldIffSolves(eval, deps, seed, other, env);
    }
    if Fold(eval, seed, one).Ok? {
      assert Fold(eval, seed, other) == Ok(Fold(eval, seed, one).value);
    }
    if Fold(eval, seed, other).Ok? {
      assert Fold(eval, seed, one) == Ok(Fold(eval, seed, other).value);
    }
  }

  /** No producer reads a value that is overwritten later. */
  lemma ReadsAreFinal<V(!new), E(!new)>(eval: (string, map<string, V>) -> Result<V, E>, deps: Deps, seed: map<string, V>,
                                        order: seq<string>, i: nat, d: string)
    requires Covers(deps, order) && i < |order| && d in deps[order[i]] && Fold(eval, seed, order).Ok?
    ensures Fold(eval, seed, order[..i]).Ok? && d in Fold(eval, seed, order[..i]).value && d in Fold(eval, seed, order).value
    ensures Fold(eval, seed, order[..i]).value[d] == Fold(eval, seed, order).value[d]
  {
    assert order[i] in order && (order[i], d) in Edges(deps);
    assert d in order[..i];
    assert order[..|order|] == order;
    StaysPut(eval, seed, order, i, |order|, d);
  }

  lemma {:induction false} StaysPut<V(!new), E(!new)>(eval: (string, map<string, V>) -> Result<V, E>, seed: map<string, V>,
                                                      order: seq<string>, i: nat, k: nat, d: string)
    requires i <= k <= |order| && d in order[..i] && (forall a, b :: 0 <= a < b < |order| ==> order[a] != order[b])
    requires Fold(eval, seed, order[..k]).Ok?
    ensures Fold(eval, seed, order[..i]).Ok? && d in Fold(eval, seed, order[..i]).value && d in Fold(eval, seed, order[..k]).value
    ensures Fold(eval, seed, order[..i]).value[d] == Fold(eval, seed, order[..k]).value[d]
    decreases k
  {
    if i < k {
      assert order[..k][..k - 1] == order[..k - 1];
      StaysPut(eval, seed, order, i, k - 1, d);
    } else {
      FoldTouchesOrder(eval, seed, order[..i]);
    }
  }
}
