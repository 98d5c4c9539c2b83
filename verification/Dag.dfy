/** The producer graph of the evaluator and its sort (internal/alphasfile/dag.go). */
module Dag {
  import opened Paths
  import opened Sorting
  import opened Wrappers

  /** A producer: the ids its expressions name, resolved to node ids, and the nodes it always waits
      for (the values an import passes to an input). */
  datatype Producer = Producer(id: string, refs: seq<string>, parts: seq<string>)

  type Deps = map<string, set<string>>

  function Ids(nodes: seq<Producer>): set<string> {
    set n | n in nodes :: n.id
  }

  predicate HasPart(nodes: seq<Producer>, k: nat, id: string, d: string)
    requires k <= |nodes|
  {
    exists j :: 0 <= j < k && nodes[j].id == id && d in nodes[j].parts
  }

  predicate Names(nodes: seq<Producer>, k: nat, id: string, d: string)
    requires k <= |nodes|
  {
    exists j :: 0 <= j < k && nodes[j].id == id && d in nodes[j].refs
  }

  /** References to producers outside the graph, and to the producer itself, are no dependencies.
      Nodes that share an id share its dependencies. */
  predicate DependsOn(nodes: seq<Producer>, id: string, d: string) {
    DependsSoFar(nodes, |nodes|, id, d)
  }

  method NewGraph(nodes: seq<Producer>) returns (deps: Deps)
    ensures deps.Keys == Ids(nodes)
    ensures forall id, d :: id in deps ==> (d in deps[id] <==> DependsOn(nodes, id, d))
  {
    deps := AddNodes(nodes);
    for k := 0 to |nodes|
      invariant deps.Keys == Ids(nodes)
      invariant forall id, d :: id in deps ==> (d in deps[id] <==> DependsSoFar(nodes, k, id, d))
    {
      ghost var before := deps;
      deps := AddRefs(nodes, k, deps);
      forall id, d | id in deps
        ensures d in deps[id] <==> DependsSoFar(nodes, k + 1, id, d)
      {
        assert d in before[id] <==> DependsSoFar(nodes, k, id, d);
        assert d in deps[id] <==> d in before[id] || (id == nodes[k].id && d in nodes[k].refs && d != id && d in Ids(nodes));
        NamesOneMore(nodes, k, id, d);
      }
    }
  }

  predicate DependsSoFar(nodes: seq<Producer>, k: nat, id: string, d: string)
    requires k <= |nodes|
  {
    HasPart(nodes, |nodes|, id, d) || (Names(nodes, k, id, d) && d != id && d in Ids(nodes))
  }

  lemma NamesOneMore(nodes: seq<Producer>, k: nat, id: string, d: string)
    requires k < |nodes|
    ensures Names(nodes, k + 1, id, d) <==> Names(nodes, k, id, d) || (nodes[k].id == id && d in nodes[k].refs)
  {
  }

  method AddNodes(nodes: seq<Producer>) returns (deps: Deps)
    ensures deps.Keys == Ids(nodes)
    ensures forall id, d :: id in deps ==> (d in deps[id] <==> HasPart(nodes, |nodes|, id, d))
  {
    deps := map[];
    for k := 0 to |nodes|
      invariant deps.Keys == set j | 0 <= j < k :: nodes[j].id
      invariant forall id, d :: id in deps ==> (d in deps[id] <==> HasPart(nodes, k, id, d))
    {
      var n := nodes[k];
      ghost var before := deps;
      deps := deps[n.id := (if n.id in deps then deps[n.id] else {}) + (set d | d in n.parts)];
      forall id, d | id in deps
        ensures d in deps[id] <==> HasPart(nodes, k + 1, id, d)
      {
        assert HasPart(nodes, k + 1, id, d) <==> HasPart(nodes, k, id, d) || (n.id == id && d in n.parts);
        assert id !in before ==> !HasPart(nodes, k, id, d);
      }
    }
  }

  method AddRefs(nodes: seq<Producer>, k: nat, before: Deps) returns (deps: Deps)
    requires k < |nodes| && before.Keys == Ids(nodes)
    ensures deps.Keys == before.Keys
    ensures forall id, d :: id in deps ==>
        (d in deps[id] <==> d in before[id] || (id == nodes[k].id && d in nodes[k].refs && d != id && d in Ids(nodes)))
  {
    var n := nodes[k];
    assert n in nodes;
    deps := before[n.id := before[n.id] + (set d | d in n.refs && d != n.id && d in before.Keys)];
  }

  /** An edge runs from a node to each of its dependencies. */
  ghost function Edges(deps: Deps): set<(string, string)> {
    set id, d | id in deps && d in deps[id] :: (id, d)
  }

  ghost predicate Local(deps: Deps) {
    forall id, d :: id in deps && d in deps[id] ==> d in deps
  }

  function Done(out: seq<string>): set<string> {
    set x | x in out
  }

  predicate Met(deps: Deps, done: set<string>, x: string)
    requires x in deps
  {
    forall d :: d in deps[x] ==> d in done
  }

  /** The nodes that are not done while everything they wait for is. */
  function FreeAt(deps: Deps, done: set<string>): set<string> {
    set x | x in deps && x !in done && Met(deps, done, x)
  }

  /** Every node comes out when its dependencies are, and before any greater node that could. */
  ghost predicate LeastFirst(deps: Deps, order: seq<string>) {
    forall i :: 0 <= i < |order| ==> IsLeast(FreeAt(deps, Done(order[..i])), order[i])
  }

  ghost predicate IsLeast(s: set<string>, x: string) {
    x in s && forall y :: y in s && y != x ==> Less(x, y)
  }

  // ---- Kahn's algorithm ----

  /** `rev` lists, for each id, the nodes that wait for it. */
  ghost predicate IsReverse(deps: Deps, rev: map<string, seq<string>>) {
    rev.Keys == deps.Keys && forall d, x :: d in rev ==> (x in rev[d] <==> x in deps && d in deps[x])
  }

  /** The nodes outside `rest` are listed with what they wait for. */
  ghost predicate ReverseSoFar(deps: Deps, rest: set<string>, rev: map<string, seq<string>>) {
    rev.Keys == deps.Keys && forall d, x :: d in rev ==> (x in rev[d] <==> x in deps && x !in rest && d in deps[x])
  }

  lemma ReverseStep(deps: Deps, rest: set<string>, id: string, before: map<string, seq<string>>, rev: map<string, seq<string>>)
    requires ReverseSoFar(deps, rest, before) && id in rest && id in deps && rev.Keys == before.Keys
    requires forall d :: d in rev ==> rev[d] == before[d] + if d in deps[id] then [id] else []
    ensures ReverseSoFar(deps, rest - {id}, rev)
  {
    forall d, x | d in rev
      ensures x in rev[d] <==> x in deps && x !in rest - {id} && d in deps[x]
    {
      assert x in rev[d] <==> x in before[d] || (x == id && d in deps[id]);
    }
  }

  /** `indeg` counts what each node waits for. */
  method Count(deps: Deps) returns (indeg: map<string, nat>, rev: map<string, seq<string>>)
    requires Local(deps)
    ensures indeg.Keys == deps.Keys && forall x :: x in deps ==> indeg[x] == |deps[x]|
    ensures IsReverse(deps, rev)
  {
    indeg, rev := map[], map x | x in deps :: [];
    var rest := deps.Keys;
    assert ReverseSoFar(deps, rest, rev);
    while rest != {}
      invariant rest <= deps.Keys && indeg.Keys == deps.Keys - rest && ReverseSoFar(deps, rest, rev)
      invariant forall x :: x in indeg ==> indeg[x] == |deps[x]|
    {
      var id :| id in rest;
      ghost var before := rev;
      var n;
      n, rev := CountOne(deps, id, rev);
      ReverseStep(deps, rest, id, before, rev);
      indeg, rest := indeg[id := n], rest - {id};
    }
  }

  method CountOne(deps: Deps, id: string, before: map<string, seq<string>>) returns (n: nat, rev: map<string, seq<string>>)
    requires Local(deps) && id in deps && before.Keys == deps.Keys
    ensures n == |deps[id]| && rev.Keys == before.Keys
    ensures forall d :: d in rev ==> rev[d] == before[d] + if d in deps[id] then [id] else []
  {
    n, rev := 0, before;
    var left := deps[id];
    while left != {}
      invariant left <= deps[id] && n + |left| == |deps[id]| && rev.Keys == before.Keys
      invariant forall d :: d in rev ==> rev[d] == before[d] + if d in deps[id] - left then [id] else []
    {
      var d :| d in left;
      rev := rev[d := rev[d] + [id]];
      n, left := n + 1, left - {d};
    }
  }

  ghost predicate Closed(deps: Deps, done: set<string>) {
    done <= deps.Keys && forall x, d :: x in done && d in deps[x] ==> d in done
  }

  ghost predicate Counted(deps: Deps, done: set<string>, indeg: map<string, nat>) {
    indeg.Keys == deps.Keys && forall x :: x in deps ==> indeg[x] == |deps[x] - done|
  }

  function Zeros(indeg: map<string, nat>): set<string> {
    set x | x in indeg && indeg[x] == 0
  }

  /** Counts are zero for what is done or free. */
  lemma ZeroIffFree(deps: Deps, done: set<string>, indeg: map<string, nat>)
    requires Counted(deps, done, indeg) && Closed(deps, done)
    ensures Zeros(indeg) == FreeAt(deps, done) + done
  {
    forall x | x in deps
      ensures indeg[x] == 0 <==> Met(deps, done, x)
    {
      if d :| d in deps[x] && d !in done {
        assert d in deps[x] - done;
      } else {
        assert deps[x] - done == {};
      }
    }
  }

  function Waiters(deps: Deps, id: string): set<string> {
    set x | x in deps && id in deps[x]
  }

  /** When `id` is done, each of its waiters waits for one node less. */
  lemma CountsAfter(deps: Deps, done: set<string>, id: string, before: map<string, nat>, indeg: map<string, nat>)
    requires Counted(deps, done, before) && id !in done && indeg.Keys == deps.Keys
    requires forall x :: x in deps ==> indeg[x] + (if x in Waiters(deps, id) then 1 else 0) == before[x]
    ensures Counted(deps, done + {id}, indeg)
  {
    forall x | x in deps
      ensures indeg[x] == |deps[x] - (done + {id})|
    {
      assert deps[x] - (done + {id}) == deps[x] - done - {id};
    }
  }

  lemma WaitersWait(deps: Deps, done: set<string>, id: string, indeg: map<string, nat>)
    requires Counted(deps, done, indeg) && id !in done
    ensures forall x :: x in Waiters(deps, id) ==> indeg[x] > 0
  {
    forall x | x in Waiters(deps, id)
      ensures indeg[x] > 0
    {
      assert id in deps[x] - done;
    }
  }

  function Woken(deps: Deps, id: string, before: map<string, nat>): set<string>
    requires before.Keys == deps.Keys
  {
    set x | x in Waiters(deps, id) && before[x] == 1
  }

  lemma OneLeft(s: set<string>, id: string)
    requires id in s
    ensures |s| == 1 <==> s <= {id}
  {
    if |s| == 1 && !(s <= {id}) {
      var y :| y in s && y != id;
      assert {id, y} <= s;
      Subset({id, y}, s);
    }
    if s <= {id} {
      assert s == {id};
    }
  }

  lemma FreeAfterAt(deps: Deps, done: set<string>, id: string, x: string)
    requires Closed(deps, done) && id in FreeAt(deps, done) && x in deps
    ensures x in FreeAt(deps, done + {id}) <==>
            (x in FreeAt(deps, done) && x != id) || (x in Waiters(deps, id) && |deps[x] - done| == 1)
  {
    if x in Waiters(deps, id) {
      OneLeft(deps[x] - done, id);
      assert Met(deps, done + {id}, x) <==> deps[x] - done <= {id};
    }
  }

  lemma WokenAt(deps: Deps, done: set<string>, id: string, before: map<string, nat>, x: string)
    requires Counted(deps, done, before)
    ensures x in Woken(deps, id, before) <==> x in Waiters(deps, id) && |deps[x] - done| == 1
  {
  }

  /** So what becomes free are the waiters whose count drops to zero. */
  lemma FreeAfter(deps: Deps, done: set<string>, id: string, before: map<string, nat>)
    requires Counted(deps, done, before) && Closed(deps, done) && id in FreeAt(deps, done)
    ensures FreeAt(deps, done + {id}) == FreeAt(deps, done) - {id} + Woken(deps, id, before)
  {
    var after, expected := FreeAt(deps, done + {id}), FreeAt(deps, done) - {id} + Woken(deps, id, before);
    assert after <= deps.Keys && expected <= deps.Keys;
    forall x | x in deps
      ensures x in after <==> x in expected
    {
      FreeAfterAt(deps, done, id, x);
      WokenAt(deps, done, id, before, x);
    }
  }

  /** Takes one off the counts of the waiting nodes, and queues those left with none. */
  method Decrement(before: map<string, nat>, queue: seq<string>, waiting: seq<string>)
    returns (indeg: map<string, nat>, ready: seq<string>)
    requires Ascending(queue) && Ascending(waiting)
    requires forall x :: x in Done(waiting) ==> x in before && before[x] > 0
    requires forall x :: x in Done(queue) ==> x in before && before[x] == 0
    ensures indeg.Keys == before.Keys
    ensures forall x :: x in before ==> indeg[x] + (if x in Done(waiting) then 1 else 0) == before[x]
    ensures Ascending(ready)
    ensures forall x :: x in Done(ready) <==> x in Done(queue) || (x in Done(waiting) && before[x] == 1)
  {
    indeg, ready := before, queue;
    AscendingIsDistinct(waiting);
    for j := 0 to |waiting|
      invariant indeg.Keys == before.Keys
      invariant forall x :: x in before ==> indeg[x] == before[x] - if x in waiting[..j] then 1 else 0
      invariant Ascending(ready) && forall x :: x in ready <==> x in queue || (x in waiting[..j] && before[x] == 1)
    {
      var next := waiting[j];
      assert next in Done(waiting);
      assert waiting[..j + 1] == waiting[..j] + [next];
      assert forall x :: x in queue ==> x in Done(queue);
      indeg := indeg[next := indeg[next] - 1];
      if indeg[next] == 0 {
        ready := Insert(ready, next);
      }
    }
    assert waiting[..|waiting|] == waiting;
  }

  /** What the loop keeps: the order so far is right, and the counts and the queue match it. */
  ghost predicate Running(deps: Deps, out: seq<string>, indeg: map<string, nat>, ready: seq<string>) {
    && Counted(deps, Done(out), indeg) && Ascending(ready) && Done(ready) == FreeAt(deps, Done(out))
    && LeastFirst(deps, out) && Closed(deps, Done(out)) && Layered(Edges(deps), out)
  }

  lemma BeforeStep(deps: Deps, out: seq<string>, indeg: map<string, nat>, ready: seq<string>)
    requires ready != [] && Running(deps, out, indeg, ready)
    ensures ready[0] in FreeAt(deps, Done(out)) && Ascending(ready[1..])
    ensures forall x :: x in Waiters(deps, ready[0]) ==> x in indeg && indeg[x] > 0
    ensures forall x :: x in Done(ready[1..]) ==> x in indeg && indeg[x] == 0
  {
    TakeLeast(deps, out, ready);
    WaitersWait(deps, Done(out), ready[0], indeg);
    ZeroIffFree(deps, Done(out), indeg);
    forall x | x in Done(ready[1..])
      ensures x in Zeros(indeg)
    {
    }
  }

  /** The effect of Decrement, as the loop sees it. */
  ghost predicate Decremented(deps: Deps, id: string, before: map<string, nat>, queue: set<string>, indeg: map<string, nat>, ready: seq<string>) {
    && indeg.Keys == before.Keys == deps.Keys
    && (forall x :: x in deps ==> indeg[x] + (if x in Waiters(deps, id) then 1 else 0) == before[x])
    && Ascending(ready) && Done(ready) == queue + Woken(deps, id, before)
  }

  lemma DecrementIs(deps: Deps, id: string, before: map<string, nat>, queue: seq<string>, waiting: seq<string>,
                    indeg: map<string, nat>, ready: seq<string>)
    requires Done(waiting) == Waiters(deps, id) && indeg.Keys == before.Keys == deps.Keys && Ascending(ready)
    requires forall x :: x in before ==> indeg[x] + (if x in Done(waiting) then 1 else 0) == before[x]
    requires forall x :: x in Done(ready) <==> x in Done(queue) || (x in Done(waiting) && before[x] == 1)
    ensures Decremented(deps, id, before, Done(queue), indeg, ready)
  {
  }

  lemma AfterStep(deps: Deps, out: seq<string>, indeg: map<string, nat>, ready: seq<string>, indeg': map<string, nat>, ready': seq<string>)
    requires ready != [] && Running(deps, out, indeg, ready)
    requires Decremented(deps, ready[0], indeg, Done(ready[1..]), indeg', ready')
    ensures Running(deps, out + [ready[0]], indeg', ready')
  {
    var done, id := Done(out), ready[0];
    assert Done(out + [id]) == done + {id};
    TakeLeast(deps, out, ready);
    CountsAfter(deps, done, id, indeg, indeg');
    assert Done(ready') == FreeAt(deps, done + {id}) by { FreeAfter(deps, done, id, indeg); }
  }

  method Step(deps: Deps, rev: map<string, seq<string>>, out: seq<string>, indeg: map<string, nat>, ready: seq<string>)
    returns (longer: seq<string>, indeg': map<string, nat>, ready': seq<string>)
    requires IsReverse(deps, rev) && ready != [] && Running(deps, out, indeg, ready)
    ensures ready[0] in deps && ready[0] !in out && longer == out + [ready[0]]
    ensures Running(deps, longer, indeg', ready')
  {
    BeforeStep(deps, out, indeg, ready);
    var waiting := SortedKeys(Done(rev[ready[0]]));
    WaitersAre(deps, rev, ready[0], waiting);
    indeg', ready' := Decrement(indeg, ready[1..], waiting);
    DecrementIs(deps, ready[0], indeg, ready[1..], waiting, indeg', ready');
    AfterStep(deps, out, indeg, ready, indeg', ready');
    longer := out + [ready[0]];
  }

  lemma WaitersAre(deps: Deps, rev: map<string, seq<string>>, id: string, waiting: seq<string>)
    requires IsReverse(deps, rev) && id in deps && Holds(waiting, Done(rev[id]))
    ensures Done(waiting) == Waiters(deps, id)
  {
  }

  /** Succeeds exactly when ids are distinct and the graph has no cycle. Then every node is in the
      order, after its dependencies, least first. Otherwise it names, sorted, exactly the nodes that
      lead to a cycle: none at all if repeated ids are what is wrong. */
  method TopoSort(nodes: seq<string>, deps: Deps) returns (r: Result<seq<string>, seq<string>>)
    requires Local(deps) && deps.Keys == Done(nodes)
    ensures r.Ok? <==> Distinct(nodes) && Acyclic(Edges(deps))
    ensures r.Ok? ==> LeastFirst(deps, r.value) && Layered(Edges(deps), r.value) && Done(r.value) == deps.Keys
    ensures r.Err? ==> Ascending(r.error) && forall x :: x in r.error <==> LeadsToCycle(Edges(deps), x)
  {
    var indeg, rev := Count(deps);
    var ready := SortedKeys(Zeros(indeg));
    var out: seq<string> := [];
    Starts(deps, indeg, ready);
    while ready != []
      invariant Running(deps, out, indeg, ready)
      decreases |deps.Keys - Done(out)|
    {
      ghost var before := out;
      out, indeg, ready := Step(deps, rev, out, indeg, ready);
      LeftShrinks(deps, before, out);
    }
    AtRest(deps, out);
    OutIsDistinct(deps, out);
    DistinctIffAsMany(nodes, out, deps.Keys);
    if |out| != |nodes| {
      var stuck := SortedKeys(indeg.Keys - Zeros(indeg));
      StuckIffPositive(deps, out, indeg);
      return Err(stuck);
    }
    return Ok(out);
  }

  lemma LeftShrinks(deps: Deps, before: seq<string>, out: seq<string>)
    requires |out| == |before| + 1 && out[..|before|] == before && out[|before|] in deps && out[|before|] !in before
    ensures |deps.Keys - Done(out)| < |deps.Keys - Done(before)|
  {
    var id := out[|before|];
    assert out == before + [id];
    assert deps.Keys - Done(out) == deps.Keys - Done(before) - {id};
  }

  predicate Distinct(s: seq<string>) {
    forall i, j :: 0 <= i < j < |s| ==> s[i] != s[j]
  }

  lemma Starts(deps: Deps, indeg: map<string, nat>, ready: seq<string>)
    requires indeg.Keys == deps.Keys && forall x :: x in deps ==> indeg[x] == |deps[x]|
    requires Ascending(ready) && Holds(ready, Zeros(indeg))
    ensures Running(deps, [], indeg, ready)
  {
    forall x | x in deps
      ensures deps[x] - Done([]) == deps[x]
    {
    }
    ZeroIffFree(deps, {}, indeg);
    assert Done([]) == {} && Done(ready) == FreeAt(deps, {});
  }

  /** The head of the queue is the least free node, and taking it keeps the order right. */
  lemma TakeLeast(deps: Deps, out: seq<string>, ready: seq<string>)
    requires Ascending(ready) && ready != [] && Done(ready) == FreeAt(deps, Done(out))
    requires LeastFirst(deps, out) && Closed(deps, Done(out)) && Layered(Edges(deps), out)
    ensures ready[0] in FreeAt(deps, Done(out))
    ensures LeastFirst(deps, out + [ready[0]]) && Closed(deps, Done(out) + {ready[0]}) && Layered(Edges(deps), out + [ready[0]])
    ensures Ascending(ready[1..]) && Done(ready[1..]) == FreeAt(deps, Done(out)) - {ready[0]}
  {
    var id := ready[0];
    assert id in Done(ready);
    forall y | y in Done(ready) && y != id
      ensures Less(id, y)
    {
      var i :| 0 <= i < |ready| && ready[i] == y;
    }
    var longer := out + [id];
    assert longer[..|out|] == out;
    forall i | 0 <= i < |out|
      ensures longer[..i] == out[..i]
    {
    }
    forall x
      ensures x in ready[1..] <==> x in ready && x != id
    {
      TailHolds(ready, x);
    }
    forall y | (id, y) in Edges(deps)
      ensures y in out
    {
      assert y in Done(out);
    }
    LayeredExtends(Edges(deps), out, id);
  }

  lemma OutIsDistinct(deps: Deps, out: seq<string>)
    requires Layered(Edges(deps), out) && Closed(deps, Done(out))
    ensures Distinct(out) && Done(out) <= deps.Keys
  {
  }

  /** When nothing is free, what is not out waits for something else that is not out. */
  lemma AtRest(deps: Deps, out: seq<string>)
    requires Local(deps) && FreeAt(deps, Done(out)) == {} && Closed(deps, Done(out)) && Layered(Edges(deps), out)
    ensures forall x :: LeadsToCycle(Edges(deps), x) <==> x in deps && x !in Done(out)
    ensures Acyclic(Edges(deps)) <==> deps.Keys == Done(out)
  {
    var rest := deps.Keys - Done(out);
    forall x | x in rest
      ensures HasNext(Edges(deps), rest, x)
    {
      assert x !in FreeAt(deps, Done(out));
      var d :| d in deps[x] && d !in Done(out);
      assert (x, d) in Edges(deps);
    }
    forall x
      ensures LeadsToCycle(Edges(deps), x) <==> x in rest
    {
      if x in rest {
        EndlessLeadsToCycle(Edges(deps), rest, x);
      } else if x in Done(out) {
        LayeredHasNoCycle(Edges(deps), out, x);
      } else if LeadsToCycle(Edges(deps), x) {
        var c :| (c == x || Reaches(Edges(deps), x, c)) && Reaches(Edges(deps), c, c);
        var next := FirstStep(Edges(deps), x, c);
      }
    }
    AcyclicMeansNoneLeads(Edges(deps));
  }

  lemma StuckIffPositive(deps: Deps, out: seq<string>, indeg: map<string, nat>)
    requires Local(deps) && Running(deps, out, indeg, [])
    ensures forall x :: x in indeg.Keys - Zeros(indeg) <==> LeadsToCycle(Edges(deps), x)
  {
    AtRest(deps, out);
    ZeroIffFree(deps, Done(out), indeg);
  }

  lemma {:induction false} CountDistinct(s: seq<string>)
    ensures |Done(s)| <= |s|
    ensures |Done(s)| == |s| <==> Distinct(s)
  {
    if s != [] {
      var n := |s| - 1;
      var before, last := s[..n], s[n];
      assert s == before + [last];
      CountDistinct(before);
      assert Done(s) == Done(before) + {last};
      if last in before {
        var i :| 0 <= i < n && s[i] == last;
        assert Done(s) == Done(before);
      } else {
        assert Distinct(before) ==> Distinct(s);
      }
    }
  }

  lemma DistinctIffAsMany(nodes: seq<string>, out: seq<string>, ids: set<string>)
    requires Done(nodes) == ids && Distinct(out) && Done(out) <= ids
    ensures |out| == |nodes| <==> Distinct(nodes) && Done(out) == ids
  {
    CountDistinct(nodes);
    CountDistinct(out);
    if Done(out) != ids {
      Shrinks(Done(out), ids);
    }
  }

  /** There is one such order, so iterating over maps does not show in the result. */
  lemma {:induction false} LeastFirstIsUnique(deps: Deps, a: seq<string>, b: seq<string>)
    requires LeastFirst(deps, a) && LeastFirst(deps, b) && |a| == |b|
    ensures a == b
  {
    if a != [] {
      var n := |a| - 1;
      forall i | 0 <= i < n
        ensures a[..n][..i] == a[..i] && b[..n][..i] == b[..i]
      {
      }
      LeastFirstIsUnique(deps, a[..n], b[..n]);
      if a[n] != b[n] {
        LessIsStrict(a[n], b[n]);
      }
      assert a == a[..n] + [a[n]] && b == b[..n] + [b[n]];
    }
  }
}
