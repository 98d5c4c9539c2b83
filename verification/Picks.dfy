/** Which services a partial start keeps (cmd/zordon/start.go). */
module Picks {
  import opened Paths
  import opened Wrappers
  import Refs

  /** A service by display name; `after` are the refs its runtime waits for, `provisions` those its
      provisions do. A service without a runtime block has neither. */
  datatype Svc = Svc(name: string, after: seq<string>, provisions: seq<seq<string>>)

  function Names(all: seq<Svc>): set<string> {
    set s | s in all :: s.name
  }

  predicate Unique(all: seq<Svc>) {
    forall i, j :: 0 <= i < j < |all| ==> all[i].name != all[j].name
  }

  /** The services some refs name: `owner` finds a ref's service. */
  function Named(owner: string -> Option<string>, names: set<string>, refs: seq<string>): set<string> {
    set ref | ref in refs && owner(ref).Some? && owner(ref).value in names :: owner(ref).value
  }

  /** The services a service refers to, itself or in a provision. */
  function Uses(owner: string -> Option<string>, names: set<string>, s: Svc): set<string> {
    Named(owner, names, s.after) + set p, n | p in s.provisions && n in Named(owner, names, p) :: n
  }

  ghost function Edges(owner: string -> Option<string>, all: seq<Svc>): set<(string, string)> {
    set s, b | s in all && b in Uses(owner, Names(all), s) :: (s.name, b)
  }

  ghost predicate Reached(edges: set<(string, string)>, picks: seq<string>, name: string) {
    exists p :: p in picks && (p == name || Reaches(edges, p, name))
  }

  /** The services of `all` that are reached, in their order. */
  ghost function Kept(edges: set<(string, string)>, picks: seq<string>, all: seq<Svc>): seq<Svc> {
    if all == [] then []
    else Kept(edges, picks, all[..|all| - 1]) +
         if Reached(edges, picks, all[|all| - 1].name) then [all[|all| - 1]] else []
  }

  method NamesIn(owner: string -> Option<string>, names: set<string>, refs: seq<string>) returns (deps: seq<string>)
    ensures (set d | d in deps) == Named(owner, names, refs)
  {
    deps := [];
    for i := 0 to |refs|
      invariant (set d | d in deps) == Named(owner, names, refs[..i])
    {
      assert refs[..i + 1] == refs[..i] + [refs[i]];
      var found := owner(refs[i]);
      if found.Some? && found.value in names {
        assert Named(owner, names, refs[..i + 1]) == Named(owner, names, refs[..i]) + {found.value};
        assert (set d | d in deps + [found.value]) == (set d | d in deps) + {found.value};
        deps := deps + [found.value];
      } else {
        assert Named(owner, names, refs[..i + 1]) == Named(owner, names, refs[..i]);
      }
    }
    assert refs[..|refs|] == refs;
  }

  method UsesOf(owner: string -> Option<string>, names: set<string>, s: Svc) returns (deps: seq<string>)
    ensures (set d | d in deps) == Uses(owner, names, s)
  {
    deps := NamesIn(owner, names, s.after);
    for i := 0 to |s.provisions|
      invariant (set d | d in deps) == Named(owner, names, s.after) + set p, n | p in s.provisions[..i] && n in Named(owner, names, p) :: n
    {
      assert s.provisions[..i + 1] == s.provisions[..i] + [s.provisions[i]];
      var more := NamesIn(owner, names, s.provisions[i]);
      assert (set d | d in deps + more) == (set d | d in deps) + (set d | d in more);
      deps := deps + more;
    }
    assert s.provisions[..|s.provisions|] == s.provisions;
  }

  /** The walk so far: everything kept or queued is reached, every pick is there, and what a kept service
      uses is kept or queued. */
  ghost predicate WalkSoFar(edges: set<(string, string)>, picks: seq<string>, keep: set<string>, queue: seq<string>) {
    && (forall n :: n in keep || n in queue ==> Reached(edges, picks, n))
    && (forall p :: p in picks ==> p in keep || p in queue)
    && (forall a, b :: a in keep && (a, b) in edges ==> b in keep || b in queue)
  }

  lemma WalkStep(edges: set<(string, string)>, picks: seq<string>, keep: set<string>, queue: seq<string>, more: seq<string>)
    requires queue != [] && WalkSoFar(edges, picks, keep, queue)
    requires forall b :: b in more <==> (queue[0], b) in edges
    ensures WalkSoFar(edges, picks, keep + {queue[0]}, queue[1..] + more)
    ensures queue[0] in keep ==> WalkSoFar(edges, picks, keep, queue[1..])
  {
    var name := queue[0];
    assert queue == [name] + queue[1..];
    assert name in queue;
    forall b | b in more
      ensures Reached(edges, picks, b)
    {
      var p :| p in picks && (p == name || Reaches(edges, p, name));
      Append(edges, p, name, b);
    }
  }

  lemma WalkEnds(edges: set<(string, string)>, picks: seq<string>, keep: set<string>)
    requires WalkSoFar(edges, picks, keep, [])
    ensures forall n :: n in keep <==> Reached(edges, picks, n)
  {
    forall n | Reached(edges, picks, n)
      ensures n in keep
    {
      var p :| p in picks && (p == n || Reaches(edges, p, n));
      if p != n {
        StaysInside(edges, keep, p, n);
      }
    }
  }

  method UsedBy(owner: string -> Option<string>, all: seq<Svc>, name: string) returns (deps: seq<string>)
    requires Unique(all)
    ensures forall b :: b in deps <==> (name, b) in Edges(owner, all)
  {
    for i := 0 to |all|
      invariant forall j :: 0 <= j < i ==> all[j].name != name
    {
      if all[i].name == name {
        deps := UsesOf(owner, Names(all), all[i]);
        UsesAreEdges(owner, all, i, deps);
        return;
      }
    }
    return [];
  }

  lemma UsesAreEdges(owner: string -> Option<string>, all: seq<Svc>, i: nat, deps: seq<string>)
    requires Unique(all) && i < |all| && (set d | d in deps) == Uses(owner, Names(all), all[i])
    ensures forall b :: b in deps <==> (all[i].name, b) in Edges(owner, all)
  {
    forall b
      ensures b in deps <==> (all[i].name, b) in Edges(owner, all)
    {
      assert b in deps <==> b in set d | d in deps;
      assert all[i] in all;
    }
  }

  /** Keeps exactly the services reached from the picks, in the order of `all`. */
  method Walk(owner: string -> Option<string>, all: seq<Svc>, picks: seq<string>) returns (out: seq<Svc>)
    requires Unique(all)
    ensures out == Kept(Edges(owner, all), picks, all)
  {
    ghost var edges := Edges(owner, all);
    var keep: set<string> := {};
    var queue := picks;
    ghost var universe := (set p | p in picks) + Names(all);
    UsesStayInside(owner, all);
    while queue != []
      invariant WalkSoFar(edges, picks, keep, queue)
      invariant keep <= universe && forall n :: n in queue ==> n in universe
      decreases |universe - keep|, |queue|
    {
      var name := queue[0];
      var deps := UsedBy(owner, all, name);
      WalkStep(edges, picks, keep, queue, deps);
      assert name in universe;
      if name in keep {
        queue := queue[1..];
      } else {
        Shrinks(universe - (keep + {name}), universe - keep);
        keep, queue := keep + {name}, queue[1..] + deps;
      }
    }
    WalkEnds(edges, picks, keep);
    out := [];
    for i := 0 to |all|
      invariant out == Kept(edges, picks, all[..i])
    {
      assert all[..i + 1][..i] == all[..i];
      if all[i].name in keep {
        out := out + [all[i]];
      }
    }
    assert all[..|all|] == all;
  }

  lemma UsesStayInside(owner: string -> Option<string>, all: seq<Svc>)
    ensures forall a, b :: (a, b) in Edges(owner, all) ==> b in Names(all)
  {
  }

  /** With the refs read as alpha reads them. */
  method PickServices(all: seq<Svc>, picks: seq<string>) returns (out: seq<Svc>)
    requires Unique(all)
    ensures out == Kept(Edges(Refs.ServiceNameOf, all), picks, all)
  {
    out := Walk(Refs.ServiceNameOf, all, picks);
  }

  /** A service is kept exactly when it is one of `all` and reached from a pick. */
  lemma {:induction false} KeptIsReached(edges: set<(string, string)>, picks: seq<string>, all: seq<Svc>, s: Svc)
    ensures s in Kept(edges, picks, all) <==> s in all && Reached(edges, picks, s.name)
  {
    if all != [] {
      KeptIsReached(edges, picks, all[..|all| - 1], s);
      assert all == all[..|all| - 1] + [all[|all| - 1]];
    }
  }

  /** A service mentions a ref in what its runtime waits for, or what one of its provisions does. */
  predicate Mentions(s: Svc, ref: string) {
    ref in s.after || exists i :: 0 <= i < |s.provisions| && ref in s.provisions[i]
  }

  lemma UsesAreMentions(owner: string -> Option<string>, names: set<string>, s: Svc, b: string)
    ensures b in Uses(owner, names, s) <==> b in names && exists ref :: Mentions(s, ref) && owner(ref) == Some(b)
  {
    if b in Uses(owner, names, s) {
      if ref :| ref in s.after && owner(ref) == Some(b) {
        assert Mentions(s, ref);
      } else {
        var p :| p in s.provisions && b in Named(owner, names, p);
        var ref :| ref in p && owner(ref) == Some(b);
        assert Mentions(s, ref);
      }
    }
    if ref :| Mentions(s, ref) && owner(ref) == Some(b) && b in names {
      if ref !in s.after {
        var i :| 0 <= i < |s.provisions| && ref in s.provisions[i];
        assert s.provisions[i] in s.provisions && b in Named(owner, names, s.provisions[i]);
      }
    }
  }

  /** Nothing a kept service mentions is dropped, so alpha can resolve every ref it is given. */
  lemma KeptIsClosed(owner: string -> Option<string>, all: seq<Svc>, picks: seq<string>, s: Svc, ref: string, d: Svc)
    requires s in Kept(Edges(owner, all), picks, all) && d in all && Mentions(s, ref) && owner(ref) == Some(d.name)
    ensures d in Kept(Edges(owner, all), picks, all)
  {
    var edges := Edges(owner, all);
    KeptIsReached(edges, picks, all, s);
    KeptIsReached(edges, picks, all, d);
    UsesAreMentions(owner, Names(all), s, d.name);
    var p :| p in picks && (p == s.name || Reaches(edges, p, s.name));
    assert (s.name, d.name) in edges;
    Append(edges, p, s.name, d.name);
  }

  /** And nothing is kept that need not be: whatever holds the picks and what its services mention holds
      every service kept. */
  lemma KeptIsLeast(owner: string -> Option<string>, all: seq<Svc>, picks: seq<string>, enough: set<string>, s: Svc)
    requires forall p :: p in picks ==> p in enough
    requires forall a, ref :: a in all && a.name in enough && Mentions(a, ref) && owner(ref).Some? && owner(ref).value in Names(all) ==>
               owner(ref).value in enough
    requires s in Kept(Edges(owner, all), picks, all)
    ensures s in all && s.name in enough
  {
    var edges := Edges(owner, all);
    KeptIsReached(edges, picks, all, s);
    forall a, b | a in enough && (a, b) in edges
      ensures b in enough
    {
      var x :| x in all && x.name == a && b in Uses(owner, Names(all), x);
      UsesAreMentions(owner, Names(all), x, b);
    }
    var p :| p in picks && (p == s.name || Reaches(edges, p, s.name));
    if p != s.name {
      StaysInside(edges, enough, p, s.name);
    }
  }
}
