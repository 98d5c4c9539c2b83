/** Package resolution: which packages are in the stack, and with which features
    (internal/alphasfile/package.go). Features decide which imports exist, and imports decide which
    features are on. */
module Packages {
  import opened Paths
  import opened Sorting
  import opened Wrappers

  /** Where an import is written: the entrypoint's top level, one of its components, or a package's
      own level or one of its components. */
  datatype Scope = Top | Component(c: string) | PkgScope(pkg: string) | PkgModule(pkg: string, m: string)

  function Owner(s: Scope): Option<string> {
    match s
    case Top => None
    case Component(_) => None
    case PkgScope(p) => Some(p)
    case PkgModule(p, _) => Some(p)
  }

  datatype Formula = Const(value: bool) | Feature(f: string) | Not(a: Formula) | And(a: Formula, b: Formula) | Or(a: Formula, b: Formula)

  function Vars(e: Formula): set<string> {
    match e
    case Const(_) => {}
    case Feature(f) => {f}
    case Not(a) => Vars(a)
    case And(a, b) => Vars(a) + Vars(b)
    case Or(a, b) => Vars(a) + Vars(b)
  }

  predicate IsOn(e: Formula, on: set<string>) {
    match e
    case Const(b) => b
    case Feature(f) => f in on
    case Not(a) => !IsOn(a, on)
    case And(a, b) => IsOn(a, on) && IsOn(b, on)
    case Or(a, b) => IsOn(a, on) || IsOn(b, on)
  }

  /** An import block: what switches it off, and the features it passes. */
  datatype Import = Import(enabled: Option<Formula>, features: seq<string>)

  /** One entry of the link table. `block` is absent only for an entrypoint that is itself a package;
      `local` is empty when the import has no name of its own. */
  datatype Link = Link(scope: Scope, modules: seq<Scope>, local: string, pkg: Option<string>, block: Option<Import>)

  /** `passed` are the features of the top-level import of an `entry` package; `injected` come from
      the rules of other imports; `toolchain` is the key of the package's own toolchain block. */
  datatype Package = Package(
    declared: set<string>, modules: seq<string>, entry: bool, passed: seq<string>, injected: seq<seq<string>>, toolchain: Option<string>)

  /** `links` is the table in scope order; `components` are the entrypoint's. */
  datatype Tree = Tree(packages: map<string, Package>, links: seq<Link>, components: set<string>)

  predicate WellFormed(t: Tree) {
    forall l :: l in t.links ==>
      (Owner(l.scope).Some? ==> Owner(l.scope).value in t.packages) && (l.pkg.Some? ==> l.pkg.value in t.packages)
  }

  datatype Error = NeedsFeature | UnknownFeature | DuplicateFeature | Undeclared

  datatype Failure =
    | Misconfigured(error: Error)
    | Unsatisfied(pkg: string)
    | ImportEachOther(pkgs: seq<string>)
    | ToolchainsDiffer(pkg: string, importer: string, other: string)

  /** What a package was resolved to: whether it is in the stack, and the features that are on. */
  datatype Settled = Settled(active: bool, features: set<string>)

  type Settling = map<string, Settled>

  function EvalEnabled(e: Formula, declared: set<string>, on: set<string>): Result<bool, Error> {
    if declared == {} then Err(NeedsFeature)
    else if !(Vars(e) <= declared) then Err(UnknownFeature)
    else Ok(IsOn(e, on))
  }

  predicate Unconditional(l: Link) {
    l.block.Some? && l.block.value.enabled.None?
  }

  // ---- the scopes and packages that are in the stack whatever the features ----

  ghost predicate PlainClosed(t: Tree, s: set<Scope>) {
    && Top in s
    && (forall c :: c in t.components ==> Component(c) in s)
    && (forall l, m :: l in t.links && l.scope in s && m in l.modules ==> m in s)
  }

  /** The scopes outside packages that are in the stack. */
  ghost predicate IsPlain(t: Tree, plain: set<Scope>) {
    PlainClosed(t, plain) && forall s :: PlainClosed(t, s) ==> plain <= s
  }

  predicate Rooted(plain: set<Scope>, sure: set<string>, s: Scope) {
    match Owner(s)
    case None => s in plain
    case Some(q) => q in sure
  }

  ghost predicate SureClosed(t: Tree, plain: set<Scope>, sure: set<string>) {
    && (forall p :: p in t.packages && t.packages[p].entry ==> p in sure)
    && (forall l :: l in t.links && l.pkg.Some? && l.block.Some? && l.block.value.enabled.None?
                    && (if l.scope.PkgScope? || l.scope.PkgModule? then l.scope.pkg in sure else l.scope in plain) ==>
          l.pkg.value in sure)
  }

  /** The packages reached through imports that carry no `enabled`. */
  ghost predicate IsSure(t: Tree, plain: set<Scope>, sure: set<string>) {
    && sure <= t.packages.Keys && SureClosed(t, plain, sure)
    && forall s :: SureClosed(t, plain, s) ==> sure <= s
  }

  /** The modules that the links of one scope bring in. */
  method ModulesOf(t: Tree, s: Scope) returns (modules: seq<Scope>)
    ensures forall m :: m in modules <==> exists l :: l in t.links && l.scope == s && m in l.modules
  {
    modules := [];
    for i := 0 to |t.links|
      invariant forall m :: m in modules <==> exists j :: 0 <= j < i && t.links[j].scope == s && m in t.links[j].modules
    {
      if t.links[i].scope == s {
        modules := modules + t.links[i].modules;
      }
    }
  }

  ghost function Universe(t: Tree): set<Scope> {
    {Top} + (set c | c in t.components :: Component(c)) + set l, m | l in t.links && m in l.modules :: m
  }

  /** The walk so far: what it has seen is closed but for the queue, and nothing in it is needless. */
  ghost predicate PlainSoFar(t: Tree, seen: set<Scope>, queue: seq<Scope>) {
    && seen <= Universe(t) && (forall s :: s in queue ==> s in Universe(t))
    && (Top in seen || Top in queue)
    && (forall c :: c in t.components ==> Component(c) in seen || Component(c) in queue)
    && (forall l, m :: l in t.links && l.scope in seen && m in l.modules ==> m in seen || m in queue)
    && forall least :: PlainClosed(t, least) ==> seen <= least && forall s :: s in queue ==> s in least
  }

  lemma PlainStep(t: Tree, seen: set<Scope>, queue: seq<Scope>, modules: seq<Scope>)
    requires queue != [] && PlainSoFar(t, seen, queue)
    requires forall m :: m in modules <==> exists l :: l in t.links && l.scope == queue[0] && m in l.modules
    ensures PlainSoFar(t, seen + {queue[0]}, queue[1..] + modules)
    ensures queue[0] in seen ==> PlainSoFar(t, seen, queue[1..])
    ensures queue[0] in Universe(t)
  {
    assert queue == [queue[0]] + queue[1..];
    forall least | PlainClosed(t, least)
      ensures forall m :: m in modules ==> m in least
    {
      assert queue[0] in least;
    }
    assert queue[0] in queue;
  }

  lemma PlainStarts(t: Tree, queue: seq<Scope>)
    requires forall s :: s in queue <==> s == Top || (s.Component? && s.c in t.components)
    ensures PlainSoFar(t, {}, queue)
  {
  }

  lemma PlainEnds(t: Tree, seen: set<Scope>)
    requires PlainSoFar(t, seen, [])
    ensures IsPlain(t, seen)
  {
  }

  method PlainActive(t: Tree) returns (seen: set<Scope>)
    ensures IsPlain(t, seen)
  {
    var names := SortedKeys(t.components);
    var queue := [Top];
    for i := 0 to |names|
      invariant forall s :: s in queue <==> s == Top || (s.Component? && s.c in names[..i])
    {
      queue := queue + [Component(names[i])];
    }
    seen := {};
    PlainStarts(t, queue);
    while queue != []
      invariant PlainSoFar(t, seen, queue)
      decreases |Universe(t) - seen|, |queue|
    {
      var modules := ModulesOf(t, queue[0]);
      PlainStep(t, seen, queue, modules);
      if queue[0] in seen {
        queue := queue[1..];
      } else {
        Shrinks(Universe(t) - (seen + {queue[0]}), Universe(t) - seen);
        seen, queue := seen + {queue[0]}, queue[1..] + modules;
      }
    }
    PlainEnds(t, seen);
  }

  method SurelyActive(t: Tree, plain: set<Scope>) returns (sure: set<string>)
    requires WellFormed(t)
    ensures IsSure(t, plain, sure)
  {
    sure := set p | p in t.packages && t.packages[p].entry;
    var changed := true;
    while changed
      invariant sure <= t.packages.Keys
      invariant forall p :: p in t.packages && t.packages[p].entry ==> p in sure
      invariant !changed ==> SureClosed(t, plain, sure)
      invariant forall least :: SureClosed(t, plain, least) ==> sure <= least
      decreases |t.packages.Keys - sure|, changed
    {
      changed := false;
      ghost var before := sure;
      for i := 0 to |t.links|
        invariant before <= sure <= t.packages.Keys
        invariant changed <==> before != sure
        invariant !changed ==> forall j :: 0 <= j < i ==>
          (Rooted(plain, sure, t.links[j].scope) && t.links[j].pkg.Some? && Unconditional(t.links[j]) ==> t.links[j].pkg.value in sure)
        invariant forall least :: SureClosed(t, plain, least) ==> sure <= least
      {
        var l := t.links[i];
        assert l in t.links;
        if Rooted(plain, sure, l.scope) && l.pkg.Some? && Unconditional(l) && l.pkg.value !in sure {
          sure, changed := sure + {l.pkg.value}, true;
        }
      }
      if changed {
        assert t.packages.Keys - sure < t.packages.Keys - before;
        Shrinks(t.packages.Keys - sure, t.packages.Keys - before);
      }
    }
  }

  // ---- what the imports of a package ask of it ----

  /** An import does not count, counts, or is wrong. */
  datatype Verdict = Skip | Take | Bad(error: Error)

  predicate Repeats(s: seq<string>) {
    exists i, j :: 0 <= i < j < |s| && s[i] == s[j]
  }

  function CheckPassed(declared: set<string>, features: seq<string>): Verdict {
    if Repeats(features) then Bad(DuplicateFeature)
    else if exists f :: f in features && f !in declared then Bad(Undeclared)
    else Take
  }

  predicate InStack(sure: set<string>, r: Settling, q: string) {
    (q in r && r[q].active) || q in sure
  }

  /** How the import `l` counts for `p` when the packages in `r` are resolved. */
  function Judge(t: Tree, plain: set<Scope>, sure: set<string>, r: Settling, p: string, l: Link): Verdict
    requires WellFormed(t) && l in t.links && p in t.packages
  {
    if l.pkg != Some(p) || l.block.None? || l.scope.Top? then Skip
    else
      var passed := CheckPassed(t.packages[p].declared, l.block.value.features);
      match Owner(l.scope)
      case None => if l.scope in plain then passed else Skip
      case Some(q) =>
        if q == p || !InStack(sure, r, q) then Skip
        else if l.block.value.enabled.None? then passed
        else if q !in r then Bad(NeedsFeature)
        else match EvalEnabled(l.block.value.enabled.value, t.packages[q].declared, r[q].features) {
          case Err(e) => Bad(e)
          case Ok(on) => if on then passed else Skip
        }
  }

  /** The counting imports of `p` among the first `k` links. */
  function NeedsUpTo(t: Tree, plain: set<Scope>, sure: set<string>, r: Settling, p: string, k: nat): Result<seq<Link>, Error>
    requires WellFormed(t) && p in t.packages && k <= |t.links|
  {
    if k == 0 then Ok([])
    else match NeedsUpTo(t, plain, sure, r, p, k - 1)
      case Err(e) => Err(e)
      case Ok(needs) =>
        match Judge(t, plain, sure, r, p, t.links[k - 1])
        case Skip => Ok(needs)
        case Take => Ok(needs + [t.links[k - 1]])
        case Bad(e) => Err(e)
  }

  function Needs(t: Tree, plain: set<Scope>, sure: set<string>, r: Settling, p: string): Result<seq<Link>, Error>
    requires WellFormed(t) && p in t.packages
  {
    NeedsUpTo(t, plain, sure, r, p, |t.links|)
  }

  method NeedsOf(t: Tree, plain: set<Scope>, sure: set<string>, r: Settling, p: string) returns (needs: Result<seq<Link>, Error>)
    requires WellFormed(t) && p in t.packages
    ensures needs == Needs(t, plain, sure, r, p)
  {
    var found: seq<Link> := [];
    for i := 0 to |t.links|
      invariant NeedsUpTo(t, plain, sure, r, p, i) == Ok(found)
    {
      match Judge(t, plain, sure, r, p, t.links[i])
      case Skip =>
      case Take => found := found + [t.links[i]];
      case Bad(e) =>
        ErrorStays(t, plain, sure, r, p, i + 1, |t.links|);
        return Err(e);
    }
    return Ok(found);
  }

  lemma {:induction false} ErrorStays(t: Tree, plain: set<Scope>, sure: set<string>, r: Settling, p: string, j: nat, k: nat)
    requires WellFormed(t) && p in t.packages && j <= k <= |t.links| && NeedsUpTo(t, plain, sure, r, p, j).Err?
    ensures NeedsUpTo(t, plain, sure, r, p, k) == NeedsUpTo(t, plain, sure, r, p, j)
  {
    if j < k {
      ErrorStays(t, plain, sure, r, p, j, k - 1);
    }
  }

  /** The needs are exactly the imports that count. */
  lemma {:induction false} NeedsAreTheCounting(t: Tree, plain: set<Scope>, sure: set<string>, r: Settling, p: string, k: nat, l: Link)
    requires WellFormed(t) && p in t.packages && k <= |t.links| && NeedsUpTo(t, plain, sure, r, p, k).Ok?
    ensures l in NeedsUpTo(t, plain, sure, r, p, k).value <==> l in t.links[..k] && Judge(t, plain, sure, r, p, l) == Take
    ensures l in t.links[..k] ==> !Judge(t, plain, sure, r, p, l).Bad?
  {
    if k > 0 {
      NeedsAreTheCounting(t, plain, sure, r, p, k - 1, l);
      assert t.links[..k] == t.links[..k - 1] + [t.links[k - 1]];
    }
  }

  function Passed(needs: seq<Link>): set<string> {
    set l, f | l in needs && l.block.Some? && f in l.block.value.features :: f
  }

  function Injected(p: Package): set<string> {
    set i, f | i in p.injected && f in i :: f
  }

  function Elements(s: seq<string>): set<string> {
    set x | x in s
  }

  /** What `p` is resolved to when the packages in `r` already are. */
  function Resolve(t: Tree, plain: set<Scope>, sure: set<string>, r: Settling, p: string): Result<Settled, Error>
    requires WellFormed(t) && p in t.packages
  {
    var pkg := t.packages[p];
    if pkg.entry then
      if !(Elements(pkg.passed) + Injected(pkg) <= pkg.declared) then Err(Undeclared)
      else Ok(Settled(true, Elements(pkg.passed) + Injected(pkg)))
    else match Needs(t, plain, sure, r, p)
      case Err(e) => Err(e)
      case Ok(needs) =>
        if needs == [] && pkg.injected == [] then Ok(Settled(false, {}))
        else if !(Injected(pkg) <= pkg.declared) then Err(Undeclared)
        else Ok(Settled(true, Passed(needs) + Injected(pkg)))
  }

  /** Every other import of an entry package is content with the features it runs with. */
  predicate Served(t: Tree, plain: set<Scope>, sure: set<string>, r: Settling, p: string)
    requires WellFormed(t) && p in t.packages && p in r
  {
    Needs(t, plain, sure, r, p).Ok? && Passed(Needs(t, plain, sure, r, p).value) <= r[p].features
  }

  ghost predicate AllServed(t: Tree, plain: set<Scope>, sure: set<string>, r: Settling)
    requires WellFormed(t) && r.Keys == t.packages.Keys
  {
    forall p :: p in t.packages && t.packages[p].entry ==> Served(t, plain, sure, r, p)
  }

  /** A settling that resolving every package again, against itself, does not change. */
  ghost predicate Consistent(t: Tree, plain: set<Scope>, sure: set<string>, r: Settling)
    requires WellFormed(t)
  {
    && r.Keys == t.packages.Keys
    && (forall p :: p in t.packages ==> Resolve(t, plain, sure, r, p) == Ok(r[p]))
    && AllServed(t, plain, sure, r)
  }

  // ---- who waits for whom ----

  /** The import can count or not depending on the features of the package it is in. */
  predicate BlocksOn(t: Tree, sure: set<string>, l: Link) {
    && l.pkg.Some? && Owner(l.scope).Some? && Owner(l.scope) != l.pkg
    && l.pkg.value in t.packages && !t.packages[l.pkg.value].entry
    && !(Owner(l.scope).value in sure && Unconditional(l))
  }

  ghost function Blocking(t: Tree, sure: set<string>): set<(string, string)> {
    set l | l in t.links && BlocksOn(t, sure, l) :: (l.pkg.value, Owner(l.scope).value)
  }

  method ImportersDone(t: Tree, sure: set<string>, pending: set<string>, p: string) returns (done: bool)
    requires p in t.packages && !t.packages[p].entry
    ensures done <==> !HasNext(Blocking(t, sure), pending, p)
  {
    for i := 0 to |t.links|
      invariant forall j :: 0 <= j < i && t.links[j].pkg == Some(p) && BlocksOn(t, sure, t.links[j]) ==>
                              Owner(t.links[j].scope).value !in pending
    {
      var l := t.links[i];
      var owner := Owner(l.scope);
      if owner.Some? && owner.value != p && owner.value in pending {
        if l.pkg == Some(p) && !(owner.value in sure && Unconditional(l)) {
          assert (p, owner.value) in Blocking(t, sure);
          return false;
        }
      }
    }
    return true;
  }

  // ---- resolving in any order that respects the waits ----

  ghost predicate Extends(part: Settling, full: Settling) {
    forall q :: q in part ==> q in full && full[q] == part[q]
  }

  /** Once a package's blocking importers are resolved, resolving more changes nothing for it. */
  lemma JudgeStable(t: Tree, plain: set<Scope>, sure: set<string>, part: Settling, full: Settling, p: string, l: Link)
    requires WellFormed(t) && l in t.links && p in t.packages && !t.packages[p].entry && Extends(part, full)
    requires forall q :: (p, q) in Blocking(t, sure) ==> q in part
    ensures Judge(t, plain, sure, part, p, l) == Judge(t, plain, sure, full, p, l)
  {
    if BlocksOn(t, sure, l) && l.pkg == Some(p) {
      assert (p, Owner(l.scope).value) in Blocking(t, sure);
    }
  }

  lemma {:induction false} NeedsStable(t: Tree, plain: set<Scope>, sure: set<string>, part: Settling, full: Settling, p: string, k: nat)
    requires WellFormed(t) && k <= |t.links| && p in t.packages && !t.packages[p].entry && Extends(part, full)
    requires forall q :: (p, q) in Blocking(t, sure) ==> q in part
    ensures NeedsUpTo(t, plain, sure, part, p, k) == NeedsUpTo(t, plain, sure, full, p, k)
  {
    if k > 0 {
      NeedsStable(t, plain, sure, part, full, p, k - 1);
      JudgeStable(t, plain, sure, part, full, p, t.links[k - 1]);
    }
  }

  lemma ResolveStable(t: Tree, plain: set<Scope>, sure: set<string>, part: Settling, full: Settling, p: string)
    requires WellFormed(t) && p in t.packages && Extends(part, full)
    requires forall q :: (p, q) in Blocking(t, sure) ==> q in part
    ensures Resolve(t, plain, sure, part, p) == Resolve(t, plain, sure, full, p)
  {
    if !t.packages[p].entry {
      NeedsStable(t, plain, sure, part, full, p, |t.links|);
    }
  }

  ghost function ResolveAlong(t: Tree, plain: set<Scope>, sure: set<string>, order: seq<string>): Result<Settling, Error>
    requires WellFormed(t) && forall p :: p in order ==> p in t.packages
  {
    if order == [] then Ok(map[])
    else
      var last := order[|order| - 1];
      match ResolveAlong(t, plain, sure, order[..|order| - 1])
      case Err(e) => Err(e)
      case Ok(r) =>
        match Resolve(t, plain, sure, r, last)
        case Err(e) => Err(e)
        case Ok(s) => Ok(r[last := s])
  }

  lemma {:induction false} AlongIsStable(t: Tree, plain: set<Scope>, sure: set<string>, order: seq<string>, full: Settling)
    requires WellFormed(t) && (forall p :: p in order ==> p in t.packages) && Layered(Blocking(t, sure), order)
    requires ResolveAlong(t, plain, sure, order).Ok? && Extends(ResolveAlong(t, plain, sure, order).value, full)
    ensures forall p :: p in ResolveAlong(t, plain, sure, order).value <==> p in order
    ensures forall p :: p in order ==> p in full && Resolve(t, plain, sure, full, p) == Ok(full[p])
  {
    if order != [] {
      var n := |order| - 1;
      var before, last := order[..n], order[n];
      assert order == before + [last];
      LayeredPrefix(Blocking(t, sure), order, n);
      var part := ResolveAlong(t, plain, sure, before).value;
      assert forall i :: 0 <= i < n ==> before[i] == order[i];
      AlongKeys(t, plain, sure, before);
      AlongIsStable(t, plain, sure, before, full);
      ResolveStable(t, plain, sure, part, full, last);
    }
  }

  lemma {:induction false} AlongKeys(t: Tree, plain: set<Scope>, sure: set<string>, order: seq<string>)
    requires WellFormed(t) && (forall p :: p in order ==> p in t.packages) && ResolveAlong(t, plain, sure, order).Ok?
    ensures forall p :: p in ResolveAlong(t, plain, sure, order).value <==> p in order
  {
    if order != [] {
      assert order == order[..|order| - 1] + [order[|order| - 1]];
      AlongKeys(t, plain, sure, order[..|order| - 1]);
    }
  }

  lemma {:induction false} ConsistentAlong(t: Tree, plain: set<Scope>, sure: set<string>, order: seq<string>, full: Settling)
    requires WellFormed(t) && (forall p :: p in order ==> p in t.packages) && Layered(Blocking(t, sure), order)
    requires Consistent(t, plain, sure, full)
    ensures ResolveAlong(t, plain, sure, order).Ok? && Extends(ResolveAlong(t, plain, sure, order).value, full)
  {
    if order != [] {
      var n := |order| - 1;
      var before, last := order[..n], order[n];
      assert order == before + [last];
      LayeredPrefix(Blocking(t, sure), order, n);
      ConsistentAlong(t, plain, sure, before, full);
      AlongKeys(t, plain, sure, before);
      ResolveStable(t, plain, sure, ResolveAlong(t, plain, sure, before).value, full, last);
    }
  }

  ghost predicate Complete(t: Tree, sure: set<string>, order: seq<string>) {
    Layered(Blocking(t, sure), order) && forall p :: p in order <==> p in t.packages
  }

  /** Resolving along any complete order finds a settling exactly when it is consistent. */
  lemma AlongIffConsistent(t: Tree, plain: set<Scope>, sure: set<string>, order: seq<string>, r: Settling)
    requires WellFormed(t) && Complete(t, sure, order)
    ensures Consistent(t, plain, sure, r) <==>
            ResolveAlong(t, plain, sure, order) == Ok(r) && r.Keys == t.packages.Keys && AllServed(t, plain, sure, r)
  {
    if Consistent(t, plain, sure, r) {
      ConsistentAlong(t, plain, sure, order, r);
      AlongKeys(t, plain, sure, order);
      assert ResolveAlong(t, plain, sure, order).value == r;
    } else if ResolveAlong(t, plain, sure, order) == Ok(r) {
      AlongIsStable(t, plain, sure, order, r);
    }
  }

  /** Unless packages import each other, at most one settling is consistent. */
  lemma ConsistentIsUnique(t: Tree, plain: set<Scope>, sure: set<string>, r: Settling, s: Settling)
    requires WellFormed(t) && Acyclic(Blocking(t, sure))
    requires Consistent(t, plain, sure, r) && Consistent(t, plain, sure, s)
    ensures r == s
  {
    var order := AcyclicHasOrder(Blocking(t, sure), t.packages.Keys, []);
    AlongIffConsistent(t, plain, sure, order, r);
    AlongIffConsistent(t, plain, sure, order, s);
  }

  // ---- the needs that are kept ----

  /** What is kept for a resolved package is what its imports ask for now. */
  ghost predicate NeedsKept(t: Tree, plain: set<Scope>, sure: set<string>, r: Settling, needs: map<string, seq<Link>>, p: string)
    requires WellFormed(t) && p in t.packages
  {
    p in needs && Needs(t, plain, sure, r, p) == Ok(needs[p])
  }

  ghost predicate KeptSoFar(t: Tree, plain: set<Scope>, sure: set<string>, r: Settling, needs: map<string, seq<Link>>)
    requires WellFormed(t)
  {
    forall p :: p in r && p in t.packages && !t.packages[p].entry ==> NeedsKept(t, plain, sure, r, needs, p)
  }

  ghost predicate AllNeedsKept(t: Tree, plain: set<Scope>, sure: set<string>, r: Settling, needs: map<string, seq<Link>>)
    requires WellFormed(t)
  {
    forall p :: p in t.packages ==> NeedsKept(t, plain, sure, r, needs, p)
  }

  // ---- the worklist ----

  /** What a failure says is so, of the packages resolved by then: some package cannot be resolved or an
      entry package has a wrong import, for the reason given; the entry package named lacks a feature that
      an import asks for; or the packages named are those that lead to a cycle. */
  ghost predicate Blamed(t: Tree, plain: set<Scope>, sure: set<string>, r: Settling, f: Failure)
    requires WellFormed(t)
  {
    match f
    case Misconfigured(e) => exists p :: p in t.packages && Faulty(t, plain, sure, r, p, e)
    case Unsatisfied(p) =>
      && p in t.packages && t.packages[p].entry && p in r
      && exists l, f :: l in t.links && Judge(t, plain, sure, r, p, l) == Take && f in l.block.value.features && f !in r[p].features
    case ImportEachOther(pkgs) => Ascending(pkgs) && forall p :: p in pkgs <==> LeadsToCycle(Blocking(t, sure), p)
    case ToolchainsDiffer(_, _, _) => false
  }

  /** A feature that the package's own import or an injection passes, and that it does not declare. */
  predicate WrongOwn(p: Package, f: string) {
    f !in p.declared && ((exists s :: s in p.injected && f in s) || (p.entry && f in p.passed))
  }

  ghost predicate Faulty(t: Tree, plain: set<Scope>, sure: set<string>, r: Settling, p: string, e: Error)
    requires WellFormed(t) && p in t.packages
  {
    || (exists l :: l in t.links && Judge(t, plain, sure, r, p, l) == Bad(e))
    || (e == Undeclared && exists f :: WrongOwn(t.packages[p], f))
  }

  lemma {:induction false} NeedsBlame(t: Tree, plain: set<Scope>, sure: set<string>, r: Settling, p: string, k: nat)
    requires WellFormed(t) && p in t.packages && k <= |t.links| && NeedsUpTo(t, plain, sure, r, p, k).Err?
    ensures exists l :: l in t.links && Judge(t, plain, sure, r, p, l) == Bad(NeedsUpTo(t, plain, sure, r, p, k).error)
  {
    if NeedsUpTo(t, plain, sure, r, p, k - 1).Err? {
      NeedsBlame(t, plain, sure, r, p, k - 1);
    } else {
      assert t.links[k - 1] in t.links;
    }
  }

  lemma ResolveBlame(t: Tree, plain: set<Scope>, sure: set<string>, r: Settling, p: string)
    requires WellFormed(t) && p in t.packages && Resolve(t, plain, sure, r, p).Err?
    ensures Faulty(t, plain, sure, r, p, Resolve(t, plain, sure, r, p).error)
  {
    var pkg := t.packages[p];
    if !pkg.entry && Needs(t, plain, sure, r, p).Err? {
      NeedsBlame(t, plain, sure, r, p, |t.links|);
    } else {
      var wanted := Injected(pkg) + if pkg.entry then Elements(pkg.passed) else {};
      var f :| f in wanted && f !in pkg.declared;
      assert WrongOwn(pkg, f);
    }
  }

  lemma ServeBlame(t: Tree, plain: set<Scope>, sure: set<string>, r: Settling, p: string)
    requires WellFormed(t) && p in t.packages && t.packages[p].entry && p in r
    ensures match Needs(t, plain, sure, r, p)
            case Err(e) => Blamed(t, plain, sure, r, Misconfigured(e))
            case Ok(needs) => !(Passed(needs) <= r[p].features) ==> Blamed(t, plain, sure, r, Unsatisfied(p))
  {
    match Needs(t, plain, sure, r, p)
    case Err(e) =>
      NeedsBlame(t, plain, sure, r, p, |t.links|);
      assert Faulty(t, plain, sure, r, p, e);
    case Ok(needs) =>
      if !(Passed(needs) <= r[p].features) {
        var f :| f in Passed(needs) && f !in r[p].features;
        var l :| l in needs && l.block.Some? && f in l.block.value.features;
        NeedsAreTheCounting(t, plain, sure, r, p, |t.links|, l);
        assert t.links[..|t.links|] == t.links;
      }
  }

  class Resolver {
    const t: Tree
    var settled: Settling
    var needs: map<string, seq<Link>>

    constructor (t: Tree)
      ensures this.t == t
    {
      this.t := t;
      settled, needs := map[], map[];
    }

    method ResolvePackage(plain: set<Scope>, sure: set<string>, p: string) returns (failed: Option<Error>)
      requires WellFormed(t) && p in t.packages
      modifies this
      ensures match Resolve(t, plain, sure, old(settled), p)
              case Ok(s) => failed == None && settled == old(settled)[p := s]
              case Err(e) => failed == Some(e) && settled == old(settled)
      ensures if failed.Some? || t.packages[p].entry then needs == old(needs)
              else needs == old(needs)[p := Needs(t, plain, sure, old(settled), p).value]
    {
      var pkg := t.packages[p];
      if pkg.entry {
        if !(Elements(pkg.passed) <= pkg.declared) || !(Injected(pkg) <= pkg.declared) {
          return Some(Undeclared);
        }
        settled := settled[p := Settled(true, Elements(pkg.passed) + Injected(pkg))];
        return None;
      }
      var found := NeedsOf(t, plain, sure, settled, p);
      if found.Err? {
        return Some(found.error);
      }
      if found.value == [] && pkg.injected == [] {
        settled, needs := settled[p := Settled(false, {})], needs[p := []];
        return None;
      }
      if !(Injected(pkg) <= pkg.declared) {
        return Some(Undeclared);
      }
      settled, needs := settled[p := Settled(true, Passed(found.value) + Injected(pkg))], needs[p := found.value];
      return None;
    }

    /** One pass over the pending packages. Without progress each of them waits for another. */
    method Pass(plain: set<Scope>, sure: set<string>, pending: set<string>, ghost order: seq<string>)
      returns (failed: Option<Failure>, left: set<string>, ghost longer: seq<string>)
      requires WellFormed(t) && Halfway(t, plain, sure, order, pending, settled) && KeptSoFar(t, plain, sure, settled, needs)
      modifies this
      ensures failed.None? ==> left <= pending && Halfway(t, plain, sure, longer, left, settled)
      ensures KeptSoFar(t, plain, sure, settled, needs)
      ensures failed.None? && left == pending ==> forall p :: p in pending ==> HasNext(Blocking(t, sure), pending, p)
      ensures failed.Some? ==> failed.value.Misconfigured? && !exists r :: Consistent(t, plain, sure, r)
      ensures failed.Some? ==> Blamed(t, plain, sure, settled, failed.value)
    {
      left, longer := pending, order;
      var names := SortedKeys(pending);
      AscendingIsDistinct(names);
      for i := 0 to |names|
        invariant left <= pending && Halfway(t, plain, sure, longer, left, settled) && KeptSoFar(t, plain, sure, settled, needs)
        invariant forall j :: i <= j < |names| ==> names[j] in left
        invariant left == pending ==> forall j :: 0 <= j < i ==> HasNext(Blocking(t, sure), pending, names[j])
      {
        var p := names[i];
        var free := t.packages[p].entry;
        if !free {
          free := ImportersDone(t, sure, left, p);
        }
        if free {
          ghost var before, kept := settled, needs;
          var error := ResolvePackage(plain, sure, p);
          ResolvesNext(t, plain, sure, longer, left, before, p);
          if error.Some? {
            ResolveBlame(t, plain, sure, before, p);
            return Some(Misconfigured(error.value)), left, longer;
          }
          KeepsNeeds(t, plain, sure, longer, left, before, kept, p, settled[p]);
          left, longer := left - {p}, longer + [p];
        }
      }
      return None, left, longer;
    }

    /** The imports of the entry packages, once everything is resolved. */
    method ServeEntries(plain: set<Scope>, sure: set<string>) returns (failed: Option<Failure>)
      requires WellFormed(t) && settled.Keys == t.packages.Keys && KeptSoFar(t, plain, sure, settled, needs)
      modifies this`needs
      ensures failed.None? <==> AllServed(t, plain, sure, settled)
      ensures failed.None? ==> AllNeedsKept(t, plain, sure, settled, needs)
      ensures failed.Some? ==> !failed.value.ImportEachOther? && Blamed(t, plain, sure, settled, failed.value)
    {
      var names := SortedKeys(t.packages.Keys);
      for i := 0 to |names|
        invariant KeptSoFar(t, plain, sure, settled, needs)
        invariant forall j :: 0 <= j < i ==> NeedsKept(t, plain, sure, settled, needs, names[j])
        invariant forall j :: 0 <= j < i && t.packages[names[j]].entry ==> Served(t, plain, sure, settled, names[j])
      {
        var p := names[i];
        if t.packages[p].entry {
          var found := NeedsOf(t, plain, sure, settled, p);
          ServeBlame(t, plain, sure, settled, p);
          if found.Err? {
            return Some(Misconfigured(found.error));
          }
          KeepsMore(t, plain, sure, settled, needs, p, found.value);
          needs := needs[p := found.value];
          if !(Passed(found.value) <= settled[p].features) {
            return Some(Unsatisfied(p));
          }
        }
      }
      return None;
    }

    /** Succeeds exactly when no packages import each other and some settling is consistent, and then
        finds it. The import cycle it reports holds exactly the packages that lead to one. */
    method Settle(plain: set<Scope>, sure: set<string>) returns (failed: Option<Failure>)
      requires WellFormed(t)
      modifies this
      ensures failed.None? ==> Consistent(t, plain, sure, settled) && AllNeedsKept(t, plain, sure, settled, needs)
      ensures failed.None? <==> Acyclic(Blocking(t, sure)) && exists r :: Consistent(t, plain, sure, r)
      ensures failed.Some? ==> Blamed(t, plain, sure, settled, failed.value)
    {
      settled, needs := map[], map[];
      var pending := t.packages.Keys;
      ghost var order: seq<string> := [];
      while pending != {}
        invariant Halfway(t, plain, sure, order, pending, settled) && KeptSoFar(t, plain, sure, settled, needs)
        decreases |pending|
      {
        var left;
        ghost var longer;
        failed, left, longer := Pass(plain, sure, pending, order);
        if failed.Some? {
          return;
        }
        if left == pending {
          var stuck := SortedKeys(pending);
          StuckIsCyclic(t, sure, order, pending);
          return Some(ImportEachOther(stuck));
        }
        Shrinks(left, pending);
        pending, order := left, longer;
      }
      AlongKeys(t, plain, sure, order);
      NothingLeft(t, sure, order);
      failed := ServeEntries(plain, sure);
      forall r
        ensures Consistent(t, plain, sure, r) <==> r == settled && AllServed(t, plain, sure, settled)
      {
        AlongIffConsistent(t, plain, sure, order, r);
      }
    }

    method ResolvePackages() returns (failed: Option<Failure>, plain: set<Scope>, sure: set<string>)
      requires WellFormed(t)
      modifies this
      ensures IsPlain(t, plain) && IsSure(t, plain, sure)
      ensures failed.None? ==> Consistent(t, plain, sure, settled) && AllNeedsKept(t, plain, sure, settled, needs)
      ensures failed.None? <==> Acyclic(Blocking(t, sure)) && exists r :: Consistent(t, plain, sure, r)
      ensures failed.Some? ==> Blamed(t, plain, sure, settled, failed.value)
    {
      plain := PlainActive(t);
      sure := SurelyActive(t, plain);
      failed := Settle(plain, sure);
    }
  }

  lemma KeepsMore(t: Tree, plain: set<Scope>, sure: set<string>, r: Settling, needs: map<string, seq<Link>>, p: string, found: seq<Link>)
    requires WellFormed(t) && p in t.packages && Needs(t, plain, sure, r, p) == Ok(found)
    ensures forall q :: q in t.packages && (q == p || NeedsKept(t, plain, sure, r, needs, q)) ==>
                          NeedsKept(t, plain, sure, r, needs[p := found], q)
    ensures KeptSoFar(t, plain, sure, r, needs) ==> KeptSoFar(t, plain, sure, r, needs[p := found])
  {
  }

  /** `order` lists what is resolved so far, and resolving along it gave `r`. */
  ghost predicate Halfway(t: Tree, plain: set<Scope>, sure: set<string>, order: seq<string>, pending: set<string>, r: Settling)
    requires WellFormed(t)
  {
    && pending <= t.packages.Keys && (forall p :: p in order <==> p in t.packages && p !in pending)
    && Layered(Blocking(t, sure), order) && ResolveAlong(t, plain, sure, order) == Ok(r)
  }

  lemma ResolvesNext(t: Tree, plain: set<Scope>, sure: set<string>, order: seq<string>, pending: set<string>, r: Settling, p: string)
    requires WellFormed(t) && Halfway(t, plain, sure, order, pending, r) && p in pending
    requires t.packages[p].entry || !HasNext(Blocking(t, sure), pending, p)
    ensures match Resolve(t, plain, sure, r, p)
            case Ok(s) => Halfway(t, plain, sure, order + [p], pending - {p}, r[p := s])
            case Err(_) => !exists r :: Consistent(t, plain, sure, r)
  {
    NowFree(t, sure, pending, p);
    LayeredExtends(Blocking(t, sure), order, p);
    assert (order + [p])[..|order|] == order;
    if Resolve(t, plain, sure, r, p).Err? {
      NoneConsistent(t, plain, sure, order + [p]);
    }
  }

  /** Resolving one more package leaves the needs of the resolved ones what they were. */
  lemma KeepsNeeds(t: Tree, plain: set<Scope>, sure: set<string>, order: seq<string>, pending: set<string>,
                   r: Settling, needs: map<string, seq<Link>>, p: string, s: Settled)
    requires WellFormed(t) && Halfway(t, plain, sure, order, pending, r) && p in pending
    requires t.packages[p].entry || !HasNext(Blocking(t, sure), pending, p)
    requires KeptSoFar(t, plain, sure, r, needs) && Resolve(t, plain, sure, r, p).Ok?
    ensures KeptSoFar(t, plain, sure, r[p := s],
              if t.packages[p].entry then needs else needs[p := Needs(t, plain, sure, r, p).value])
  {
    NowFree(t, sure, pending, p);
    AlongKeys(t, plain, sure, order);
    forall q | (q in order || q == p) && q in t.packages && !t.packages[q].entry
      ensures Needs(t, plain, sure, r, q) == Needs(t, plain, sure, r[p := s], q)
    {
      forall x | (q, x) in Blocking(t, sure)
        ensures x in r
      {
        if q in order {
          LayeredIsClosed(Blocking(t, sure), order, q, x);
        }
      }
      NeedsStable(t, plain, sure, r, r[p := s], q, |t.links|);
    }
  }

  lemma NowFree(t: Tree, sure: set<string>, pending: set<string>, p: string)
    requires WellFormed(t) && p in t.packages && (t.packages[p].entry || !HasNext(Blocking(t, sure), pending, p))
    ensures forall q :: (p, q) in Blocking(t, sure) ==> q in t.packages && q !in pending
  {
  }

  lemma NoneConsistent(t: Tree, plain: set<Scope>, sure: set<string>, order: seq<string>)
    requires WellFormed(t) && (forall p :: p in order ==> p in t.packages) && Layered(Blocking(t, sure), order)
    requires ResolveAlong(t, plain, sure, order).Err?
    ensures !exists r :: Consistent(t, plain, sure, r)
  {
    if r :| Consistent(t, plain, sure, r) {
      ConsistentAlong(t, plain, sure, order, r);
    }
  }

  lemma StuckIsCyclic(t: Tree, sure: set<string>, order: seq<string>, pending: set<string>)
    requires WellFormed(t) && pending != {} && pending <= t.packages.Keys
    requires Layered(Blocking(t, sure), order) && forall p :: p in order <==> p in t.packages && p !in pending
    requires forall p :: p in pending ==> HasNext(Blocking(t, sure), pending, p)
    ensures !Acyclic(Blocking(t, sure))
    ensures forall p :: p in pending <==> LeadsToCycle(Blocking(t, sure), p)
  {
    forall p
      ensures p in pending <==> LeadsToCycle(Blocking(t, sure), p)
    {
      if p in pending {
        EndlessLeadsToCycle(Blocking(t, sure), pending, p);
      } else if p in order {
        LayeredHasNoCycle(Blocking(t, sure), order, p);
      } else if LeadsToCycle(Blocking(t, sure), p) {
        var c :| (c == p || Reaches(Blocking(t, sure), p, c)) && Reaches(Blocking(t, sure), c, c);
        var next := FirstStep(Blocking(t, sure), p, c);
      }
    }
    AcyclicMeansNoneLeads(Blocking(t, sure));
  }

  lemma NothingLeft(t: Tree, sure: set<string>, order: seq<string>)
    requires WellFormed(t) && Complete(t, sure, order)
    ensures Acyclic(Blocking(t, sure))
  {
    forall p
      ensures !LeadsToCycle(Blocking(t, sure), p)
    {
      if p in order {
        LayeredHasNoCycle(Blocking(t, sure), order, p);
      } else if LeadsToCycle(Blocking(t, sure), p) {
        var c :| (c == p || Reaches(Blocking(t, sure), p, c)) && Reaches(Blocking(t, sure), c, c);
        var next := FirstStep(Blocking(t, sure), p, c);
      }
    }
    AcyclicMeansNoneLeads(Blocking(t, sure));
  }
}
