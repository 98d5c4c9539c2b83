/** What a settling means, and the second search for the stack, over scopes
    (internal/alphasfile/tree.go). */
module PackageStack {
  import opened Paths
  import opened Wrappers
  import opened Packages
  import PackageToolchains

  // ---- the settling in its own terms ----

  /** The entrypoint's top level imports entry packages only. */
  predicate TopImportsEntries(t: Tree) {
    forall l :: l in t.links && l.scope.Top? && l.pkg.Some? && l.pkg.value in t.packages ==> t.packages[l.pkg.value].entry
  }

  /** The import of `p` is in force in the finished stack: its scope is in the stack, and its
      `enabled` holds there. */
  predicate Counts(t: Tree, plain: set<Scope>, r: Settling, p: string, l: Link) {
    && l.pkg == Some(p) && l.block.Some? && !l.scope.Top?
    && match Owner(l.scope)
       case None => l.scope in plain
       case Some(q) =>
         && q != p && q in r && r[q].active
         && (l.block.value.enabled.Some? ==> IsOn(l.block.value.enabled.value, r[q].features))
  }

  predicate Asks(t: Tree, plain: set<Scope>, r: Settling, p: string, f: string) {
    exists l :: l in t.links && Counts(t, plain, r, p, l) && f in l.block.value.features
  }

  /** Something puts `sure` packages there other than themselves. */
  lemma SureHasImporter(t: Tree, plain: set<Scope>, sure: set<string>, q: string) returns (l: Link)
    requires WellFormed(t) && IsSure(t, plain, sure) && q in sure && !t.packages[q].entry
    ensures l in t.links && l.pkg == Some(q) && Unconditional(l) && Rooted(plain, sure, l.scope) && Owner(l.scope) != Some(q)
  {
    var without := sure - {q};
    assert !SureClosed(t, plain, without);
    l :| l in t.links && l.pkg.Some? && l.block.Some? && l.block.value.enabled.None?
         && (if l.scope.PkgScope? || l.scope.PkgModule? then l.scope.pkg in without else l.scope in plain)
         && l.pkg.value !in without;
  }

  lemma NeedsAreTaken(t: Tree, plain: set<Scope>, sure: set<string>, r: Settling, p: string, l: Link)
    requires WellFormed(t) && p in t.packages && l in t.links && Needs(t, plain, sure, r, p).Ok?
    ensures Judge(t, plain, sure, r, p, l) == Take <==> l in Needs(t, plain, sure, r, p).value
    ensures !Judge(t, plain, sure, r, p, l).Bad?
  {
    assert t.links[..|t.links|] == t.links;
    NeedsAreTheCounting(t, plain, sure, r, p, |t.links|, l);
  }

  /** What counted while still unresolved turns out to be in the stack. */
  lemma SureIsActive(t: Tree, plain: set<Scope>, sure: set<string>, r: Settling, q: string)
    requires WellFormed(t) && IsSure(t, plain, sure) && TopImportsEntries(t) && Consistent(t, plain, sure, r)
    requires q in sure
    ensures q in r && r[q].active
  {
    assert Resolve(t, plain, sure, r, q) == Ok(r[q]);
    if !t.packages[q].entry {
      var l := SureHasImporter(t, plain, sure, q);
      NeedsAreTaken(t, plain, sure, r, q, l);
    }
  }

  lemma TakenIffCounts(t: Tree, plain: set<Scope>, sure: set<string>, r: Settling, p: string, l: Link)
    requires WellFormed(t) && IsSure(t, plain, sure) && TopImportsEntries(t) && Consistent(t, plain, sure, r)
    requires p in t.packages && l in t.links
    ensures Needs(t, plain, sure, r, p).Ok?
    ensures l in Needs(t, plain, sure, r, p).value <==> Counts(t, plain, r, p, l)
  {
    assert Resolve(t, plain, sure, r, p) == Ok(r[p]) && (t.packages[p].entry ==> Served(t, plain, sure, r, p));
    NeedsAreTaken(t, plain, sure, r, p, l);
    if Owner(l.scope).Some? && Owner(l.scope).value in sure {
      SureIsActive(t, plain, sure, r, Owner(l.scope).value);
    }
  }

  lemma NeedsAreLinks(t: Tree, plain: set<Scope>, sure: set<string>, r: Settling, p: string, l: Link)
    requires WellFormed(t) && p in t.packages && Needs(t, plain, sure, r, p).Ok?
    requires l in Needs(t, plain, sure, r, p).value
    ensures l in t.links
  {
    assert t.links[..|t.links|] == t.links;
    NeedsAreTheCounting(t, plain, sure, r, p, |t.links|, l);
  }

  lemma PassedIsAsked(t: Tree, plain: set<Scope>, sure: set<string>, r: Settling, p: string, f: string)
    requires WellFormed(t) && IsSure(t, plain, sure) && TopImportsEntries(t) && Consistent(t, plain, sure, r)
    requires p in t.packages
    ensures Needs(t, plain, sure, r, p).Ok?
    ensures f in Passed(Needs(t, plain, sure, r, p).value) <==> Asks(t, plain, r, p, f)
  {
    assert Resolve(t, plain, sure, r, p) == Ok(r[p]) && (t.packages[p].entry ==> Served(t, plain, sure, r, p));
    var needs := Needs(t, plain, sure, r, p).value;
    if f in Passed(needs) {
      var l :| l in needs && l.block.Some? && f in l.block.value.features;
      NeedsAreLinks(t, plain, sure, r, p, l);
      TakenIffCounts(t, plain, sure, r, p, l);
    }
    if Asks(t, plain, r, p, f) {
      var l :| l in t.links && Counts(t, plain, r, p, l) && f in l.block.value.features;
      TakenIffCounts(t, plain, sure, r, p, l);
    }
  }

  /** A consistent settling read off the finished stack alone. A package outside the top level is in
      the stack exactly when some import counts or injects, and has exactly the features those pass;
      an entry package has exactly what its top-level import passes and what is injected, and that
      covers the others. */
  lemma SettlingIsSelfConsistent(t: Tree, plain: set<Scope>, sure: set<string>, r: Settling, p: string)
    requires WellFormed(t) && IsSure(t, plain, sure) && TopImportsEntries(t) && Consistent(t, plain, sure, r)
    requires p in t.packages
    ensures r[p].active <==>
            t.packages[p].entry || t.packages[p].injected != [] || exists l :: l in t.links && Counts(t, plain, r, p, l)
    ensures forall f :: Asks(t, plain, r, p, f) ==> f in r[p].features
    ensures !t.packages[p].entry ==>
              forall f :: f in r[p].features <==> Asks(t, plain, r, p, f) || f in Injected(t.packages[p])
    ensures t.packages[p].entry ==>
              forall f :: f in r[p].features <==> f in t.packages[p].passed || exists s :: s in t.packages[p].injected && f in s
  {
    assert Resolve(t, plain, sure, r, p) == Ok(r[p]) && (t.packages[p].entry ==> Served(t, plain, sure, r, p));
    forall f
      ensures f in Passed(Needs(t, plain, sure, r, p).value) <==> Asks(t, plain, r, p, f)
    {
      PassedIsAsked(t, plain, sure, r, p, f);
    }
    var needs := Needs(t, plain, sure, r, p).value;
    if needs != [] {
      NeedsAreLinks(t, plain, sure, r, p, needs[0]);
      TakenIffCounts(t, plain, sure, r, p, needs[0]);
    }
    if l :| l in t.links && Counts(t, plain, r, p, l) {
      TakenIffCounts(t, plain, sure, r, p, l);
    }
  }

  // ---- the search over scopes ----

  function LinkEnabled(t: Tree, r: Settling, l: Link): Result<bool, Error> {
    if l.block.None? || l.block.value.enabled.None? then Ok(true)
    else match Owner(l.scope)
      case None => Err(NeedsFeature)
      case Some(q) =>
        if q !in r || q !in t.packages then Err(NeedsFeature)
        else EvalEnabled(l.block.value.enabled.value, t.packages[q].declared, r[q].features)
  }

  /** What a scope may reference: modules, and packages by their local names. */
  datatype Vis = Vis(mods: set<Scope>, pkgs: map<string, string>)

  function Local(l: Link): string
    requires l.pkg.Some?
  {
    if l.local == "" then l.pkg.value else l.local
  }

  function Add(vis: Vis, l: Link): Vis {
    Vis(vis.mods + (set m | m in l.modules), if l.pkg.Some? then vis.pkgs[Local(l) := l.pkg.value] else vis.pkgs)
  }

  function LinkedUpTo(t: Tree, r: Settling, vis: Vis, scope: Scope, k: nat): Result<Vis, Error>
    requires k <= |t.links|
  {
    if k == 0 then Ok(vis)
    else match LinkedUpTo(t, r, vis, scope, k - 1)
      case Err(e) => Err(e)
      case Ok(v) =>
        var l := t.links[k - 1];
        if l.scope != scope then Ok(v)
        else match LinkEnabled(t, r, l)
          case Err(e) => Err(e)
          case Ok(on) => Ok(if on then Add(v, l) else v)
  }

  method Linked(t: Tree, r: Settling, vis: Vis, scope: Scope) returns (out: Result<Vis, Error>)
    ensures out == LinkedUpTo(t, r, vis, scope, |t.links|)
  {
    var v := vis;
    for i := 0 to |t.links|
      invariant LinkedUpTo(t, r, vis, scope, i) == Ok(v)
    {
      var l := t.links[i];
      if l.scope == scope {
        var on := LinkEnabled(t, r, l);
        if on.Err? {
          LinkErrorStays(t, r, vis, scope, i + 1, |t.links|);
          return Err(on.error);
        }
        if on.value {
          v := Add(v, l);
        }
      }
    }
    return Ok(v);
  }

  lemma {:induction false} LinkErrorStays(t: Tree, r: Settling, vis: Vis, scope: Scope, j: nat, k: nat)
    requires j <= k <= |t.links| && LinkedUpTo(t, r, vis, scope, j).Err?
    ensures LinkedUpTo(t, r, vis, scope, k) == LinkedUpTo(t, r, vis, scope, j)
  {
    if j < k {
      LinkErrorStays(t, r, vis, scope, j, k - 1);
    }
  }

  function Own(t: Tree, s: Scope): set<Scope> {
    var entry := set c | c in t.components :: Component(c);
    match s
    case Top => entry
    case Component(c) => {s} + if c in t.components then entry else {}
    case PkgScope(p) => if p in t.packages then set m | m in t.packages[p].modules :: PkgModule(p, m) else {}
    case PkgModule(p, _) => if p in t.packages then set m | m in t.packages[p].modules :: PkgModule(p, m) else {}
  }

  /** A package's module sees what the package sees, and what it links itself. */
  function See(t: Tree, r: Settling, s: Scope): Result<Vis, Error> {
    var own := LinkedUpTo(t, r, Vis(Own(t, s), map[]), if s.PkgModule? then PkgScope(s.pkg) else s, |t.links|);
    if s.PkgModule? && own.Ok? then LinkedUpTo(t, r, own.value, s, |t.links|) else own
  }

  function AllScopes(t: Tree): set<Scope> {
    {Top} + (set c | c in t.components :: Component(c)) + (set p | p in t.packages :: PkgScope(p))
    + set p, m | p in t.packages && m in t.packages[p].modules :: PkgModule(p, m)
  }

  ghost predicate SeenBy(t: Tree, r: Settling, scopes: map<Scope, Vis>) {
    scopes.Keys == AllScopes(t) && forall s :: s in scopes ==> See(t, r, s) == Ok(scopes[s])
  }

  /** Every scope's view; fails if the `enabled` of any link is wrong, in the stack or not. */
  method Scopes(t: Tree, r: Settling) returns (scopes: Result<map<Scope, Vis>, Error>)
    ensures scopes.Ok? ==> SeenBy(t, r, scopes.value)
    ensures scopes.Ok? <==> forall s :: s in AllScopes(t) ==> See(t, r, s).Ok?
  {
    var made: map<Scope, Vis> := map[];
    var rest := AllScopes(t);
    while rest != {}
      invariant rest <= AllScopes(t) && made.Keys == AllScopes(t) - rest
      invariant forall s :: s in made ==> See(t, r, s) == Ok(made[s])
    {
      var s :| s in rest;
      var own := Vis(Own(t, s), map[]);
      var vis := Linked(t, r, own, if s.PkgModule? then PkgScope(s.pkg) else s);
      if vis.Ok? && s.PkgModule? {
        vis := Linked(t, r, vis.value, s);
      }
      if vis.Err? {
        return Err(vis.error);
      }
      made, rest := made[s := vis.value], rest - {s};
    }
    return Ok(made);
  }

  function Next(scopes: map<Scope, Vis>, s: Scope): set<Scope> {
    if s in scopes then scopes[s].mods + (set local | local in scopes[s].pkgs :: PkgScope(scopes[s].pkgs[local])) else {}
  }

  ghost predicate StackClosed(scopes: map<Scope, Vis>, stack: set<Scope>) {
    Top in stack && forall s, x :: s in stack && x in Next(scopes, s) ==> x in stack
  }

  ghost predicate IsStack(scopes: map<Scope, Vis>, stack: set<Scope>) {
    StackClosed(scopes, stack) && forall least :: StackClosed(scopes, least) ==> stack <= least
  }

  ghost function Visible(scopes: map<Scope, Vis>): set<Scope> {
    {Top} + set s, x | s in scopes && x in Next(scopes, s) :: x
  }

  ghost predicate SearchSoFar(scopes: map<Scope, Vis>, active: set<Scope>, queue: set<Scope>) {
    && active <= Visible(scopes) && queue <= Visible(scopes)
    && (Top in active || Top in queue)
    && (forall s, x :: s in active && x in Next(scopes, s) ==> x in active || x in queue)
    && forall least :: StackClosed(scopes, least) ==> active <= least && queue <= least
  }

  lemma SearchStep(scopes: map<Scope, Vis>, active: set<Scope>, queue: set<Scope>, s: Scope)
    requires SearchSoFar(scopes, active, queue) && s in queue
    ensures SearchSoFar(scopes, active + {s}, queue - {s} + Next(scopes, s))
    ensures s in active ==> SearchSoFar(scopes, active, queue - {s})
    ensures s in Visible(scopes)
  {
    forall least | StackClosed(scopes, least)
      ensures Next(scopes, s) <= least
    {
    }
  }

  lemma SearchStarts(scopes: map<Scope, Vis>)
    ensures SearchSoFar(scopes, {}, {Top})
  {
  }

  lemma SearchEnds(scopes: map<Scope, Vis>, active: set<Scope>)
    requires SearchSoFar(scopes, active, {})
    ensures IsStack(scopes, active)
  {
  }

  /** The search from the top level. The queue is kept as a set: the order of visits is left open. */
  method Search(scopes: map<Scope, Vis>) returns (active: set<Scope>)
    ensures IsStack(scopes, active)
  {
    active := {};
    var queue := {Top};
    SearchStarts(scopes);
    while queue != {}
      invariant SearchSoFar(scopes, active, queue)
      decreases |Visible(scopes) - active|, |queue|
    {
      var s :| s in queue;
      SearchStep(scopes, active, queue, s);
      if s in active {
        queue := queue - {s};
      } else {
        Shrinks(Visible(scopes) - (active + {s}), Visible(scopes) - active);
        active, queue := active + {s}, queue - {s} + Next(scopes, s);
      }
    }
    SearchEnds(scopes, active);
  }

  // ---- both searches find the same stack ----

  /** What the loader guarantees of the link table: no import brings in single modules, imports below
      the top level have a block, scopes are declared, and each entry package is imported at the top. */
  ghost predicate Loaded(t: Tree) {
    && WellFormed(t) && TopImportsEntries(t)
    && (forall l :: l in t.links ==> l.modules == [] && (!l.scope.Top? ==> l.block.Some?) && (l.scope.Component? || l.scope in AllScopes(t)))
    && (forall p :: p in t.packages && t.packages[p].entry ==> exists l :: l in t.links && l.scope.Top? && l.pkg == Some(p))
  }

  predicate UniqueLocals(t: Tree) {
    forall l, m :: l in t.links && m in t.links && l.scope == m.scope && l.pkg.Some? && m.pkg.Some? && Local(l) == Local(m) ==> l.pkg == m.pkg
  }

  /** The search reaches whatever the rules of other imports inject settings into. */
  predicate InjectedReached(t: Tree, stack: set<Scope>) {
    forall p :: p in t.packages && t.packages[p].injected != [] ==> PkgScope(p) in stack
  }

  ghost predicate On(t: Tree, r: Settling, l: Link) {
    LinkEnabled(t, r, l) == Ok(true)
  }

  /** The packages a scope sees are those its enabled links name, and what it started with. */
  lemma {:induction false} LinkedSees(t: Tree, r: Settling, vis: Vis, scope: Scope, k: nat)
    requires k <= |t.links| && LinkedUpTo(t, r, vis, scope, k).Ok?
    requires forall l :: l in t.links ==> l.modules == []
    ensures var v := LinkedUpTo(t, r, vis, scope, k).value;
            && v.mods == vis.mods
            && (forall n :: n in v.pkgs ==>
                  ((n in vis.pkgs && v.pkgs[n] == vis.pkgs[n]) || exists i :: 0 <= i < k && Brings(t, r, scope, t.links[i], n, v.pkgs[n])))
    ensures forall i :: 0 <= i < k && t.links[i].scope == scope ==> LinkEnabled(t, r, t.links[i]).Ok?
  {
    if k > 0 {
      LinkedSees(t, r, vis, scope, k - 1);
      assert t.links[k - 1] in t.links;
    }
  }

  ghost predicate Brings(t: Tree, r: Settling, scope: Scope, l: Link, name: string, p: string) {
    l.scope == scope && l.pkg == Some(p) && Local(l) == name && On(t, r, l)
  }

  lemma {:induction false} LinkedShows(t: Tree, r: Settling, vis: Vis, scope: Scope, k: nat, i: nat)
    requires i < k <= |t.links| && LinkedUpTo(t, r, vis, scope, k).Ok? && UniqueLocals(t)
    requires t.links[i].scope == scope && t.links[i].pkg.Some? && On(t, r, t.links[i])
    ensures var v := LinkedUpTo(t, r, vis, scope, k).value;
            Local(t.links[i]) in v.pkgs && Some(v.pkgs[Local(t.links[i])]) == t.links[i].pkg
  {
    if i < k - 1 {
      LinkedShows(t, r, vis, scope, k - 1, i);
      assert t.links[i] in t.links && t.links[k - 1] in t.links;
    }
  }

  /** Every package a scope sees is named by an enabled link there or, for a module, in its package. */
  lemma SeenIsLinked(t: Tree, r: Settling, scopes: map<Scope, Vis>, s: Scope, n: string) returns (l: Link)
    requires Loaded(t) && SeenBy(t, r, scopes) && s in scopes && n in scopes[s].pkgs
    ensures l in t.links && On(t, r, l) && l.pkg == Some(scopes[s].pkgs[n])
    ensures l.scope == s || (s.PkgModule? && l.scope == PkgScope(s.pkg))
  {
    var from := if s.PkgModule? then PkgScope(s.pkg) else s;
    assert See(t, r, s) == Ok(scopes[s]);
    var base := Vis(Own(t, s), map[]);
    LinkedSees(t, r, base, from, |t.links|);
    var own := LinkedUpTo(t, r, base, from, |t.links|).value;
    if s.PkgModule? {
      LinkedSees(t, r, own, s, |t.links|);
      if i :| 0 <= i < |t.links| && Brings(t, r, s, t.links[i], n, scopes[s].pkgs[n]) {
        return t.links[i];
      }
    }
    var i :| 0 <= i < |t.links| && Brings(t, r, from, t.links[i], n, scopes[s].pkgs[n]);
    return t.links[i];
  }

  lemma ModulesSeen(t: Tree, r: Settling, scopes: map<Scope, Vis>, s: Scope)
    requires Loaded(t) && SeenBy(t, r, scopes) && s in scopes
    ensures scopes[s].mods == Own(t, s)
  {
    var from := if s.PkgModule? then PkgScope(s.pkg) else s;
    assert See(t, r, s) == Ok(scopes[s]);
    var base := Vis(Own(t, s), map[]);
    LinkedSees(t, r, base, from, |t.links|);
    if s.PkgModule? {
      LinkedSees(t, r, LinkedUpTo(t, r, base, from, |t.links|).value, s, |t.links|);
    }
  }

  lemma LinkedIsSeen(t: Tree, r: Settling, scopes: map<Scope, Vis>, l: Link)
    requires Loaded(t) && UniqueLocals(t) && SeenBy(t, r, scopes)
    requires l in t.links && l.scope in scopes && l.pkg.Some? && On(t, r, l)
    ensures PkgScope(l.pkg.value) in Next(scopes, l.scope)
  {
    var i :| 0 <= i < |t.links| && t.links[i] == l;
    var s := l.scope;
    assert See(t, r, s) == Ok(scopes[s]);
    var base := Vis(Own(t, s), map[]);
    if s.PkgModule? {
      LinkedShows(t, r, LinkedUpTo(t, r, base, PkgScope(s.pkg), |t.links|).value, s, |t.links|, i);
    } else {
      LinkedShows(t, r, base, s, |t.links|, i);
    }
    assert scopes[s].pkgs[Local(l)] == l.pkg.value;
  }

  /** The scopes of everything the settling says is in the stack. */
  function ActiveScopes(t: Tree, r: Settling): set<Scope> {
    set s | s in AllScopes(t) && (Owner(s).Some? ==> Owner(s).value in r && r[Owner(s).value].active)
  }

  /** The entrypoint's own scopes. */
  function Entry(t: Tree): set<Scope> {
    {Top} + set c | c in t.components :: Component(c)
  }

  lemma PlainIsEntry(t: Tree, plain: set<Scope>)
    requires Loaded(t) && IsPlain(t, plain)
    ensures plain == Entry(t)
  {
    assert PlainClosed(t, Entry(t));
  }

  /** An import in force from the stack puts its package in the stack. */
  lemma LinkActivates(t: Tree, plain: set<Scope>, sure: set<string>, r: Settling, l: Link)
    requires Loaded(t) && IsPlain(t, plain) && IsSure(t, plain, sure) && Consistent(t, plain, sure, r)
    requires l in t.links && l.pkg.Some? && On(t, r, l) && l.scope in ActiveScopes(t, r)
    ensures r[l.pkg.value].active
  {
    var p := l.pkg.value;
    PlainIsEntry(t, plain);
    if !t.packages[p].entry && Owner(l.scope) != Some(p) {
      assert Counts(t, plain, r, p, l);
    }
    SettlingIsSelfConsistent(t, plain, sure, r, p);
  }

  lemma ActiveIsClosed(t: Tree, plain: set<Scope>, sure: set<string>, r: Settling, scopes: map<Scope, Vis>, s: Scope, x: Scope)
    requires Loaded(t) && IsPlain(t, plain) && IsSure(t, plain, sure) && Consistent(t, plain, sure, r) && SeenBy(t, r, scopes)
    requires s in ActiveScopes(t, r) && x in Next(scopes, s)
    ensures x in ActiveScopes(t, r)
  {
    ModulesSeen(t, r, scopes, s);
    if x in scopes[s].mods {
      OwnIsActive(t, r, s, x);
    } else {
      var n :| n in scopes[s].pkgs && x == PkgScope(scopes[s].pkgs[n]);
      var l := SeenIsLinked(t, r, scopes, s, n);
      LinkActivates(t, plain, sure, r, l);
    }
  }

  lemma OwnIsActive(t: Tree, r: Settling, s: Scope, x: Scope)
    requires s in ActiveScopes(t, r) && x in Own(t, s)
    ensures x in ActiveScopes(t, r)
  {
  }

  ghost function Found(t: Tree, stack: set<Scope>): set<string> {
    set p | p in t.packages && PkgScope(p) in stack
  }

  /** A link in force from a scope the search has reached leads it to the package. */
  lemma LinkLeadsOn(t: Tree, r: Settling, scopes: map<Scope, Vis>, stack: set<Scope>, l: Link)
    requires Loaded(t) && UniqueLocals(t) && SeenBy(t, r, scopes) && StackClosed(scopes, stack)
    requires l in t.links && l.pkg.Some? && On(t, r, l)
    requires l.scope.Top? || (l.scope.Component? && l.scope in AllScopes(t)) || (Owner(l.scope).Some? && Owner(l.scope).value in Found(t, stack))
    ensures l.pkg.value in Found(t, stack)
  {
    if l.scope.Component? {
      ModulesSeen(t, r, scopes, Top);
      assert l.scope in Next(scopes, Top);
    } else if l.scope.PkgModule? {
      ModulesSeen(t, r, scopes, PkgScope(l.scope.pkg));
      assert l.scope in Next(scopes, PkgScope(l.scope.pkg));
    }
    LinkedIsSeen(t, r, scopes, l);
  }

  /** An entrypoint scope cannot switch imports off without failing the search. */
  lemma SeenIsSound(t: Tree, r: Settling, scopes: map<Scope, Vis>, l: Link)
    requires Loaded(t) && SeenBy(t, r, scopes) && l in t.links && l.scope in AllScopes(t)
    ensures LinkEnabled(t, r, l).Ok?
    ensures Owner(l.scope).None? ==> On(t, r, l)
  {
    var s := l.scope;
    assert See(t, r, s) == Ok(scopes[s]);
    var base := Vis(Own(t, s), map[]);
    var i :| 0 <= i < |t.links| && t.links[i] == l;
    if s.PkgModule? {
      LinkedSees(t, r, LinkedUpTo(t, r, base, PkgScope(s.pkg), |t.links|).value, s, |t.links|);
    } else {
      LinkedSees(t, r, base, s, |t.links|);
    }
  }

  lemma SureIsFound(t: Tree, plain: set<Scope>, sure: set<string>, r: Settling, scopes: map<Scope, Vis>, stack: set<Scope>)
    requires Loaded(t) && UniqueLocals(t) && IsPlain(t, plain) && IsSure(t, plain, sure)
    requires SeenBy(t, r, scopes) && StackClosed(scopes, stack)
    ensures sure <= Found(t, stack)
  {
    PlainIsEntry(t, plain);
    forall p | p in t.packages && t.packages[p].entry
      ensures p in Found(t, stack)
    {
      var l :| l in t.links && l.scope.Top? && l.pkg == Some(p);
      SeenIsSound(t, r, scopes, l);
      LinkLeadsOn(t, r, scopes, stack, l);
    }
    forall l | l in t.links && Rooted(plain, Found(t, stack), l.scope) && l.pkg.Some? && Unconditional(l)
      ensures l.pkg.value in Found(t, stack)
    {
      LinkLeadsOn(t, r, scopes, stack, l);
    }
    assert SureClosed(t, plain, Found(t, stack));
  }

  lemma {:induction false} ActiveIsFound(t: Tree, plain: set<Scope>, sure: set<string>, r: Settling, scopes: map<Scope, Vis>,
                                         stack: set<Scope>, order: seq<string>)
    requires Loaded(t) && UniqueLocals(t) && InjectedReached(t, stack) && IsPlain(t, plain) && IsSure(t, plain, sure)
    requires Consistent(t, plain, sure, r) && SeenBy(t, r, scopes) && StackClosed(scopes, stack)
    requires Layered(Blocking(t, sure), order) && forall p :: p in order ==> p in t.packages
    ensures forall p :: p in order && r[p].active ==> p in Found(t, stack)
  {
    SureIsFound(t, plain, sure, r, scopes, stack);
    if order != [] {
      var n := |order| - 1;
      var p := order[n];
      assert order == order[..n] + [p];
      LayeredPrefix(Blocking(t, sure), order, n);
      ActiveIsFound(t, plain, sure, r, scopes, stack, order[..n]);
      if r[p].active && p !in sure && t.packages[p].injected == [] {
        SettlingIsSelfConsistent(t, plain, sure, r, p);
        var l :| l in t.links && Counts(t, plain, r, p, l);
        CountingIsFound(t, plain, sure, r, scopes, stack, order[..n], l, p);
      }
    }
  }

  lemma CountingIsFound(t: Tree, plain: set<Scope>, sure: set<string>, r: Settling, scopes: map<Scope, Vis>,
                        stack: set<Scope>, before: seq<string>, l: Link, p: string)
    requires Loaded(t) && UniqueLocals(t) && IsPlain(t, plain) && IsSure(t, plain, sure)
    requires Consistent(t, plain, sure, r) && SeenBy(t, r, scopes) && StackClosed(scopes, stack)
    requires p in t.packages && !t.packages[p].entry && forall q :: (p, q) in Blocking(t, sure) ==> q in before
    requires forall q :: q in before && q in r && r[q].active ==> q in Found(t, stack)
    requires l in t.links && Counts(t, plain, r, p, l)
    ensures p in Found(t, stack)
  {
    PlainIsEntry(t, plain);
    SeenIsSound(t, r, scopes, l);
    if Owner(l.scope).Some? {
      SureIsFound(t, plain, sure, r, scopes, stack);
      if BlocksOn(t, sure, l) {
        assert (p, Owner(l.scope).value) in Blocking(t, sure);
      }
    }
    LinkLeadsOn(t, r, scopes, stack, l);
  }

  lemma StackIsActive(t: Tree, plain: set<Scope>, sure: set<string>, r: Settling, scopes: map<Scope, Vis>, stack: set<Scope>)
    requires Loaded(t) && IsPlain(t, plain) && IsSure(t, plain, sure) && Consistent(t, plain, sure, r)
    requires SeenBy(t, r, scopes) && IsStack(scopes, stack)
    ensures stack <= ActiveScopes(t, r)
  {
    forall s, x | s in ActiveScopes(t, r) && x in Next(scopes, s)
      ensures x in ActiveScopes(t, r)
    {
      ActiveIsClosed(t, plain, sure, r, scopes, s, x);
    }
    assert StackClosed(scopes, ActiveScopes(t, r));
  }

  lemma ActiveIsStack(t: Tree, r: Settling, scopes: map<Scope, Vis>, stack: set<Scope>)
    requires Loaded(t) && SeenBy(t, r, scopes) && StackClosed(scopes, stack)
    requires forall p :: p in t.packages && p in r && r[p].active ==> p in Found(t, stack)
    ensures ActiveScopes(t, r) <= stack
  {
    forall s | s in ActiveScopes(t, r)
      ensures s in stack
    {
      if s.PkgModule? {
        ModulesSeen(t, r, scopes, PkgScope(s.pkg));
        assert s in Next(scopes, PkgScope(s.pkg));
      } else if s.Component? {
        ModulesSeen(t, r, scopes, Top);
        assert s in Next(scopes, Top);
      }
    }
  }

  lemma InjectedAreActive(t: Tree, plain: set<Scope>, sure: set<string>, r: Settling)
    requires Loaded(t) && IsSure(t, plain, sure) && Consistent(t, plain, sure, r)
    ensures InjectedReached(t, ActiveScopes(t, r))
  {
    forall p | p in t.packages && t.packages[p].injected != []
      ensures PkgScope(p) in ActiveScopes(t, r)
    {
      SettlingIsSelfConsistent(t, plain, sure, r, p);
    }
  }

  /** The search finds nothing the worklist leaves out, and the two agree scope by scope exactly if the
      search reaches every package with injected settings. */
  lemma StacksAgree(t: Tree, plain: set<Scope>, sure: set<string>, r: Settling, scopes: map<Scope, Vis>, stack: set<Scope>)
    requires Loaded(t) && UniqueLocals(t) && IsPlain(t, plain) && IsSure(t, plain, sure)
    requires Acyclic(Blocking(t, sure)) && Consistent(t, plain, sure, r)
    requires SeenBy(t, r, scopes) && IsStack(scopes, stack)
    ensures stack <= ActiveScopes(t, r)
    ensures stack == ActiveScopes(t, r) <==> InjectedReached(t, stack)
  {
    StackIsActive(t, plain, sure, r, scopes, stack);
    InjectedAreActive(t, plain, sure, r);
    if InjectedReached(t, stack) {
      var order := AcyclicHasOrder(Blocking(t, sure), t.packages.Keys, []);
      ActiveIsFound(t, plain, sure, r, scopes, stack, order);
      ActiveIsStack(t, r, scopes, stack);
    }
  }

  // ---- the toolchains of the packages in the stack ----

  /** The packages among the importers, in order; imports from components bring no toolchain. */
  function Importers(needs: seq<Link>): seq<string> {
    if needs == [] then []
    else (if Owner(needs[0].scope).Some? then [Owner(needs[0].scope).value] else []) + Importers(needs[1..])
  }

  lemma {:induction false} ImportersAreOwners(needs: seq<Link>, q: string)
    ensures q in Importers(needs) <==> exists l :: l in needs && Owner(l.scope) == Some(q)
  {
    if needs != [] {
      ImportersAreOwners(needs[1..], q);
      assert needs == [needs[0]] + needs[1..];
    }
  }

  /** What the toolchain pass reads of the resolved packages. */
  function Running(t: Tree, r: Settling, needs: map<string, seq<Link>>): map<string, PackageToolchains.Package>
    requires forall p :: p in t.packages ==> p in r && p in needs
  {
    map p | p in t.packages :: PackageToolchains.Package(r[p].active, t.packages[p].toolchain, Importers(needs[p]))
  }

  /** Who hands its toolchain to whom in the finished stack: the importer to what it imports, if that is
      in the stack, has no block of its own, and the import counts. */
  ghost function HandsOn(t: Tree, plain: set<Scope>, r: Settling): set<(string, string)> {
    set l, p, q |
      && l in t.links && p in t.packages && q in t.packages && Owner(l.scope) == Some(q) && Counts(t, plain, r, p, l)
      && p in r && r[p].active && t.packages[p].toolchain.None? :: (q, p)
  }

  lemma FeedsAreHandedOn(t: Tree, plain: set<Scope>, sure: set<string>, r: Settling, needs: map<string, seq<Link>>)
    requires WellFormed(t) && IsSure(t, plain, sure) && TopImportsEntries(t) && Consistent(t, plain, sure, r)
    requires AllNeedsKept(t, plain, sure, r, needs)
    ensures PackageToolchains.Feeds(Running(t, r, needs)) == HandsOn(t, plain, r)
  {
    var pkgs := Running(t, r, needs);
    forall q, p
      ensures (q, p) in PackageToolchains.Feeds(pkgs) <==> (q, p) in HandsOn(t, plain, r)
    {
      if p in t.packages && r[p].active && t.packages[p].toolchain.None? {
        FeedIsHandedOn(t, plain, sure, r, needs, q, p);
      }
    }
  }

  lemma FeedIsHandedOn(t: Tree, plain: set<Scope>, sure: set<string>, r: Settling, needs: map<string, seq<Link>>, q: string, p: string)
    requires WellFormed(t) && IsSure(t, plain, sure) && TopImportsEntries(t) && Consistent(t, plain, sure, r)
    requires p in t.packages && NeedsKept(t, plain, sure, r, needs, p)
    ensures q in Importers(needs[p]) <==>
            exists l :: l in t.links && Owner(l.scope) == Some(q) && Counts(t, plain, r, p, l)
  {
    ImportersAreOwners(needs[p], q);
    forall l
      ensures l in needs[p] <==> l in t.links && Counts(t, plain, r, p, l)
    {
      if l in needs[p] {
        NeedsAreLinks(t, plain, sure, r, p, l);
      }
      if l in t.links {
        TakenIffCounts(t, plain, sure, r, p, l);
      }
    }
  }

  /** `q` is in the stack and declares `key`, and is `p` or hands it on to `p`. */
  ghost predicate HandsDown(t: Tree, plain: set<Scope>, r: Settling, q: string, p: string, key: string) {
    && q in t.packages && q in r && r[q].active && t.packages[q].toolchain == Some(key)
    && (q == p || Reaches(HandsOn(t, plain, r), q, p))
  }

  ghost predicate RunsWith(t: Tree, plain: set<Scope>, r: Settling, p: string, key: string) {
    exists q :: HandsDown(t, plain, r, q, p, key)
  }

  /** Two packages hand different toolchains on to this one. */
  ghost predicate Differ(t: Tree, plain: set<Scope>, r: Settling, pkg: string, importer: string, other: string) {
    && (importer, pkg) in HandsOn(t, plain, r) && (other, pkg) in HandsOn(t, plain, r)
    && exists k, l :: k != l && RunsWith(t, plain, r, importer, k) && RunsWith(t, plain, r, other, l)
                      && RunsWith(t, plain, r, pkg, k) && RunsWith(t, plain, r, pkg, l)
  }

  lemma SuppliesIsHandedDown(t: Tree, plain: set<Scope>, r: Settling, needs: map<string, seq<Link>>, q: string, p: string, key: string)
    requires forall p :: p in t.packages ==> p in r && p in needs
    requires PackageToolchains.Feeds(Running(t, r, needs)) == HandsOn(t, plain, r)
    ensures PackageToolchains.Supplies(Running(t, r, needs), q, p, key) <==> HandsDown(t, plain, r, q, p, key)
  {
    assert q in Running(t, r, needs) <==> q in t.packages;
  }

  lemma GetsIsRunsWith(t: Tree, plain: set<Scope>, r: Settling, needs: map<string, seq<Link>>)
    requires forall p :: p in t.packages ==> p in r && p in needs
    requires PackageToolchains.Feeds(Running(t, r, needs)) == HandsOn(t, plain, r)
    ensures forall q, p, key :: PackageToolchains.Supplies(Running(t, r, needs), q, p, key) <==> HandsDown(t, plain, r, q, p, key)
    ensures forall p, key :: PackageToolchains.Gets(Running(t, r, needs), p, key) <==> RunsWith(t, plain, r, p, key)
  {
    var pkgs := Running(t, r, needs);
    forall q, p, key
      ensures PackageToolchains.Supplies(pkgs, q, p, key) <==> HandsDown(t, plain, r, q, p, key)
    {
      SuppliesIsHandedDown(t, plain, r, needs, q, p, key);
    }
  }

  lemma DisagreeIsDiffer(t: Tree, plain: set<Scope>, r: Settling, needs: map<string, seq<Link>>, c: PackageToolchains.Conflict)
    requires forall p :: p in t.packages ==> p in r && p in needs
    requires PackageToolchains.Feeds(Running(t, r, needs)) == HandsOn(t, plain, r)
    requires PackageToolchains.Disagree(Running(t, r, needs), c)
    ensures Differ(t, plain, r, c.pkg, c.importer, c.other)
  {
    var pkgs := Running(t, r, needs);
    GetsIsRunsWith(t, plain, r, needs);
    assert (c.importer, c.pkg) in PackageToolchains.Feeds(pkgs) && (c.other, c.pkg) in PackageToolchains.Feeds(pkgs);
  }

  /** Fails exactly when two toolchains are handed on to one package, and otherwise gives each package
      the toolchain handed on to it, as a package that hands it down declares it. */
  method Toolchains(t: Tree, ghost plain: set<Scope>, ghost sure: set<string>, r: Settling, needs: map<string, seq<Link>>)
    returns (failed: Option<Failure>, pins: map<string, PackageToolchains.Pin>)
    requires WellFormed(t) && IsSure(t, plain, sure) && TopImportsEntries(t) && Consistent(t, plain, sure, r)
    requires AllNeedsKept(t, plain, sure, r, needs)
    ensures failed.None? ==> forall p, key :: p in pins && pins[p].key == key <==> RunsWith(t, plain, r, p, key)
    ensures failed.None? ==> forall p :: p in pins ==> HandsDown(t, plain, r, pins[p].from, p, pins[p].key)
    ensures failed.Some? ==> failed.value.ToolchainsDiffer?
                             && Differ(t, plain, r, failed.value.pkg, failed.value.importer, failed.value.other)
  {
    var pkgs := Running(t, r, needs);
    FeedsAreHandedOn(t, plain, sure, r, needs);
    GetsIsRunsWith(t, plain, r, needs);
    var out := PackageToolchains.Resolve(pkgs);
    if out.Err? {
      DisagreeIsDiffer(t, plain, r, needs, out.error);
      return Some(ToolchainsDiffer(out.error.pkg, out.error.importer, out.error.other)), map[];
    }
    return None, out.value;
  }
}
