/** What a resolved stack is, said of the finished stack alone: no order, no pending packages, no
    estimate of what is surely in it. The worklist finds exactly this (internal/alphasfile/package.go). */
module PackageMeaning {
  import opened Paths
  import opened Sorting
  import opened Wrappers
  import opened Packages
  import opened PackageStack
  import PackageToolchains

  // ---- feature formulas ----

  function Conjunction(fs: seq<string>): Formula {
    if fs == [] then Const(true) else And(Feature(fs[0]), Conjunction(fs[1..]))
  }

  function Disjunction(fs: seq<string>): Formula {
    if fs == [] then Const(false) else Or(Feature(fs[0]), Disjunction(fs[1..]))
  }

  /** `features.a && features.b && …` holds when all of them are on; its negation when one is off. */
  lemma {:induction false} ConjunctionIsAll(fs: seq<string>, on: set<string>)
    ensures IsOn(Conjunction(fs), on) <==> forall f :: f in fs ==> f in on
    ensures IsOn(Not(Conjunction(fs)), on) <==> exists f :: f in fs && f !in on
    ensures Vars(Conjunction(fs)) == Vars(Not(Conjunction(fs))) == set f | f in fs
  {
    if fs != [] {
      ConjunctionIsAll(fs[1..], on);
      assert fs == [fs[0]] + fs[1..];
    }
  }

  /** `features.a || features.b || …` holds when one of them is on. */
  lemma {:induction false} DisjunctionIsAny(fs: seq<string>, on: set<string>)
    ensures IsOn(Disjunction(fs), on) <==> exists f :: f in fs && f in on
    ensures Vars(Disjunction(fs)) == set f | f in fs
  {
    if fs != [] {
      DisjunctionIsAny(fs[1..], on);
      assert fs == [fs[0]] + fs[1..];
    }
  }

  /** A formula looks at the features it names and at no others. */
  lemma {:induction false} LooksAtItsFeatures(e: Formula, one: set<string>, other: set<string>)
    requires forall f :: f in Vars(e) ==> (f in one <==> f in other)
    ensures IsOn(e, one) == IsOn(e, other)
  {
    match e
    case Const(_) =>
    case Feature(_) =>
    case Not(a) => LooksAtItsFeatures(a, one, other);
    case And(a, b) => LooksAtItsFeatures(a, one, other); LooksAtItsFeatures(b, one, other);
    case Or(a, b) => LooksAtItsFeatures(a, one, other); LooksAtItsFeatures(b, one, other);
  }

  // ---- the finished stack ----

  predicate Inside(s: Scope, q: string) {
    (s.PkgScope? || s.PkgModule?) && s.pkg == q
  }

  /** The import of `p` is written where the stack is: in a component of the entrypoint, or in another
      package of the stack. */
  ghost predicate Written(t: Tree, plain: set<Scope>, r: Settling, p: string, l: Link) {
    && l in t.links && l.pkg == Some(p) && l.block.Some?
    && (|| (l.scope.Component? && l.scope in plain)
        || exists q :: Inside(l.scope, q) && q != p && q in r && r[q].active)
  }

  /** And it is switched on. Only a package can switch its imports. */
  ghost predicate InForce(t: Tree, plain: set<Scope>, r: Settling, p: string, l: Link) {
    && Written(t, plain, r, p, l)
    && (l.scope.Component? || l.block.value.enabled.None? ||
        exists q :: Inside(l.scope, q) && q in r && IsOn(l.block.value.enabled.value, r[q].features))
  }

  ghost predicate Imported(t: Tree, plain: set<Scope>, r: Settling, p: string) {
    exists l :: InForce(t, plain, r, p, l)
  }

  ghost predicate PassedByImport(t: Tree, plain: set<Scope>, r: Settling, p: string, f: string) {
    exists l :: InForce(t, plain, r, p, l) && f in l.block.value.features
  }

  predicate InjectedInto(pkg: Package, f: string) {
    exists i :: i in pkg.injected && f in i
  }

  /** A package is in the stack exactly if something puts it there, and runs with exactly the features
      it is given. */
  ghost predicate Given(t: Tree, plain: set<Scope>, r: Settling, p: string)
    requires p in t.packages && p in r
  {
    var pkg := t.packages[p];
    && (r[p].active <==> pkg.entry || pkg.injected != [] || Imported(t, plain, r, p))
    && (forall f :: f in r[p].features <==>
          || InjectedInto(pkg, f)
          || if pkg.entry then f in pkg.passed else PassedByImport(t, plain, r, p, f))
  }

  ghost predicate Sensible(pkg: Package, features: seq<string>) {
    && (forall i, j :: 0 <= i < j < |features| ==> features[i] != features[j])
    && (forall f :: f in features ==> f in pkg.declared)
  }

  /** No import or injection is wrong. */
  ghost predicate NothingWrong(t: Tree, plain: set<Scope>, r: Settling, p: string)
    requires p in t.packages && p in r
  {
    var pkg := t.packages[p];
    && (forall f :: InjectedInto(pkg, f) ==> f in pkg.declared)
    && (pkg.entry ==> forall f :: f in pkg.passed ==> f in pkg.declared)
    && (forall l :: InForce(t, plain, r, p, l) ==> Sensible(pkg, l.block.value.features))
    && (pkg.entry ==> forall f :: PassedByImport(t, plain, r, p, f) ==> f in r[p].features)
    && (forall l, q :: Written(t, plain, r, p, l) && Inside(l.scope, q) && q in t.packages && l.block.value.enabled.Some? ==>
          && t.packages[q].declared != {}
          && forall f :: f in Vars(l.block.value.enabled.value) ==> f in t.packages[q].declared)
  }

  ghost predicate Right(t: Tree, plain: set<Scope>, r: Settling) {
    r.Keys == t.packages.Keys && forall p :: p in t.packages ==> Given(t, plain, r, p) && NothingWrong(t, plain, r, p)
  }

  // ---- a right settling is a consistent one ----

  /** What surely is in the stack is in it. */
  lemma SureIsGiven(t: Tree, plain: set<Scope>, sure: set<string>, r: Settling, q: string)
    requires WellFormed(t) && IsSure(t, plain, sure) && TopImportsEntries(t) && Right(t, plain, r) && q in sure
    ensures q in r && r[q].active
  {
    var active := set p | p in r && r[p].active;
    forall p | p in t.packages && t.packages[p].entry
      ensures p in active
    {
      assert Given(t, plain, r, p);
    }
    forall l | l in t.links && Rooted(plain, active, l.scope) && l.pkg.Some? && Unconditional(l)
      ensures l.pkg.value in active
    {
      UnconditionalGives(t, plain, r, active, l);
    }
    assert SureClosed(t, plain, active);
  }

  lemma UnconditionalGives(t: Tree, plain: set<Scope>, r: Settling, active: set<string>, l: Link)
    requires WellFormed(t) && TopImportsEntries(t) && Right(t, plain, r) && active == set p | p in r && r[p].active
    requires l in t.links && Rooted(plain, active, l.scope) && l.pkg.Some? && Unconditional(l)
    ensures l.pkg.value in active
  {
    var p := l.pkg.value;
    assert Given(t, plain, r, p);
    if !l.scope.Top? && Owner(l.scope) != Some(p) {
      if Owner(l.scope).Some? {
        assert Inside(l.scope, Owner(l.scope).value);
      }
      assert InForce(t, plain, r, p, l);
    }
  }

  lemma JudgedRight(t: Tree, plain: set<Scope>, sure: set<string>, r: Settling, p: string, l: Link)
    requires WellFormed(t) && IsSure(t, plain, sure) && TopImportsEntries(t) && Right(t, plain, r)
    requires p in t.packages && l in t.links
    ensures !Judge(t, plain, sure, r, p, l).Bad?
    ensures Judge(t, plain, sure, r, p, l) == Take <==> InForce(t, plain, r, p, l)
  {
    assert NothingWrong(t, plain, r, p);
    if Owner(l.scope).Some? {
      var q := Owner(l.scope).value;
      assert Inside(l.scope, q);
      if q in sure {
        SureIsGiven(t, plain, sure, r, q);
      }
    }
    if InForce(t, plain, r, p, l) {
      assert Sensible(t.packages[p], l.block.value.features);
    }
  }

  lemma {:induction false} NoneBad(t: Tree, plain: set<Scope>, sure: set<string>, r: Settling, p: string, k: nat)
    requires WellFormed(t) && p in t.packages && k <= |t.links|
    requires forall l :: l in t.links ==> !Judge(t, plain, sure, r, p, l).Bad?
    ensures NeedsUpTo(t, plain, sure, r, p, k).Ok?
  {
    if k > 0 {
      NoneBad(t, plain, sure, r, p, k - 1);
      assert t.links[k - 1] in t.links;
    }
  }

  lemma NeedsRight(t: Tree, plain: set<Scope>, sure: set<string>, r: Settling, p: string)
    requires WellFormed(t) && IsSure(t, plain, sure) && TopImportsEntries(t) && Right(t, plain, r) && p in t.packages
    ensures Needs(t, plain, sure, r, p).Ok?
    ensures forall l :: l in Needs(t, plain, sure, r, p).value <==> InForce(t, plain, r, p, l)
  {
    forall l | l in t.links
      ensures !Judge(t, plain, sure, r, p, l).Bad?
    {
      JudgedRight(t, plain, sure, r, p, l);
    }
    NoneBad(t, plain, sure, r, p, |t.links|);
    forall l
      ensures l in Needs(t, plain, sure, r, p).value <==> InForce(t, plain, r, p, l)
    {
      if l in t.links {
        JudgedRight(t, plain, sure, r, p, l);
        NeedsAreTaken(t, plain, sure, r, p, l);
      } else if l in Needs(t, plain, sure, r, p).value {
        NeedsAreLinks(t, plain, sure, r, p, l);
      }
    }
  }

  lemma RightResolves(t: Tree, plain: set<Scope>, sure: set<string>, r: Settling, p: string)
    requires WellFormed(t) && IsSure(t, plain, sure) && TopImportsEntries(t) && Right(t, plain, r) && p in t.packages
    ensures Resolve(t, plain, sure, r, p) == Ok(r[p]) && (t.packages[p].entry ==> Served(t, plain, sure, r, p))
  {
    NeedsRight(t, plain, sure, r, p);
    var pkg, needs := t.packages[p], Needs(t, plain, sure, r, p).value;
    assert Given(t, plain, r, p) && NothingWrong(t, plain, r, p);
    forall f
      ensures f in Injected(pkg) <==> InjectedInto(pkg, f)
      ensures f in Passed(needs) <==> PassedByImport(t, plain, r, p, f)
    {
      assert forall l :: l in needs ==> InForce(t, plain, r, p, l);
    }
    assert needs != [] <==> Imported(t, plain, r, p) by {
      if needs != [] {
        assert needs[0] in needs;
      }
    }
    if pkg.entry {
      assert Elements(pkg.passed) + Injected(pkg) == r[p].features;
    } else {
      assert Passed(needs) + Injected(pkg) == r[p].features;
      assert needs == [] && pkg.injected == [] ==> r[p] == Settled(false, {});
    }
  }

  // ---- and the other way round ----

  lemma InForceCounts(t: Tree, plain: set<Scope>, r: Settling, p: string, l: Link)
    requires l in t.links
    ensures InForce(t, plain, r, p, l) <==> Counts(t, plain, r, p, l)
  {
    if Owner(l.scope).Some? {
      assert Inside(l.scope, Owner(l.scope).value);
    }
  }

  lemma CountingIsSensible(t: Tree, plain: set<Scope>, sure: set<string>, r: Settling, p: string, l: Link)
    requires WellFormed(t) && IsSure(t, plain, sure) && TopImportsEntries(t) && Consistent(t, plain, sure, r)
    requires p in t.packages && l in t.links && Counts(t, plain, r, p, l)
    ensures Sensible(t.packages[p], l.block.value.features)
  {
    TakenIffCounts(t, plain, sure, r, p, l);
    NeedsAreTaken(t, plain, sure, r, p, l);
  }

  lemma SwitchIsSensible(t: Tree, plain: set<Scope>, sure: set<string>, r: Settling, p: string, l: Link, q: string)
    requires WellFormed(t) && IsSure(t, plain, sure) && TopImportsEntries(t) && Consistent(t, plain, sure, r)
    requires p in t.packages && q in t.packages && Written(t, plain, r, p, l) && Inside(l.scope, q) && l.block.value.enabled.Some?
    ensures t.packages[q].declared != {} && forall f :: f in Vars(l.block.value.enabled.value) ==> f in t.packages[q].declared
  {
    TakenIffCounts(t, plain, sure, r, p, l);
    NeedsAreTaken(t, plain, sure, r, p, l);
  }

  lemma ConsistentIsRight(t: Tree, plain: set<Scope>, sure: set<string>, r: Settling, p: string)
    requires WellFormed(t) && IsSure(t, plain, sure) && TopImportsEntries(t) && Consistent(t, plain, sure, r)
    requires p in t.packages
    ensures Given(t, plain, r, p) && NothingWrong(t, plain, r, p)
  {
    var pkg := t.packages[p];
    assert Resolve(t, plain, sure, r, p) == Ok(r[p]);
    SettlingIsSelfConsistent(t, plain, sure, r, p);
    forall l
      ensures InForce(t, plain, r, p, l) <==> l in t.links && Counts(t, plain, r, p, l)
      ensures InForce(t, plain, r, p, l) ==> Sensible(pkg, l.block.value.features)
    {
      if l in t.links {
        InForceCounts(t, plain, r, p, l);
        if Counts(t, plain, r, p, l) {
          CountingIsSensible(t, plain, sure, r, p, l);
        }
      }
    }
    forall f
      ensures f in Injected(pkg) <==> InjectedInto(pkg, f)
      ensures Asks(t, plain, r, p, f) <==> PassedByImport(t, plain, r, p, f)
    {
    }
    forall l, q | Written(t, plain, r, p, l) && Inside(l.scope, q) && q in t.packages && l.block.value.enabled.Some?
      ensures t.packages[q].declared != {} && forall f :: f in Vars(l.block.value.enabled.value) ==> f in t.packages[q].declared
    {
      SwitchIsSensible(t, plain, sure, r, p, l, q);
    }
  }

  /** The settlings that resolving against themselves leaves alone are exactly the right ones. */
  lemma ConsistentIffRight(t: Tree, plain: set<Scope>, sure: set<string>, r: Settling)
    requires WellFormed(t) && IsSure(t, plain, sure) && TopImportsEntries(t)
    ensures Consistent(t, plain, sure, r) <==> Right(t, plain, r)
  {
    if Consistent(t, plain, sure, r) {
      forall p | p in t.packages
        ensures Given(t, plain, r, p) && NothingWrong(t, plain, r, p)
      {
        ConsistentIsRight(t, plain, sure, r, p);
      }
    }
    if Right(t, plain, r) {
      forall p | p in t.packages
        ensures Resolve(t, plain, sure, r, p) == Ok(r[p]) && (t.packages[p].entry ==> Served(t, plain, sure, r, p))
      {
        RightResolves(t, plain, sure, r, p);
      }
    }
  }

  // ---- who waits for whom ----

  /** One package waits for another exactly over an import whose counting is not certain: one with a
      switch, or one in a package that is not surely in the stack. Entry packages wait for none. */
  lemma BlockingMeans(t: Tree, sure: set<string>, p: string, q: string)
    requires WellFormed(t)
    ensures (p, q) in Blocking(t, sure) <==>
            && p in t.packages && !t.packages[p].entry && p != q
            && exists l :: l in t.links && l.pkg == Some(p) && Inside(l.scope, q)
                           && !(q in sure && l.block.Some? && l.block.value.enabled.None?)
  {
    if (p, q) in Blocking(t, sure) {
      var l :| l in t.links && BlocksOn(t, sure, l) && l.pkg.value == p && Owner(l.scope).value == q;
      assert Inside(l.scope, q);
    }
    if l :| l in t.links && l.pkg == Some(p) && Inside(l.scope, q) && !(q in sure && l.block.Some? && l.block.value.enabled.None?) {
      assert Owner(l.scope) == Some(q);
    }
  }

  // ---- the search ----

  /** The import is switched on, by the features of the package it is written in. */
  ghost predicate SwitchedOn(t: Tree, r: Settling, l: Link) {
    || l.block.None? || l.block.value.enabled.None?
    || exists q :: Inside(l.scope, q) && q in r && IsOn(l.block.value.enabled.value, r[q].features)
  }

  /** Every switch is in a package that declares the features it looks at, in the stack or not. */
  ghost predicate SwitchesSensible(t: Tree) {
    forall l :: l in t.links && l.block.Some? && l.block.value.enabled.Some? && l.scope in AllScopes(t) ==>
      exists q :: Inside(l.scope, q) && q in t.packages && t.packages[q].declared != {}
                  && forall f :: f in Vars(l.block.value.enabled.value) ==> f in t.packages[q].declared
  }

  /** What an import is called where it is written. */
  function NameOf(l: Link): string
    requires l.pkg.Some?
  {
    if l.local != "" then l.local else l.pkg.value
  }

  ghost predicate Shows(t: Tree, r: Settling, scope: Scope, i: int, name: string) {
    && 0 <= i < |t.links| && t.links[i].scope == scope && t.links[i].pkg.Some? && NameOf(t.links[i]) == name
    && SwitchedOn(t, r, t.links[i])
  }

  /** The last import of that name there which is switched on hides the others. */
  ghost predicate Wins(t: Tree, r: Settling, i: nat) {
    && i < |t.links| && t.links[i].pkg.Some?
    && Shows(t, r, t.links[i].scope, i, NameOf(t.links[i]))
    && forall j :: i < j < |t.links| ==> !Shows(t, r, t.links[i].scope, j, NameOf(t.links[i]))
  }

  /** The entrypoint with its components, the modules of every package, and what imports lead to. */
  ghost predicate SearchClosed(t: Tree, r: Settling, stack: set<Scope>) {
    && Top in stack
    && (forall c :: c in t.components ==> Component(c) in stack)
    && (forall p, m :: p in t.packages && PkgScope(p) in stack && m in t.packages[p].modules ==> PkgModule(p, m) in stack)
    && (forall i: nat :: Wins(t, r, i) && t.links[i].scope in stack && t.links[i].scope in AllScopes(t) ==>
          PkgScope(t.links[i].pkg.value) in stack)
  }

  /** Nothing but what that takes. */
  ghost predicate Searched(t: Tree, r: Settling, stack: set<Scope>) {
    SearchClosed(t, r, stack) && forall other :: SearchClosed(t, r, other) ==> stack <= other
  }

  lemma OnIsSwitchedOn(t: Tree, r: Settling, l: Link)
    requires r.Keys == t.packages.Keys && LinkEnabled(t, r, l).Ok?
    ensures On(t, r, l) <==> SwitchedOn(t, r, l)
  {
    if Owner(l.scope).Some? {
      assert Inside(l.scope, Owner(l.scope).value);
    }
  }

  ghost function LastShown(t: Tree, r: Settling, scope: Scope, k: nat, name: string): (last: Option<nat>)
    ensures match last
            case Some(i) => i < k && Shows(t, r, scope, i, name) && forall j :: i < j < k ==> !Shows(t, r, scope, j, name)
            case None => forall j :: 0 <= j < k ==> !Shows(t, r, scope, j, name)
  {
    if k == 0 then None
    else if Shows(t, r, scope, k - 1, name) then Some(k - 1)
    else LastShown(t, r, scope, k - 1, name)
  }

  lemma {:induction false} LastWins(t: Tree, r: Settling, vis: Vis, scope: Scope, k: nat, name: string)
    requires k <= |t.links| && r.Keys == t.packages.Keys && LinkedUpTo(t, r, vis, scope, k).Ok?
    ensures var pkgs := LinkedUpTo(t, r, vis, scope, k).value.pkgs;
            match LastShown(t, r, scope, k, name)
            case Some(i) => name in pkgs && t.links[i].pkg == Some(pkgs[name])
            case None => (name in pkgs <==> name in vis.pkgs) && (name in pkgs ==> pkgs[name] == vis.pkgs[name])
  {
    if k > 0 {
      LastWins(t, r, vis, scope, k - 1, name);
      if t.links[k - 1].scope == scope {
        OnIsSwitchedOn(t, r, t.links[k - 1]);
      }
    }
  }

  lemma WinnerIsLast(t: Tree, r: Settling, i: nat)
    requires Wins(t, r, i)
    ensures LastShown(t, r, t.links[i].scope, |t.links|, NameOf(t.links[i])) == Some(i)
  {
  }

  /** The import that wins a name is the one the scope sees under it. */
  lemma WinnerIsSeen(t: Tree, r: Settling, scopes: map<Scope, Vis>, i: nat)
    requires Loaded(t) && r.Keys == t.packages.Keys && SeenBy(t, r, scopes) && Wins(t, r, i) && t.links[i].scope in scopes
    ensures PkgScope(t.links[i].pkg.value) in Next(scopes, t.links[i].scope)
  {
    var s, name := t.links[i].scope, NameOf(t.links[i]);
    assert See(t, r, s) == Ok(scopes[s]);
    WinnerIsLast(t, r, i);
    var base := Vis(Own(t, s), map[]);
    if s.PkgModule? {
      LastWins(t, r, LinkedUpTo(t, r, base, PkgScope(s.pkg), |t.links|).value, s, |t.links|, name);
    } else {
      LastWins(t, r, base, s, |t.links|, name);
    }
    assert name in scopes[s].pkgs && scopes[s].pkgs[name] == t.links[i].pkg.value;
  }

  /** And whatever a scope sees has won its name, there or in the package around it. */
  lemma SeenHasWon(t: Tree, r: Settling, scopes: map<Scope, Vis>, s: Scope, name: string) returns (i: nat)
    requires Loaded(t) && r.Keys == t.packages.Keys && SeenBy(t, r, scopes) && s in scopes && name in scopes[s].pkgs
    ensures Wins(t, r, i) && t.links[i].pkg == Some(scopes[s].pkgs[name])
    ensures t.links[i].scope == s || (s.PkgModule? && t.links[i].scope == PkgScope(s.pkg))
  {
    assert See(t, r, s) == Ok(scopes[s]);
    var base := Vis(Own(t, s), map[]);
    var from := if s.PkgModule? then PkgScope(s.pkg) else s;
    LastWins(t, r, base, from, |t.links|, name);
    if s.PkgModule? {
      LastWins(t, r, LinkedUpTo(t, r, base, from, |t.links|).value, s, |t.links|, name);
      if LastShown(t, r, s, |t.links|, name).Some? {
        return LastShown(t, r, s, |t.links|, name).value;
      }
    }
    return LastShown(t, r, from, |t.links|, name).value;
  }

  lemma StackIsSearchClosed(t: Tree, r: Settling, scopes: map<Scope, Vis>, stack: set<Scope>)
    requires Loaded(t) && r.Keys == t.packages.Keys && SeenBy(t, r, scopes) && StackClosed(scopes, stack)
    ensures SearchClosed(t, r, stack)
  {
    ModulesSeen(t, r, scopes, Top);
    forall c | c in t.components
      ensures Component(c) in stack
    {
      assert Component(c) in Next(scopes, Top);
    }
    forall p, m | p in t.packages && PkgScope(p) in stack && m in t.packages[p].modules
      ensures PkgModule(p, m) in stack
    {
      ModulesSeen(t, r, scopes, PkgScope(p));
      assert PkgModule(p, m) in Next(scopes, PkgScope(p));
    }
    forall i: nat | Wins(t, r, i) && t.links[i].scope in stack && t.links[i].scope in AllScopes(t)
      ensures PkgScope(t.links[i].pkg.value) in stack
    {
      WinnerIsSeen(t, r, scopes, i);
    }
  }

  /** Without modules whose package is missing. */
  ghost function Rid(s: set<Scope>): set<Scope> {
    set x | x in s && (x.PkgModule? ==> PkgScope(x.pkg) in s)
  }

  lemma RidStep(t: Tree, r: Settling, scopes: map<Scope, Vis>, other: set<Scope>, s: Scope, x: Scope)
    requires Loaded(t) && r.Keys == t.packages.Keys && SeenBy(t, r, scopes) && SearchClosed(t, r, other)
    requires s in Rid(other) && s in scopes && x in Next(scopes, s)
    ensures x in Rid(other)
  {
    ModulesSeen(t, r, scopes, s);
    if x !in scopes[s].mods {
      var n :| n in scopes[s].pkgs && x == PkgScope(scopes[s].pkgs[n]);
      var i := SeenHasWon(t, r, scopes, s, n);
      assert t.links[i] in t.links;
      assert t.links[i].scope in other && t.links[i].scope in AllScopes(t);
    }
  }

  /** What the search finds, in terms of the imports. */
  lemma StackIsSearched(t: Tree, r: Settling, scopes: map<Scope, Vis>, stack: set<Scope>)
    requires Loaded(t) && r.Keys == t.packages.Keys && SeenBy(t, r, scopes) && IsStack(scopes, stack)
    ensures Searched(t, r, stack)
  {
    StackIsSearchClosed(t, r, scopes, stack);
    forall other | SearchClosed(t, r, other)
      ensures stack <= other
    {
      forall s, x | s in Rid(other) && x in Next(scopes, s)
        ensures x in Rid(other)
      {
        RidStep(t, r, scopes, other, s, x);
      }
      assert StackClosed(scopes, Rid(other));
    }
  }

  /** The modules a scope may name: the entrypoint's components outside packages, the package's own inside. */
  lemma ModulesInSight(t: Tree, r: Settling, scopes: map<Scope, Vis>, s: Scope, x: Scope)
    requires Loaded(t) && SeenBy(t, r, scopes) && s in scopes
    ensures x in scopes[s].mods <==>
            if s.Top? || s.Component? then x.Component? && x.c in t.components
            else x.PkgModule? && x.pkg == s.pkg && x.m in t.packages[s.pkg].modules
  {
    ModulesSeen(t, r, scopes, s);
  }

  lemma {:induction false} LinkedOk(t: Tree, r: Settling, vis: Vis, scope: Scope, k: nat)
    requires k <= |t.links| && forall l :: l in t.links && l.scope == scope ==> LinkEnabled(t, r, l).Ok?
    ensures LinkedUpTo(t, r, vis, scope, k).Ok?
  {
    if k > 0 {
      LinkedOk(t, r, vis, scope, k - 1);
      assert t.links[k - 1] in t.links;
    }
  }

  lemma SwitchOk(t: Tree, r: Settling, l: Link)
    requires r.Keys == t.packages.Keys
    ensures LinkEnabled(t, r, l).Ok? <==>
            (l.block.Some? && l.block.value.enabled.Some? ==>
              exists q :: Inside(l.scope, q) && q in t.packages && t.packages[q].declared != {}
                          && forall f :: f in Vars(l.block.value.enabled.value) ==> f in t.packages[q].declared)
  {
    if Owner(l.scope).Some? {
      assert Inside(l.scope, Owner(l.scope).value);
    }
  }

  /** The search goes wrong only over a switch. */
  lemma AllSeenIff(t: Tree, r: Settling)
    requires Loaded(t) && r.Keys == t.packages.Keys
    ensures (forall s :: s in AllScopes(t) ==> See(t, r, s).Ok?) <==> SwitchesSensible(t)
  {
    if SwitchesSensible(t) {
      forall s | s in AllScopes(t)
        ensures See(t, r, s).Ok?
      {
        SeesAll(t, r, s);
      }
    }
    if forall s :: s in AllScopes(t) ==> See(t, r, s).Ok? {
      var scopes := map s | s in AllScopes(t) :: See(t, r, s).value;
      assert SeenBy(t, r, scopes);
      forall l | l in t.links && l.block.Some? && l.block.value.enabled.Some? && l.scope in AllScopes(t)
        ensures exists q :: Inside(l.scope, q) && q in t.packages && t.packages[q].declared != {}
                            && forall f :: f in Vars(l.block.value.enabled.value) ==> f in t.packages[q].declared
      {
        SeenIsSound(t, r, scopes, l);
        SwitchOk(t, r, l);
      }
    }
  }

  lemma SeesAll(t: Tree, r: Settling, s: Scope)
    requires Loaded(t) && r.Keys == t.packages.Keys && SwitchesSensible(t) && s in AllScopes(t)
    ensures See(t, r, s).Ok?
  {
    var from := if s.PkgModule? then PkgScope(s.pkg) else s;
    forall l | l in t.links && (l.scope == from || l.scope == s)
      ensures LinkEnabled(t, r, l).Ok?
    {
      assert l.scope in AllScopes(t);
      SwitchOk(t, r, l);
    }
    var base := Vis(Own(t, s), map[]);
    LinkedOk(t, r, base, from, |t.links|);
    if s.PkgModule? {
      LinkedOk(t, r, LinkedUpTo(t, r, base, from, |t.links|).value, s, |t.links|);
    }
  }

  // ---- what is wrong ----

  /** An error says what is wrong with the import: a switch where no features are declared, a switch over a
      feature its package does not declare, a feature passed twice, or one the imported package does not
      declare. */
  lemma ErrorsTell(t: Tree, plain: set<Scope>, sure: set<string>, r: Settling, p: string, l: Link)
    requires WellFormed(t) && l in t.links && p in t.packages && Judge(t, plain, sure, r, p, l).Bad?
    ensures var b := l.block.value;
            && l.pkg == Some(p) && l.block.Some?
            && match Judge(t, plain, sure, r, p, l).error
               case NeedsFeature =>
                 b.enabled.Some? && exists q :: Inside(l.scope, q) && (q !in r || t.packages[q].declared == {})
               case UnknownFeature =>
                 b.enabled.Some? && exists q, f :: Inside(l.scope, q) && f in Vars(b.enabled.value) && f !in t.packages[q].declared
               case DuplicateFeature => exists i, j :: 0 <= i < j < |b.features| && b.features[i] == b.features[j]
               case Undeclared => exists f :: f in b.features && f !in t.packages[p].declared
  {
    if Owner(l.scope).Some? {
      var q := Owner(l.scope).value;
      assert Inside(l.scope, q);
      if Judge(t, plain, sure, r, p, l).error.UnknownFeature? {
        var f :| f in Vars(l.block.value.enabled.value) && f !in t.packages[q].declared;
      }
    }
  }

  // ---- finishing ----

  /** What the loader can finish with: a right settling, sensible switches, and at most one toolchain
      handed on to each package. */
  ghost predicate Finishes(t: Tree, r: Settling) {
    && Right(t, Entry(t), r) && SwitchesSensible(t)
    && forall p, k, l :: RunsWith(t, Entry(t), r, p, k) && RunsWith(t, Entry(t), r, p, l) ==> k == l
  }

  lemma OnlyOneCanFinish(t: Tree, sure: set<string>, r: Settling)
    requires WellFormed(t) && IsSure(t, Entry(t), sure) && TopImportsEntries(t) && Acyclic(Blocking(t, sure))
    requires Consistent(t, Entry(t), sure, r) && !Finishes(t, r)
    ensures !exists other :: Finishes(t, other)
  {
    if other :| Finishes(t, other) {
      ConsistentIffRight(t, Entry(t), sure, other);
      ConsistentIsUnique(t, Entry(t), sure, r, other);
    }
  }

  /** Resolves the packages, searches for the stack, and gives out the toolchains: exactly if there is
      something to finish with. The stack is what the search finds, which is what the settling says
      unless an injected package is out of reach, and the toolchains follow the imports that count. */
  method Finish(t: Tree)
    returns (failed: Option<Failure>, settled: Settling, stack: set<Scope>, pins: map<string, PackageToolchains.Pin>, ghost sure: set<string>)
    requires Loaded(t)
    ensures IsSure(t, Entry(t), sure)
    ensures failed.None? <==> Acyclic(Blocking(t, sure)) && exists r :: Finishes(t, r)
    ensures failed.None? ==> Finishes(t, settled)
    ensures failed.None? ==> exists scopes :: SeenBy(t, settled, scopes) && IsStack(scopes, stack)
    ensures failed.None? ==> Searched(t, settled, stack)
    ensures failed.None? && UniqueLocals(t) ==> (stack == ActiveScopes(t, settled) <==> InjectedReached(t, stack))
    ensures failed.None? ==> forall p, key :: p in pins && pins[p].key == key <==> RunsWith(t, Entry(t), settled, p, key)
    ensures failed.None? ==> forall p :: p in pins ==> HandsDown(t, Entry(t), settled, pins[p].from, p, pins[p].key)
    ensures failed.Some? && failed.value.ImportEachOther? ==>
              && Ascending(failed.value.pkgs)
              && forall p :: p in failed.value.pkgs <==> LeadsToCycle(Blocking(t, sure), p)
    ensures failed.Some? && failed.value.ToolchainsDiffer? ==>
              Differ(t, Entry(t), settled, failed.value.pkg, failed.value.importer, failed.value.other)
  {
    settled, stack, pins := map[], {}, map[];
    var resolver := new Resolver(t);
    var plain, found;
    failed, plain, found := resolver.ResolvePackages();
    sure := found;
    PlainIsEntry(t, plain);
    forall r
      ensures Consistent(t, plain, sure, r) <==> Right(t, plain, r)
    {
      ConsistentIffRight(t, plain, sure, r);
    }
    if failed.Some? {
      return;
    }
    settled := resolver.settled;
    AllSeenIff(t, settled);
    var scopes := Scopes(t, settled);
    if scopes.Err? {
      failed := Some(Misconfigured(scopes.error));
      OnlyOneCanFinish(t, sure, settled);
      return;
    }
    stack := Search(scopes.value);
    if UniqueLocals(t) {
      StacksAgree(t, plain, sure, settled, scopes.value, stack);
    }
    StackIsSearched(t, settled, scopes.value, stack);
    failed, pins := Toolchains(t, plain, sure, settled, resolver.needs);
    if failed.Some? {
      var p := failed.value.pkg;
      ghost var k, l :| k != l && RunsWith(t, Entry(t), settled, p, k) && RunsWith(t, Entry(t), settled, p, l);
      assert !Finishes(t, settled);
      OnlyOneCanFinish(t, sure, settled);
    } else {
      assert Finishes(t, settled);
    }
  }
}
