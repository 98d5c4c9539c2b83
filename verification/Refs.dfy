/** Ids of services, provisions and toolchains: written by zordon, decoded by alpha
    (internal/alphasfile/identity.go, cmd/alpha/main.go). */
module Refs {
  import opened Wrappers
  import opened Strings

  // ---- writing ----

  /** strings.ReplaceAll(p, "/", ".package."). */
  function Nest(p: string): string {
    if p == "" then "" else (if p[0] == '/' then ".package." else [p[0]]) + Nest(p[1..])
  }

  function SplitPackageModule(modId: string): Option<(string, string)> {
    match FindLast(modId, '/')
    case None => None
    case Some(i) => if i == 0 || i == |modId| - 1 then None else Some((modId[..i], modId[i + 1..]))
  }

  function ModulePath(modId: string): string {
    match SplitPackageModule(modId)
    case Some(pm) => "package." + Nest(pm.0) + ".component." + pm.1
    case None => "component." + modId
  }

  function ServiceRef(modId: string, toolchain: string, name: string): string {
    if modId == "" then "service." + toolchain + "." + name
    else ModulePath(modId) + ".service." + toolchain + "." + name
  }

  function ProvisionRef(modId: string, toolchain: string, name: string, step: string): string {
    ServiceRef(modId, toolchain, name) + ".runtime.provision." + step
  }

  function ToolchainKey(modId: string, lang: string): string {
    if modId == "" then lang else modId + "/" + lang
  }

  function ToolchainRef(modId: string, lang: string): string {
    if modId == "" then "toolchain." + lang else ModulePath(modId) + ".toolchain." + lang
  }

  function DisplayName(modId: string, name: string): string {
    if modId == "" then name else modId + "/" + name
  }

  /** One barrier ref of buildBarrierAttrs. */
  function BarrierRef(entity: string, state: string): string {
    entity + "@" + state
  }

  // ---- reading ----

  predicate BadSegment(s: string) {
    s == "" || '.' in s
  }

  predicate SomeBad(pieces: seq<string>) {
    exists i :: 0 <= i < |pieces| && BadSegment(pieces[i])
  }

  /** The module id at the front of an id, and what follows it. */
  function ParseModulePath(id: string): Option<(string, string)> {
    match CutPrefix(id, "package.")
    case Some(after) =>
      (match Cut(after, ".component.")
       case None => None
       case Some(cut) =>
         if cut.0 == "" then None
         else
           var pkgs := Split(cut.0, ".package.");
           if SomeBad(pkgs) then None
           else
             match Cut(cut.1, ".")
             case None => None
             case Some(m) => if m.0 == "" then None else Some((Join(pkgs, "/") + "/" + m.0, m.1)))
    case None =>
      match CutPrefix(id, "component.")
      case None => None
      case Some(after) =>
        match Cut(after, ".")
        case None => None
        case Some(m) => if m.0 == "" then None else Some((m.0, m.1))
  }

  /** `rest` is what follows the service name. */
  datatype Service = Service(modId: string, toolchain: string, name: string, rest: string)

  function ParseCoordinates(modId: string, id: string): Option<Service> {
    match Cut(id, ".")
    case None => None
    case Some(tc) =>
      var name, rest := match Cut(tc.1, ".") case None => tc.1 case Some(n) => n.0, match Cut(tc.1, ".") case None => "" case Some(n) => n.1;
      if tc.0 == "" || name == "" then None else Some(Service(modId, tc.0, name, rest))
  }

  function BeforeAt(id: string): string {
    match FindLast(id, '@')
    case None => id
    case Some(i) => id[..i]
  }

  function ParseServiceRef(ref: string): Option<Service> {
    ParseServiceId(BeforeAt(ref))
  }

  function ParseServiceId(id: string): Option<Service> {
    match ParseModulePath(id)
    case Some(m) =>
      (match CutPrefix(m.1, "service.")
       case None => None
       case Some(after) => ParseCoordinates(m.0, after))
    case None =>
      match CutPrefix(id, "service.")
      case None => None
      case Some(after) => ParseCoordinates("", after)
  }

  function ParseToolchainRef(entity: string): Option<string> {
    match ParseModulePath(entity)
    case Some(m) =>
      (match CutPrefix(m.1, "toolchain.")
       case None => None
       case Some(lang) => if lang == "" then None else Some(ToolchainKey(m.0, lang)))
    case None =>
      match CutPrefix(entity, "toolchain.")
      case None => None
      case Some(key) => if key == "" then None else Some(key)
  }

  /** What alpha looks a ref up as: the toolchain with this key, the provision with this id, or the
      build or runtime of the service with this display name. */
  datatype Target = ToolchainAt(key: string) | ProvisionAt(id: string) | BuildOf(display: string) | RuntimeOf(display: string)

  datatype Decoded = Decoded(target: Target, state: string)

  function ServiceNameOf(id: string): Option<string> {
    match ParseServiceRef(id)
    case None => None
    case Some(s) => Some(DisplayName(s.modId, s.name))
  }

  function Dispatch(entity: string): Option<Target> {
    if ParseToolchainRef(entity).Some? then Some(ToolchainAt(ParseToolchainRef(entity).value))
    else if Find(entity, ".runtime.provision.").Some? then Some(ProvisionAt(entity))
    else match CutSuffix(entity, ".build")
      case Some(before) =>
        (match ServiceNameOf(before)
         case None => None
         case Some(display) => Some(BuildOf(display)))
      case None =>
        match CutSuffix(entity, ".runtime")
        case None => None
        case Some(before) =>
          match ServiceNameOf(before)
          case None => None
          case Some(display) => Some(RuntimeOf(display))
  }

  function Resolve(ref: string): Option<Decoded> {
    match FindLast(ref, '@')
    case None => None
    case Some(at) =>
      match Dispatch(ref[..at])
      case None => None
      case Some(target) => Some(Decoded(target, ref[at + 1..]))
  }

  // ---- modules, structured ----

  /** The entrypoint's own level, one of its components, or a component of a (nested) package. */
  datatype Module = Default | Plain(c: string) | InPackage(pkgs: seq<string>, m: string)

  predicate Name(s: string) {
    s != "" && '.' !in s && '/' !in s && '@' !in s
  }

  /** What the program demands of a service's name. */
  predicate ServiceName(s: string) {
    s != "" && '/' !in s
  }

  predicate Proper(mod: Module) {
    match mod
    case Default => true
    case Plain(c) => Name(c)
    case InPackage(pkgs, m) => pkgs != [] && Name(m) && forall i :: 0 <= i < |pkgs| ==> Name(pkgs[i])
  }

  /** Nothing but dots and empty words is excluded here. */
  predicate Worded(mod: Module) {
    match mod
    case Default => true
    case Plain(c) => !BadSegment(c)
    case InPackage(pkgs, m) => pkgs != [] && !BadSegment(m) && forall i :: 0 <= i < |pkgs| ==> !BadSegment(pkgs[i])
  }

  function Id(mod: Module): string {
    match mod
    case Default => ""
    case Plain(c) => c
    case InPackage(pkgs, m) => Join(pkgs, "/") + "/" + m
  }

  /** No package but the first of a nesting is called `component`. */
  predicate Readable(mod: Module) {
    mod.InPackage? ==> forall i :: 1 <= i < |mod.pkgs| ==> mod.pkgs[i] != "component"
  }

  lemma {:induction false} NestJoins(a: string, b: string)
    ensures Nest(a + b) == Nest(a) + Nest(b)
  {
    if a == "" {
      assert a + b == b;
    } else {
      assert (a + b)[1..] == a[1..] + b;
      NestJoins(a[1..], b);
    }
  }

  lemma {:induction false} NestName(s: string)
    requires '/' !in s
    ensures Nest(s) == s
  {
    if s != "" {
      NestName(s[1..]);
      assert s == [s[0]] + s[1..];
    }
  }

  lemma {:induction false} NestPath(pkgs: seq<string>)
    requires forall i :: 0 <= i < |pkgs| ==> Name(pkgs[i])
    ensures Nest(Join(pkgs, "/")) == Join(pkgs, ".package.")
  {
    if |pkgs| == 1 {
      NestName(pkgs[0]);
    } else if |pkgs| > 1 {
      NestPath(pkgs[1..]);
      NestName(pkgs[0]);
      NestJoins(pkgs[0], "/" + Join(pkgs[1..], "/"));
      NestJoins("/", Join(pkgs[1..], "/"));
      assert Nest("/") == ".package." + Nest("");
    }
  }

  lemma JoinNonempty(pkgs: seq<string>, sep: string)
    requires pkgs != [] && pkgs[0] != ""
    ensures Join(pkgs, sep) != ""
  {
  }

  lemma ModulePathOf(mod: Module)
    requires Proper(mod) && !mod.Default?
    ensures ModulePath(Id(mod)) == match mod
                                   case Plain(c) => "component." + c
                                   case InPackage(pkgs, m) => "package." + Join(pkgs, ".package.") + ".component." + m
                                   case _ => ""
  {
    var id := Id(mod);
    match mod
    case Plain(c) => FindLastNone(c, '/');
    case InPackage(pkgs, m) =>
      var p := Join(pkgs, "/");
      JoinNonempty(pkgs, "/");
      assert id == p + ['/'] + m;
      FindLastHere(p, '/', m);
      assert id[..|p|] == p && id[|p| + 1..] == m;
      NestPath(pkgs);
    case Default =>
  }

  // ---- finding the end of a package path ----

  const PACKAGE := ".package."
  const COMPONENT := ".component."

  /** Nothing begins here: look one character on. */
  lemma CutPast(c: char, t: string, sep: string)
    requires !(sep <= [c] + t)
    ensures Cut([c] + t, sep) == match Cut(t, sep) case None => None case Some(p) => Some(([c] + p.0, p.1))
  {
    assert ([c] + t)[1..] == t;
    if Find(t, sep).Some? {
      var i := Find(t, sep).value;
      assert ([c] + t)[..1 + i] == [c] + t[..i] && ([c] + t)[1 + i + |sep|..] == t[i + |sep|..];
    }
  }

  /** `.component.` stands here only if the next segment is `component`. */
  lemma NextSegment(word: string, t: string)
    requires '.' !in word && t != "" && t[0] == '.'
    ensures COMPONENT <= ['.'] + (word + t) <==> word == "component"
  {
    var s := ['.'] + (word + t);
    assert forall i :: 0 <= i < |word| ==> s[1 + i] == word[i];
    assert s[1 + |word|] == '.';
    if COMPONENT <= s {
      assert forall i :: 0 <= i < 11 ==> s[i] == COMPONENT[i];
      assert s[10] == '.' && forall i :: 1 <= i < 10 ==> s[i] != '.';
      assert forall i :: 1 <= i < 1 + |word| ==> s[i] == word[i - 1];
      assert |word| == 9;
    }
  }

  /** Past a segment that is not `component`. */
  lemma CutPastWord(word: string, t: string)
    requires '.' !in word && word != "component" && t != "" && t[0] == '.'
    ensures Cut(['.'] + (word + t), COMPONENT) ==
            match Cut(t, COMPONENT) case None => None case Some(p) => Some((['.'] + (word + p.0), p.1))
  {
    NextSegment(word, t);
    CutPast('.', word + t, COMPONENT);
    CutLater(word, t, COMPONENT);
  }

  lemma PackageSplits(t: string)
    ensures PACKAGE + t == ['.'] + ("package" + (['.'] + t))
  {
    assert PACKAGE == ['.'] + "package" + ['.'];
  }

  /** Past `.package.`, when the package name that follows is not `component`. */
  lemma PastPackage(word: string, t: string)
    requires '.' !in word && word != "component" && t != "" && t[0] == '.'
    ensures Cut(PACKAGE + (word + t), COMPONENT) ==
            match Cut(word + t, COMPONENT) case None => None case Some(p) => Some((PACKAGE + p.0, p.1))
  {
    var next := word + t;
    PackageSplits(next);
    CutPastWord("package", ['.'] + next);
    NextSegment(word, t);
    CutPast('.', next, COMPONENT);
    if Cut(next, COMPONENT).Some? {
      PackageSplits(Cut(next, COMPONENT).value.0);
    }
  }

  /** What follows the first package of a path. */
  function Onward(pkgs: seq<string>, tail: string): string
    requires pkgs != []
  {
    if |pkgs| == 1 then tail else PACKAGE + (Join(pkgs[1..], PACKAGE) + tail)
  }

  lemma Begins(pkgs: seq<string>, tail: string)
    requires pkgs != []
    ensures Join(pkgs, PACKAGE) + tail == pkgs[0] + Onward(pkgs, tail)
  {
  }

  lemma {:induction false} PathCut(pkgs: seq<string>, after: string)
    requires pkgs != [] && forall i :: 0 <= i < |pkgs| ==> !BadSegment(pkgs[i])
    requires forall i :: 1 <= i < |pkgs| ==> pkgs[i] != "component"
    ensures Cut(Join(pkgs, PACKAGE) + (COMPONENT + after), COMPONENT) == Some((Join(pkgs, PACKAGE), after))
  {
    var tail := COMPONENT + after;
    assert tail[|COMPONENT|..] == after;
    if |pkgs| == 1 {
      CutHere(pkgs[0], tail, COMPONENT);
    } else {
      var rest := pkgs[1..];
      PathCut(rest, after);
      Begins(rest, tail);
      PastPackage(rest[0], Onward(rest, tail));
      Begins(pkgs, tail);
      CutLater(pkgs[0], Onward(pkgs, tail), COMPONENT);
    }
  }

  /** With a later package called `component` the path is cut there, just after `.package`. */
  lemma {:induction false} PathCutEarly(pkgs: seq<string>, n: nat, after: string)
    requires 1 <= n < |pkgs| && pkgs[n] == "component" && forall i :: 0 <= i < |pkgs| ==> !BadSegment(pkgs[i])
    requires forall i :: 1 <= i < n ==> pkgs[i] != "component"
    ensures var cut := Cut(Join(pkgs, PACKAGE) + (COMPONENT + after), COMPONENT);
            cut.Some? && cut.value.0 == Join(pkgs[..n], PACKAGE) + ".package"
  {
    var tail := COMPONENT + after;
    var rest := pkgs[1..];
    Begins(pkgs, tail);
    Begins(rest, tail);
    CutLater(pkgs[0], Onward(pkgs, tail), COMPONENT);
    if n == 1 {
      CutAtOnce(Onward(rest, tail));
      assert pkgs[..1] == [pkgs[0]];
    } else {
      PathCutEarly(rest, n - 1, after);
      PastPackage(rest[0], Onward(rest, tail));
      assert pkgs[..n][1..] == rest[..n - 1];
      Begins(pkgs[..n], ".package");
    }
  }

  lemma CutAtOnce(t: string)
    requires t != "" && t[0] == '.'
    ensures var cut := Cut(PACKAGE + ("component" + t), COMPONENT);
            cut.Some? && cut.value.0 == ".package"
  {
    var here := ['.'] + ("component" + t);
    PackageSplits("component" + t);
    NextSegment("component", t);
    CutPastWord("package", here);
    assert Cut(here, COMPONENT).value.0 == "";
    assert ['.'] + ("package" + "") == ".package";
  }

  lemma StillBad(p: string, pieces: seq<string>)
    requires SomeBad(pieces)
    ensures SomeBad([p] + pieces)
  {
    var i :| 0 <= i < |pieces| && BadSegment(pieces[i]);
    assert ([p] + pieces)[i + 1] == pieces[i];
  }

  lemma LastTrailing(p: string)
    requires '.' !in p
    ensures SomeBad(Split(p + ".package", PACKAGE))
  {
    FindTooLong(".package", PACKAGE);
    FindSkips(p, ".package", PACKAGE);
    assert (p + ".package")[|p|] == '.';
    assert BadSegment(Split(p + ".package", PACKAGE)[0]);
  }

  /** The last piece keeps the `.package` that no name follows, so it is no name. */
  lemma {:induction false} SplitTrailing(pkgs: seq<string>)
    requires pkgs != [] && forall i :: 0 <= i < |pkgs| ==> '.' !in pkgs[i]
    ensures SomeBad(Split(Join(pkgs, PACKAGE) + ".package", PACKAGE))
  {
    if |pkgs| == 1 {
      LastTrailing(pkgs[0]);
    } else {
      var rest := Join(pkgs[1..], PACKAGE) + ".package";
      Begins(pkgs, ".package");
      SplitLater(pkgs[0], rest, PACKAGE);
      SplitTrailing(pkgs[1..]);
      StillBad(pkgs[0], Split(rest, PACKAGE));
    }
  }

  /** A module path reads back, at any nesting depth, unless a later package is called `component`. */
  lemma ModulePathBack(mod: Module, rest: string)
    requires Proper(mod) && !mod.Default?
    ensures ParseModulePath(ModulePath(Id(mod)) + ("." + rest)) ==
            if Readable(mod) then Some((Id(mod), rest)) else None
  {
    ModulePathOf(mod);
    if mod.Plain? {
      PlainBack(mod.c, rest);
    } else {
      InPackageBack(mod, rest);
    }
  }

  lemma PlainBack(c: string, rest: string)
    requires !BadSegment(c)
    ensures ParseModulePath("component." + c + ("." + rest)) == Some((c, rest))
  {
    var dotted := "." + rest;
    var whole := "component." + c + dotted;
    assert dotted[1..] == rest;
    assert whole == "component." + (c + dotted);
    assert whole[0] == 'c' && whole[|"component."|..] == c + dotted;
    CutHere(c, dotted, ".");
  }

  lemma InPackageBack(mod: Module, rest: string)
    requires mod.InPackage? && Worded(mod)
    ensures ParseModulePath("package." + Join(mod.pkgs, PACKAGE) + COMPONENT + mod.m + ("." + rest)) ==
            if Readable(mod) then Some((Id(mod), rest)) else None
  {
    var dotted := "." + rest;
    var after := mod.m + dotted;
    var path := Join(mod.pkgs, PACKAGE) + (COMPONENT + after);
    var whole := "package." + Join(mod.pkgs, PACKAGE) + COMPONENT + mod.m + dotted;
    assert dotted[1..] == rest;
    assert whole == "package." + path;
    assert CutPrefix(whole, "package.") == Some(path);
    PackagePathBack(mod, after);
    CutHere(mod.m, dotted, ".");
  }

  lemma PackagePathBack(mod: Module, after: string)
    requires mod.InPackage? && Worded(mod)
    ensures var cut := Cut(Join(mod.pkgs, PACKAGE) + (COMPONENT + after), COMPONENT);
            && cut.Some? && cut.value.0 != ""
            && if Readable(mod) then cut.value.1 == after && Split(cut.value.0, PACKAGE) == mod.pkgs
               else SomeBad(Split(cut.value.0, PACKAGE))
  {
    if Readable(mod) {
      PathCut(mod.pkgs, after);
      SplitJoined(mod.pkgs, PACKAGE);
      JoinNonempty(mod.pkgs, PACKAGE);
    } else {
      var n := FirstComponent(mod.pkgs, 1);
      PathCutEarly(mod.pkgs, n, after);
      SplitTrailing(mod.pkgs[..n]);
    }
  }

  lemma {:induction false} FirstComponent(pkgs: seq<string>, from: nat) returns (n: nat)
    requires exists i :: from <= i < |pkgs| && pkgs[i] == "component"
    ensures from <= n < |pkgs| && pkgs[n] == "component" && forall i :: from <= i < n ==> pkgs[i] != "component"
    decreases |pkgs| - from
  {
    if pkgs[from] == "component" {
      n := from;
    } else {
      n := FirstComponent(pkgs, from + 1);
    }
  }

  // ---- service refs read back ----

  lemma {:induction false} PathLacksAt(pkgs: seq<string>, sep: string)
    requires '@' !in sep && forall i :: 0 <= i < |pkgs| ==> Name(pkgs[i])
    ensures '@' !in Join(pkgs, sep)
  {
    JoinLacks(pkgs, sep, '@');
  }

  lemma Lacks(a: string, b: string, c: char)
    requires c !in a && c !in b
    ensures c !in a + b
  {
  }

  lemma ModulePathLacksAt(mod: Module)
    requires Proper(mod) && !mod.Default?
    ensures '@' !in ModulePath(Id(mod))
  {
    ModulePathOf(mod);
    if mod.InPackage? {
      var path := Join(mod.pkgs, PACKAGE);
      PathLacksAt(mod.pkgs, PACKAGE);
      Lacks("package.", path, '@');
      Lacks("package." + path, COMPONENT, '@');
      Lacks("package." + path + COMPONENT, mod.m, '@');
    } else {
      Lacks("component.", mod.c, '@');
    }
  }

  lemma RefLacksAt(mod: Module, toolchain: string)
    requires Proper(mod) && Name(toolchain)
    ensures '@' !in ServiceRef(Id(mod), toolchain, "")
  {
    if !mod.Default? {
      ModulePathLacksAt(mod);
    }
  }

  lemma IdIsDefault(mod: Module)
    requires Proper(mod)
    ensures Id(mod) == "" <==> mod.Default?
  {
  }

  /** What may follow a service name in an id. */
  predicate Follow(more: string) {
    '@' !in more && (more != "" ==> more[0] == '.')
  }

  function Undot(more: string): string {
    if more == "" then "" else more[1..]
  }

  lemma CoordinatesRead(modId: string, toolchain: string, u: string)
    requires Name(toolchain)
    ensures ParseCoordinates(modId, toolchain + ("." + u)) ==
            match Cut(u, ".")
            case None => if u == "" then None else Some(Service(modId, toolchain, u, ""))
            case Some(n) => if n.0 == "" then None else Some(Service(modId, toolchain, n.0, n.1))
  {
    CutHere(toolchain, "." + u, ".");
    assert ("." + u)[1..] == u;
  }

  lemma ServiceForm(modId: string, toolchain: string, name: string, more: string)
    ensures var coordinates := toolchain + ("." + (name + more));
            ServiceRef(modId, toolchain, name) + more ==
            if modId == "" then "service." + coordinates else ModulePath(modId) + ("." + ("service." + coordinates))
  {
    var coordinates := toolchain + ("." + (name + more));
    if modId == "" {
      Regroup("", "service.", toolchain, ".", name, more);
    } else {
      Regroup(ModulePath(modId), ".service.", toolchain, ".", name, more);
      assert ".service." + coordinates == "." + ("service." + coordinates);
    }
  }

  lemma BeforeAtPast(a: string, t: string)
    requires '@' !in a
    ensures BeforeAt(a + t) == a + BeforeAt(t)
  {
    FindLastPast(a, t, '@');
    match FindLast(t, '@')
    case None =>
    case Some(i) => assert (a + t)[..|a| + i] == a + t[..i];
  }

  lemma NameAppends(modId: string, toolchain: string, t: string)
    ensures ServiceRef(modId, toolchain, t) == ServiceRef(modId, toolchain, "") + t
  {
  }

  /** A service ref, with anything for a name, is read up to its last `@`. */
  lemma ServiceReads(mod: Module, toolchain: string, t: string)
    requires Proper(mod) && Name(toolchain)
    ensures ParseServiceRef(ServiceRef(Id(mod), toolchain, t)) ==
            if Readable(mod) then ParseCoordinates(Id(mod), toolchain + ("." + BeforeAt(t))) else None
  {
    RefLacksAt(mod, toolchain);
    NameAppends(Id(mod), toolchain, t);
    NameAppends(Id(mod), toolchain, BeforeAt(t));
    BeforeAtPast(ServiceRef(Id(mod), toolchain, ""), t);
    BareReads(mod, toolchain, BeforeAt(t), ServiceRef(Id(mod), toolchain, t));
  }

  lemma BareReads(mod: Module, toolchain: string, u: string, ref: string)
    requires Proper(mod) && BeforeAt(ref) == ServiceRef(Id(mod), toolchain, u)
    ensures ParseServiceRef(ref) == if Readable(mod) then ParseCoordinates(Id(mod), toolchain + ("." + u)) else None
  {
    var coordinates := toolchain + ("." + (u + ""));
    assert u + "" == u;
    ServiceForm(Id(mod), toolchain, u, "");
    assert ServiceRef(Id(mod), toolchain, u) + "" == BeforeAt(ref);
    IdIsDefault(mod);
    StartsLikeService(coordinates);
    if !mod.Default? {
      ModulePathBack(mod, "service." + coordinates);
      PathIsNoService(mod, "." + ("service." + coordinates));
    }
  }

  /** What is read for the name: up to the last `@` there is, then up to the first dot. */
  function NameRead(t: string): string {
    match Cut(BeforeAt(t), ".")
    case None => BeforeAt(t)
    case Some(n) => n.0
  }

  lemma {:induction false} AtFound(s: string, i: nat)
    requires i < |s| && s[i] == '@'
    ensures FindLast(s, '@').Some? && FindLast(s, '@').value >= i
  {
    if s[|s| - 1] != '@' {
      AtFound(s[..|s| - 1], i);
    }
  }

  /** A name is read whole exactly if it has neither a dot nor an `@`. */
  lemma NameReadWhole(name: string, more: string)
    requires name != "" && Follow(more)
    ensures NameRead(name + more) == name <==> '.' !in name && '@' !in name
    ensures '.' !in name && '@' !in name ==> BeforeAt(name + more) == name + more
  {
    var u := BeforeAt(name + more);
    CutLacks(u, '.');
    if '@' in name {
      ReadIsShorter(name, more);
    } else {
      FindLastNone(name + more, '@');
      if '.' !in name {
        NameThenDot(name, more);
      }
    }
  }

  lemma ReadIsShorter(name: string, more: string)
    requires '@' in name && '@' !in more
    ensures |BeforeAt(name + more)| < |name| && |NameRead(name + more)| < |name|
  {
    var i :| 0 <= i < |name| && name[i] == '@';
    AtFound(name + more, i);
    CutLacks(BeforeAt(name + more), '.');
  }

  lemma NameThenDot(name: string, more: string)
    requires '.' !in name && Follow(more)
    ensures Cut(name + more, ".") == if more == "" then None else Some((name, Undot(more)))
  {
    if more == "" {
      FindSkips(name, "", ".");
    } else {
      CutHere(name, more, ".");
    }
  }

  lemma MoreAppends(modId: string, toolchain: string, name: string, more: string)
    ensures ServiceRef(modId, toolchain, name) + more == ServiceRef(modId, toolchain, name + more)
  {
    NameAppends(modId, toolchain, name);
    NameAppends(modId, toolchain, name + more);
  }

  lemma PlainNameBack(mod: Module, toolchain: string, name: string, more: string)
    requires Proper(mod) && Name(toolchain) && name != "" && '.' !in name && '@' !in name && Follow(more)
    ensures ParseServiceRef(ServiceRef(Id(mod), toolchain, name + more)) ==
            if Readable(mod) then Some(Service(Id(mod), toolchain, name, Undot(more))) else None
  {
    ServiceReads(mod, toolchain, name + more);
    CoordinatesRead(Id(mod), toolchain, name + more);
    NameReadWhole(name, more);
    NameThenDot(name, more);
    assert more == "" ==> name + more == name;
  }

  lemma OddNameLost(mod: Module, toolchain: string, name: string, more: string)
    requires Proper(mod) && Name(toolchain) && name != "" && ('.' in name || '@' in name) && Follow(more)
    ensures var read := ParseServiceRef(ServiceRef(Id(mod), toolchain, name + more));
            read.Some? ==> Readable(mod) && read.value.name != name
  {
    ServiceReads(mod, toolchain, name + more);
    CoordinatesRead(Id(mod), toolchain, BeforeAt(name + more));
    NameReadWhole(name, more);
  }

  /** A service ref, followed by more segments or not, reads back to its own module, toolchain and name,
      exactly unless a later package of its nesting is called `component` or the name has a dot or an `@`. */
  lemma ServiceBack(mod: Module, toolchain: string, name: string, more: string)
    requires Proper(mod) && Name(toolchain) && ServiceName(name) && Follow(more)
    ensures ParseServiceRef(ServiceRef(Id(mod), toolchain, name) + more) == Some(Service(Id(mod), toolchain, name, Undot(more)))
            <==> Readable(mod) && '.' !in name && '@' !in name
    ensures !Readable(mod) ==> ParseServiceRef(ServiceRef(Id(mod), toolchain, name) + more) == None
  {
    MoreAppends(Id(mod), toolchain, name, more);
    if '.' in name || '@' in name {
      OddNameLost(mod, toolchain, name, more);
    } else {
      PlainNameBack(mod, toolchain, name, more);
    }
  }

  lemma StartsLikeService(t: string)
    ensures ParseModulePath("service." + t) == None && CutPrefix("service." + t, "service.") == Some(t)
    ensures CutPrefix("service." + t, "toolchain.") == None
  {
    assert ("service." + t)[0] == 's';
  }

  lemma PathIsNoService(mod: Module, t: string)
    requires Proper(mod) && !mod.Default?
    ensures CutPrefix(ModulePath(Id(mod)) + t, "service.") == None
    ensures CutPrefix(ModulePath(Id(mod)) + t, "toolchain.") == None
  {
    ModulePathOf(mod);
    assert (ModulePath(Id(mod)) + t)[0] in "pc";
  }

  /** A toolchain ref reads back to its own key, under the same condition. */
  lemma ToolchainBack(mod: Module, lang: string)
    requires Proper(mod) && lang != ""
    ensures ParseToolchainRef(ToolchainRef(Id(mod), lang)) ==
            if Readable(mod) then Some(ToolchainKey(Id(mod), lang)) else None
  {
    IdIsDefault(mod);
    if mod.Default? {
      KeyBack(lang);
    } else {
      var rest := "toolchain." + lang;
      assert ToolchainRef(Id(mod), lang) == ModulePath(Id(mod)) + ("." + rest);
      ModulePathBack(mod, rest);
      PathIsNoService(mod, "." + rest);
      assert CutPrefix(rest, "toolchain.") == Some(lang);
    }
  }

  /** The flat form passes any key through, slashes and dots included. */
  lemma KeyBack(key: string)
    requires key != ""
    ensures ParseToolchainRef("toolchain." + key) == Some(key)
  {
    var whole := "toolchain." + key;
    assert whole[0] == 't' && whole[|"toolchain."|..] == key;
  }

  /** The toolchain ref a service waits on: its module's own pin, or the entrypoint's. */
  function ToolchainAfter(modId: string, serviceKey: string, key: string): string {
    if modId != "" && key == serviceKey && modId + "/" <= key then ToolchainRef(modId, key[|modId| + 1..]) else "toolchain." + key
  }

  lemma KeySplits(modId: string, key: string)
    requires modId != "" && modId + "/" <= key && key != modId + "/"
    ensures key[|modId| + 1..] != "" && ToolchainKey(modId, key[|modId| + 1..]) == key
  {
    var prefix := modId + "/";
    assert |prefix| == |modId| + 1 && key == prefix + key[|prefix|..];
  }

  lemma ToolchainAfterBack(mod: Module, serviceKey: string, key: string)
    requires Proper(mod) && Readable(mod) && key != "" && key != Id(mod) + "/"
    ensures ParseToolchainRef(ToolchainAfter(Id(mod), serviceKey, key)) == Some(key)
  {
    IdIsDefault(mod);
    if Id(mod) != "" && key == serviceKey && Id(mod) + "/" <= key {
      KeySplits(Id(mod), key);
      ToolchainBack(mod, key[|Id(mod)| + 1..]);
    } else {
      KeyBack(key);
    }
  }

  // ---- display names ----

  function SplitDisplayName(display: string): (string, string) {
    match FindLast(display, '/')
    case None => ("", display)
    case Some(i) => (display[..i], display[i + 1..])
  }

  /** Service names have no slash, so a display name tells its module and name, and no two services of
      different modules share one. */
  lemma DisplayNameBack(modId: string, name: string)
    requires '/' !in name
    ensures SplitDisplayName(DisplayName(modId, name)) == (modId, name)
  {
    if modId == "" {
      FindLastNone(name, '/');
    } else {
      var display := modId + ['/'] + name;
      FindLastHere(modId, '/', name);
      assert display[..|modId|] == modId && display[|modId| + 1..] == name;
    }
  }

  // ---- which lookup a ref is sent to ----

  const PROVISION := ".runtime.provision."

  ghost predicate Clear(s: string) {
    Find(s, PROVISION).None?
  }

  lemma ClearPast(a: string, t: string)
    requires '.' !in a
    ensures Clear(a + t) <==> Clear(t)
  {
    FindSkips(a, t, PROVISION);
  }

  /** `.runtime.provision.` begins at no word but `runtime`, whatever follows. */
  lemma NextIsRuntime(a: string, t: string)
    requires '.' !in a && t != "" && t[0] == '.'
    ensures PROVISION <= ['.'] + (a + t) ==> a == "runtime"
  {
    var s := ['.'] + (a + t);
    if PROVISION <= s {
      assert forall i :: 0 <= i < 9 ==> s[i] == PROVISION[i];
      assert forall i :: 1 <= i < 1 + |a| ==> s[i] == a[i - 1];
      assert s[1 + |a|] == '.' && s[8] == '.' && forall i :: 1 <= i < 8 ==> s[i] != '.';
      assert |a| == 7 && |PROVISION[1..8]| == 7;
      assert forall i :: 0 <= i < 7 ==> a[i] == PROVISION[1..8][i];
      assert a == PROVISION[1..8] == "runtime";
    }
  }

  /** `.runtime.provision.` stands here only if the next two segments are those. */
  lemma NextTwo(a: string, b: string, t: string)
    requires '.' !in a && '.' !in b && (a != "runtime" || b != "provision") && (t != "" ==> t[0] == '.')
    ensures !(PROVISION <= ['.'] + (a + (['.'] + (b + t))))
  {
    var next := ['.'] + (b + t);
    NextIsRuntime(a, next);
    if PROVISION <= ['.'] + (a + next) {
      SecondWord(a, next);
      NextIsProvision(next, b, t);
    }
  }

  lemma SecondWord(a: string, next: string)
    requires a == "runtime" && PROVISION <= ['.'] + (a + next)
    ensures ".provision." <= next
  {
    var s := ['.'] + (a + next);
    assert s[8..] == next && PROVISION[8..] == ".provision.";
    assert |PROVISION| == 19 && s[..19] == PROVISION;
    assert next[..11] == s[..19][8..];
  }

  lemma NextIsProvision(s: string, b: string, t: string)
    requires s == ['.'] + (b + t) && ".provision." <= s && '.' !in b
    requires t != "" ==> t[0] == '.'
    ensures b == "provision"
  {
    assert forall i :: 0 <= i < 11 ==> s[i] == ".provision."[i];
    assert forall i :: 1 <= i < 1 + |b| ==> s[i] == b[i - 1];
    assert s[10] == '.' && forall i :: 1 <= i < 10 ==> s[i] != '.';
    assert t != "" ==> s[1 + |b|] == '.';
    assert |b| == 9;
    assert |s[1..10]| == |b| && forall i :: 0 <= i < 9 ==> s[1..10][i] == b[i];
    assert s[1..10] == b;
    assert ".provision."[1..10] == "provision";
    assert forall i :: 0 <= i < 9 ==> s[1..10][i] == ".provision."[1..10][i];
    assert b == "provision";
  }

  lemma ClearDot(a: string, b: string, t: string)
    requires '.' !in a && '.' !in b && (a != "runtime" || b != "provision") && (t != "" ==> t[0] == '.')
    ensures Clear(['.'] + (a + (['.'] + (b + t)))) <==> Clear(['.'] + (b + t))
  {
    var rest := a + (['.'] + (b + t));
    NextTwo(a, b, t);
    assert (['.'] + rest)[1..] == rest;
    ClearPast(a, ['.'] + (b + t));
  }

  lemma ClearWord(a: string, t: string)
    requires '.' !in a && a != "runtime" && t != "" && t[0] == '.'
    ensures Clear(['.'] + (a + t)) <==> Clear(t)
  {
    NextIsRuntime(a, t);
    assert (['.'] + (a + t))[1..] == a + t;
    ClearPast(a, t);
  }

  /** No `.runtime.provision.` from here on: `s` begins at a dot. */
  lemma EndClear(b: string, t: string)
    requires '.' !in b && |b| + |t| < 18 && '.' !in t
    ensures Clear(['.'] + (b + t))
  {
    FindTooLong(['.'] + (b + t), PROVISION);
  }

  /** The tail of a service id: `.service.<toolchain>.<name>.<what>`. */
  function Tail(toolchain: string, name: string, what: string): string {
    ['.'] + ("service" + (['.'] + (toolchain + (['.'] + (name + (['.'] + (what + "")))))))
  }

  lemma TailClear(toolchain: string, name: string, what: string)
    requires Name(toolchain) && Name(name) && (what == "build" || what == "runtime")
    requires toolchain != "runtime" || name != "provision"
    ensures Clear(Tail(toolchain, name, what))
  {
    EndClear(what, "");
    ClearDot(name, what, "");
    ClearDot(toolchain, name, ['.'] + (what + ""));
    ClearDot("service", toolchain, ['.'] + (name + (['.'] + (what + ""))));
  }

  lemma {:induction false} PathClear(pkgs: seq<string>, m: string, tail: string)
    requires pkgs != [] && (forall i :: 0 <= i < |pkgs| ==> Name(pkgs[i])) && Name(m)
    requires tail != "" && tail[0] == '.'
    ensures Clear(['.'] + (Join(pkgs, PACKAGE) + (COMPONENT + (m + tail)))) <==> Clear(['.'] + (m + tail))
  {
    var end := ['.'] + (m + tail);
    assert COMPONENT + (m + tail) == ['.'] + ("component" + end);
    if |pkgs| == 1 {
      ClearDot("component", m, tail);
      ClearDot(pkgs[0], "component", end);
    } else {
      var rest := pkgs[1..];
      PathClear(rest, m, tail);
      Begins(rest, COMPONENT + (m + tail));
      Begins(pkgs, COMPONENT + (m + tail));
      var onward := Onward(rest, COMPONENT + (m + tail));
      PackageSplits(rest[0] + onward);
      ClearDot("package", rest[0], onward);
      ClearDot(pkgs[0], "package", ['.'] + (rest[0] + onward));
    }
  }

  /** The entity of one of a service's own two phases. */
  function PhaseRef(modId: string, toolchain: string, name: string, what: string): string {
    ServiceRef(modId, toolchain, name) + ("." + what)
  }

  /** The same tail, as the code spells it. */
  lemma TailForm(toolchain: string, name: string, what: string)
    ensures Tail(toolchain, name, what) == "." + ("service." + (toolchain + ("." + (name + ("." + what)))))
    ensures Tail(toolchain, name, what)[1..] == "service." + (toolchain + ("." + (name + ("." + what))))
  {
    var coordinates := toolchain + ("." + (name + ("." + what)));
    assert what + "" == what;
    Regrouped(coordinates);
  }

  lemma Regrouped(coordinates: string)
    ensures "service." + coordinates == "service" + (['.'] + coordinates)
  {
    assert "service." == "service" + ['.'];
  }

  lemma PhaseForm(modId: string, toolchain: string, name: string, what: string)
    ensures PhaseRef(modId, toolchain, name, what) ==
            if modId == "" then Tail(toolchain, name, what)[1..] else ModulePath(modId) + Tail(toolchain, name, what)
  {
    ServiceForm(modId, toolchain, name, "." + what);
    TailForm(toolchain, name, what);
  }

  lemma ClearAfter(s: string)
    requires s != "" && Clear(s)
    ensures Clear(s[1..])
  {
  }

  lemma ServiceTailClear(mod: Module, toolchain: string, name: string, what: string)
    requires Proper(mod) && Name(toolchain) && Name(name) && (what == "build" || what == "runtime")
    requires toolchain != "runtime" || name != "provision"
    ensures Clear(PhaseRef(Id(mod), toolchain, name, what))
  {
    var tail := Tail(toolchain, name, what);
    PhaseForm(Id(mod), toolchain, name, what);
    TailClear(toolchain, name, what);
    IdIsDefault(mod);
    if mod.Default? {
      ClearAfter(tail);
    } else {
      PathTailClear(mod, tail, ['.'] + (toolchain + (['.'] + (name + (['.'] + (what + ""))))));
    }
  }

  lemma PackageForm(path: string, m: string, tail: string)
    ensures "package." + path + COMPONENT + m + tail == "package" + (['.'] + (path + (COMPONENT + (m + tail))))
  {
    assert "package." == "package" + ['.'];
  }

  lemma ComponentForm(c: string, tail: string)
    ensures "component." + c + tail == "component" + (['.'] + (c + tail))
  {
    assert "component." == "component" + ['.'];
  }

  lemma PathTailClear(mod: Module, tail: string, after: string)
    requires Proper(mod) && !mod.Default? && tail == ['.'] + ("service" + after) && after != "" && after[0] == '.'
    ensures Clear(ModulePath(Id(mod)) + tail) <==> Clear(tail)
  {
    ModulePathOf(mod);
    if mod.Plain? {
      ClearDot(mod.c, "service", after);
      ComponentForm(mod.c, tail);
      ClearPast("component", ['.'] + (mod.c + tail));
    } else {
      ClearDot(mod.m, "service", after);
      PathClear(mod.pkgs, mod.m, tail);
      var path := Join(mod.pkgs, PACKAGE);
      PackageForm(path, mod.m, tail);
      ClearPast("package", ['.'] + (path + (COMPONENT + (mod.m + tail))));
    }
  }

  /** A service's phase ref is taken for a provision's if its name and phase alone look like one. */
  predicate TakenForProvision(name: string, what: string) {
    Find("." + (name + ("." + what)), PROVISION).Some?
  }

  lemma NameClear(mod: Module, toolchain: string, name: string, what: string)
    requires Proper(mod) && Name(toolchain) && toolchain != "runtime"
    ensures Clear(PhaseRef(Id(mod), toolchain, name, what)) <==> !TakenForProvision(name, what)
  {
    var tail := Tail(toolchain, name, what);
    var named := ['.'] + (name + (['.'] + (what + "")));
    assert what + "" == what && named == "." + (name + ("." + what));
    PhaseForm(Id(mod), toolchain, name, what);
    ClearWord(toolchain, named);
    ClearWord("service", ['.'] + (toolchain + named));
    IdIsDefault(mod);
    if mod.Default? {
      NextIsRuntime("service", ['.'] + (toolchain + named));
    } else {
      PathTailClear(mod, tail, ['.'] + (toolchain + named));
    }
  }

  lemma Dotting(lead: string, first: string, second: string, what: string, mark: string)
    requires mark == "." + first + "." + second + "."
    ensures lead + "." + first + "." + second + ("." + what) == lead + (mark + what)
  {
  }

  lemma ProvisionMark()
    ensures PROVISION == "." + "runtime" + "." + "provision" + "."
  {
  }

  lemma MisnamedForm(modId: string, toolchain: string, name: string, what: string, mark: string)
    requires mark == "." + toolchain + "." + name + "."
    ensures PhaseRef(modId, toolchain, name, what) ==
            (if modId == "" then "service" else ModulePath(modId) + ".service") + (mark + what)
  {
    var lead := if modId == "" then "service" else ModulePath(modId) + ".service";
    ServiceLead(modId, toolchain, name, lead);
    Dotting(lead, toolchain, name, what, mark);
  }

  lemma ServiceLead(modId: string, toolchain: string, name: string, lead: string)
    requires lead == if modId == "" then "service" else ModulePath(modId) + ".service"
    ensures ServiceRef(modId, toolchain, name) == lead + "." + toolchain + "." + name
  {
    assert "service." == "service" + "." && ".service." == ".service" + ".";
    if modId != "" {
      assert ModulePath(modId) + (".service" + ".") == lead + ".";
    }
  }

  /** A service's own phases are taken for provisions exactly for the service named `provision` of a
      toolchain named `runtime`. */
  lemma PhaseClear(mod: Module, toolchain: string, name: string, what: string)
    requires Proper(mod) && Name(toolchain) && Name(name) && (what == "build" || what == "runtime")
    ensures Clear(PhaseRef(Id(mod), toolchain, name, what)) <==> toolchain != "runtime" || name != "provision"
  {
    if toolchain != "runtime" || name != "provision" {
      ServiceTailClear(mod, toolchain, name, what);
    } else {
      ProvisionMark();
      MisnamedForm(Id(mod), toolchain, name, what, PROVISION);
      FoundIn(if Id(mod) == "" then "service" else ModulePath(Id(mod)) + ".service", PROVISION, what,
              PhaseRef(Id(mod), toolchain, name, what));
    }
  }

  lemma NoToolchain(mod: Module, toolchain: string, name: string, more: string)
    requires Proper(mod)
    ensures ParseToolchainRef(ServiceRef(Id(mod), toolchain, name) + more) == None
  {
    var coordinates := toolchain + ("." + (name + more));
    ServiceForm(Id(mod), toolchain, name, more);
    IdIsDefault(mod);
    StartsLikeService(coordinates);
    if !mod.Default? {
      ModulePathBack(mod, "service." + coordinates);
      PathIsNoService(mod, "." + ("service." + coordinates));
    }
  }

  /** The service a ref is looked up as, whatever its name is. */
  lemma ServiceNamed(mod: Module, toolchain: string, name: string)
    requires Proper(mod) && Name(toolchain)
    ensures ServiceNameOf(ServiceRef(Id(mod), toolchain, name)) ==
            if Readable(mod) && NameRead(name) != "" then Some(DisplayName(Id(mod), NameRead(name))) else None
  {
    ServiceReads(mod, toolchain, name);
    CoordinatesRead(Id(mod), toolchain, BeforeAt(name));
  }

  lemma DisplayNameCancels(modId: string, name: string, other: string)
    ensures DisplayName(modId, name) == DisplayName(modId, other) <==> name == other
  {
    if modId != "" {
      var prefix := modId + "/";
      assert (prefix + name)[|prefix|..] == name && (prefix + other)[|prefix|..] == other;
    }
  }

  lemma SuffixCut(sid: string, what: string)
    requires what == "build" || what == "runtime"
    ensures CutSuffix(sid + ("." + what), ".build") == if what == "build" then Some(sid) else None
    ensures what == "runtime" ==> CutSuffix(sid + ("." + what), ".runtime") == Some(sid)
  {
    var entity := sid + ("." + what);
    assert entity[..|sid|] == sid && entity[|sid|..] == "." + what;
    assert entity[|entity| - 1] == what[|what| - 1];
  }

  function OwnTarget(mod: Module, name: string, what: string): Target {
    if what == "build" then BuildOf(DisplayName(Id(mod), name)) else RuntimeOf(DisplayName(Id(mod), name))
  }

  /** What a phase ref is looked up as. */
  lemma PhaseLookup(mod: Module, toolchain: string, name: string, what: string)
    requires Proper(mod) && Name(toolchain) && (what == "build" || what == "runtime")
    ensures var ref := PhaseRef(Id(mod), toolchain, name, what);
            Dispatch(ref) == if !Clear(ref) then Some(ProvisionAt(ref))
                             else if Readable(mod) && NameRead(name) != "" then Some(OwnTarget(mod, NameRead(name), what))
                             else None
  {
    NoToolchain(mod, toolchain, name, "." + what);
    ServiceNamed(mod, toolchain, name);
    SuffixCut(ServiceRef(Id(mod), toolchain, name), what);
  }

  /** The refs a service writes for its own phases are looked up as that service's, exactly unless the
      nesting has a later package called `component`, the name has a dot or an `@`, or the service is
      `runtime` `provision`. */
  lemma PhaseDispatch(mod: Module, toolchain: string, name: string, what: string)
    requires Proper(mod) && Name(toolchain) && ServiceName(name) && (what == "build" || what == "runtime")
    ensures Dispatch(PhaseRef(Id(mod), toolchain, name, what)) == Some(OwnTarget(mod, name, what))
            <==> Readable(mod) && '.' !in name && '@' !in name && (toolchain != "runtime" || name != "provision")
  {
    PhaseLookup(mod, toolchain, name, what);
    NameReadWhole(name, "");
    assert name + "" == name;
    DisplayNameCancels(Id(mod), NameRead(name), name);
    if Name(name) {
      PhaseClear(mod, toolchain, name, what);
    }
  }

  /** The toolchain labels a service block may have; anything else is an error before refs are written. */
  predicate Accepted(toolchain: string) {
    toolchain in {"go", "rust", "ruby", "nodejs", "java", "pkg"}
  }

  /** For the services the program accepts: the nesting, and dots and at-signs in the name. */
  lemma AcceptedPhaseDispatch(mod: Module, toolchain: string, name: string, what: string)
    requires Proper(mod) && Accepted(toolchain) && ServiceName(name) && (what == "build" || what == "runtime")
    ensures Dispatch(PhaseRef(Id(mod), toolchain, name, what)) == Some(OwnTarget(mod, name, what))
            <==> Readable(mod) && '.' !in name && '@' !in name
  {
    AcceptedIsName(toolchain);
    PhaseDispatch(mod, toolchain, name, what);
  }

  lemma AcceptedIsName(toolchain: string)
    requires Accepted(toolchain)
    ensures Name(toolchain) && toolchain != "runtime"
  {
    assert |toolchain| < 7;
  }

  /** A provision's ref is always looked up as that provision. */
  lemma ProvisionDispatch(mod: Module, toolchain: string, name: string, step: string)
    requires Proper(mod)
    ensures Dispatch(ProvisionRef(Id(mod), toolchain, name, step)) == Some(ProvisionAt(ProvisionRef(Id(mod), toolchain, name, step)))
  {
    var sid := ServiceRef(Id(mod), toolchain, name);
    assert sid + PROVISION + step == sid + (PROVISION + step);
    NoToolchain(mod, toolchain, name, PROVISION + step);
    FoundIn(sid, PROVISION, step, sid + (PROVISION + step));
  }

  lemma ToolchainDispatch(mod: Module, lang: string)
    requires Proper(mod) && lang != ""
    ensures Dispatch(ToolchainRef(Id(mod), lang)) == Some(ToolchainAt(ToolchainKey(Id(mod), lang))) <==> Readable(mod)
  {
    ToolchainBack(mod, lang);
    ByToolchain(ToolchainRef(Id(mod), lang));
  }

  lemma ByToolchain(entity: string)
    ensures match ParseToolchainRef(entity)
            case Some(key) => Dispatch(entity) == Some(ToolchainAt(key))
            case None => Dispatch(entity).None? || !Dispatch(entity).value.ToolchainAt?
  {
  }

  /** The state is what follows the last `@`; the entity is what comes before. */
  lemma ResolveSplits(entity: string, state: string)
    requires '@' !in state
    ensures Resolve(BarrierRef(entity, state)) ==
            match Dispatch(entity) case None => None case Some(target) => Some(Decoded(target, state))
  {
    var ref := BarrierRef(entity, state);
    assert ref == entity + ['@'] + state;
    FindLastHere(entity, '@', state);
    assert ref[..|entity|] == entity && ref[|entity| + 1..] == state;
  }
}
