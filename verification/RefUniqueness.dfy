/** Different things have different ids, and are looked up as different things
    (internal/alphasfile/identity.go). */
module RefUniqueness {
  import opened Wrappers
  import opened Strings
  import opened Refs

  /** A module path, dot by dot. */
  function PackageSegments(pkgs: seq<string>): seq<string> {
    if pkgs == [] then [] else ["package", pkgs[0]] + PackageSegments(pkgs[1..])
  }

  function Segments(mod: Module): seq<string> {
    match mod
    case Default => []
    case Plain(c) => ["component", c]
    case InPackage(pkgs, m) => PackageSegments(pkgs) + ["component", m]
  }

  /** Each segment, followed by a dot. */
  function Dotted(segments: seq<string>): string {
    if segments == [] then "" else segments[0] + ("." + Dotted(segments[1..]))
  }

  lemma {:induction false} DottedJoins(a: seq<string>, b: seq<string>)
    ensures Dotted(a + b) == Dotted(a) + Dotted(b)
  {
    if a == [] {
      assert a + b == b;
    } else {
      assert (a + b)[1..] == a[1..] + b;
      DottedJoins(a[1..], b);
    }
  }

  lemma DottedTwo(a: string, b: string)
    ensures Dotted([a, b]) == a + ("." + (b + "."))
  {
    assert [a, b][1..] == [b];
    assert Dotted([b]) == b + ("." + "");
  }

  lemma PackageDot(rest: string)
    ensures PACKAGE + rest == "." + ("package." + rest)
  {
    assert PACKAGE == "." + "package.";
  }

  lemma PackageWord(s: string)
    ensures "package." + s == "package" + ("." + s)
  {
    assert "package." == "package" + ".";
  }

  lemma {:induction false} DottedPackages(pkgs: seq<string>)
    requires pkgs != []
    ensures Dotted(PackageSegments(pkgs)) == "package." + Join(pkgs, PACKAGE) + "."
  {
    var rest := PackageSegments(pkgs[1..]);
    DottedJoins(["package", pkgs[0]], rest);
    DottedTwo("package", pkgs[0]);
    if |pkgs| == 1 {
      assert Dotted(rest) == "";
      PackageWord(pkgs[0] + ".");
    } else {
      DottedPackages(pkgs[1..]);
      var tail := Join(pkgs[1..], PACKAGE);
      PackageDot(tail);
      PackageWord(pkgs[0] + ("." + ("package." + tail + ".")));
    }
  }

  lemma ComponentDot(path: string, m: string)
    ensures path + COMPONENT + m + "." == path + "." + ("component" + ("." + (m + ".")))
  {
    assert COMPONENT == "." + "component" + ".";
  }

  lemma ComponentWord(c: string)
    ensures "component." + c + "." == "component" + ("." + (c + "."))
  {
    assert "component." == "component" + ".";
  }

  lemma DottedModule(mod: Module)
    requires Proper(mod) && !mod.Default?
    ensures ModulePath(Id(mod)) + "." == Dotted(Segments(mod))
  {
    ModulePathOf(mod);
    if mod.Plain? {
      DottedTwo("component", mod.c);
      ComponentWord(mod.c);
    } else {
      DottedPackages(mod.pkgs);
      DottedJoins(PackageSegments(mod.pkgs), ["component", mod.m]);
      DottedTwo("component", mod.m);
      ComponentDot("package." + Join(mod.pkgs, PACKAGE), mod.m);
    }
  }

  /** What precedes the dot of a segment is the segment. */
  lemma SegmentSplits(a: string, t: string, b: string, u: string)
    requires '.' !in a && '.' !in b && a + ("." + t) == b + ("." + u)
    ensures a == b && t == u
  {
    CutHere(a, "." + t, ".");
    CutHere(b, "." + u, ".");
    assert ("." + t)[1..] == t && ("." + u)[1..] == u;
  }

  ghost predicate Dotless(segments: seq<string>) {
    forall i :: 0 <= i < |segments| ==> '.' !in segments[i]
  }

  /** Two dotted texts that agree, agree in the segments they have in common. */
  lemma {:induction false} SegmentsAgree(a: seq<string>, t: string, b: seq<string>, u: string)
    requires Dotless(a) && Dotless(b) && Dotted(a) + t == Dotted(b) + u && |a| <= |b|
    ensures a == b[..|a|] && t == Dotted(b[|a|..]) + u
  {
    if a == [] {
      assert b[0..] == b;
      assert Dotted(a) + t == t;
    } else {
      var restA, restB := Dotted(a[1..]) + t, Dotted(b[1..]) + u;
      assert Dotted(a) + t == a[0] + ("." + restA);
      assert Dotted(b) + u == b[0] + ("." + restB);
      SegmentSplits(a[0], restA, b[0], restB);
      SegmentsAgree(a[1..], t, b[1..], u);
      assert b[..|a|] == [b[0]] + b[1..][..|a| - 1] && a == [a[0]] + a[1..];
      assert b[|a|..] == b[1..][|a| - 1..];
    }
  }

  // ---- modules ----

  /** A module id tells the module. */
  lemma IdIsUnique(mod: Module, other: Module)
    requires Proper(mod) && Proper(other) && Id(mod) == Id(other)
    ensures mod == other
  {
    if !mod.Default? && !other.Default? {
      IdSplits(mod);
      IdSplits(other);
      var parts, others := Levels(mod), Levels(other);
      assert parts == others;
      if mod.InPackage? && other.InPackage? {
        assert mod.pkgs == parts[..|parts| - 1] && other.pkgs == parts[..|parts| - 1];
        assert mod.m == parts[|parts| - 1] && other.m == parts[|parts| - 1];
      }
    }
  }

  function Levels(mod: Module): seq<string> {
    match mod
    case Default => []
    case Plain(c) => [c]
    case InPackage(pkgs, m) => pkgs + [m]
  }

  lemma IdSplits(mod: Module)
    requires Proper(mod) && !mod.Default?
    ensures Split(Id(mod), "/") == Levels(mod)
  {
    var parts := Levels(mod);
    if mod.InPackage? {
      JoinAppends(mod.pkgs, [mod.m], "/");
    }
    assert Id(mod) == Join(parts, "/");
    assert forall i :: 0 <= i < |parts| ==> Name(parts[i]);
    SplitJoined(parts, "/");
  }

  lemma {:induction false} PackagesDotless(pkgs: seq<string>)
    requires forall i :: 0 <= i < |pkgs| ==> Name(pkgs[i])
    ensures Dotless(PackageSegments(pkgs))
  {
    if pkgs != [] {
      PackagesDotless(pkgs[1..]);
    }
  }

  /** The words that end a module path. */
  predicate Ends(word: string) {
    word == "service" || word == "toolchain"
  }

  lemma {:induction false} PathsAgree(a: seq<string>, m: string, x: seq<string>, b: seq<string>, n: string, y: seq<string>)
    requires PackageSegments(a) + (["component", m] + x) == PackageSegments(b) + (["component", n] + y)
    ensures a == b && m == n && x == y
  {
    var whole, other := PackageSegments(a) + (["component", m] + x), PackageSegments(b) + (["component", n] + y);
    Opens(a, ["component", m] + x);
    Opens(b, ["component", n] + y);
    assert whole[0] == other[0] && whole[1] == other[1] && whole[2..] == other[2..];
    if a == [] || b == [] {
      assert (["component", m] + x)[2..] == x && (["component", n] + y)[2..] == y;
    } else {
      PathsAgree(a[1..], m, x, b[1..], n, y);
      assert a == [a[0]] + a[1..] && b == [b[0]] + b[1..];
    }
  }

  lemma Opens(pkgs: seq<string>, after: seq<string>)
    requires |after| >= 2 && after[0] == "component"
    ensures var whole := PackageSegments(pkgs) + after;
            && |whole| >= 2 && whole[0] == (if pkgs == [] then "component" else "package")
            && whole[1] == (if pkgs == [] then after[1] else pkgs[0])
            && whole[2..] == (if pkgs == [] then after[2..] else PackageSegments(pkgs[1..]) + after)
  {
    if pkgs == [] {
      assert PackageSegments(pkgs) + after == after;
    } else {
      assert PackageSegments(pkgs) + after == ["package", pkgs[0]] + (PackageSegments(pkgs[1..]) + after);
    }
  }

  function Packages(mod: Module): seq<string> {
    if mod.InPackage? then mod.pkgs else []
  }

  function LastName(mod: Module): string {
    match mod
    case Default => ""
    case Plain(c) => c
    case InPackage(_, m) => m
  }

  lemma PathThen(mod: Module, x: seq<string>)
    requires !mod.Default?
    ensures Segments(mod) + x == PackageSegments(Packages(mod)) + (["component", LastName(mod)] + x)
  {
    assert Segments(mod) == PackageSegments(Packages(mod)) + ["component", LastName(mod)];
  }

  /** The first segment tells the modules that have a path from the one that has none. */
  lemma StartsLikePath(mod: Module, x: seq<string>)
    requires Proper(mod) && x != [] && Ends(x[0])
    ensures Ends((Segments(mod) + x)[0]) <==> mod.Default?
  {
    if !mod.Default? {
      PathThen(mod, x);
      Opens(Packages(mod), ["component", LastName(mod)] + x);
    }
  }

  /** The segments up to the end of the path tell the module. */
  lemma ModulesAgree(mod: Module, x: seq<string>, other: Module, y: seq<string>)
    requires Proper(mod) && Proper(other) && Segments(mod) + x == Segments(other) + y
    requires x != [] && Ends(x[0]) && y != [] && Ends(y[0])
    ensures mod == other && x == y
  {
    StartsLikePath(mod, x);
    StartsLikePath(other, y);
    if mod.Default? {
      assert Segments(mod) + x == x && Segments(other) + y == y;
    } else {
      PathThen(mod, x);
      PathThen(other, y);
      PathsAgree(Packages(mod), LastName(mod), x, Packages(other), LastName(other), y);
    }
  }

  lemma ModuleDotless(mod: Module)
    requires Proper(mod)
    ensures Dotless(Segments(mod))
  {
    if mod.InPackage? {
      PackagesDotless(mod.pkgs);
    }
  }

  // ---- ids ----

  /** An entity's id tells its module, the segments that name it, and what follows. */
  lemma EntityIsUnique(mod: Module, x: seq<string>, t: string, other: Module, y: seq<string>, u: string)
    requires Proper(mod) && Proper(other) && Dotless(x) && Dotless(y)
    requires x != [] && Ends(x[0]) && y != [] && Ends(y[0])
    requires |x| == |y| && Dotted(Segments(mod) + x) + t == Dotted(Segments(other) + y) + u
    ensures mod == other && x == y && t == u
  {
    ModuleDotless(mod);
    ModuleDotless(other);
    var a, b := Segments(mod) + x, Segments(other) + y;
    if |a| <= |b| {
      SegmentsAgree(a, t, b, u);
      EntityExtends(mod, x, other, y);
    } else {
      SegmentsAgree(b, u, a, t);
      EntityExtends(other, y, mod, x);
    }
    Cancels(Dotted(a), t, u);
  }

  lemma Cancels(p: string, t: string, u: string)
    requires p + t == p + u
    ensures t == u
  {
    assert (p + t)[|p|..] == t && (p + u)[|p|..] == u;
  }

  lemma EntityExtends(mod: Module, x: seq<string>, other: Module, y: seq<string>)
    requires Proper(mod) && Proper(other) && x != [] && Ends(x[0]) && y != [] && Ends(y[0]) && |x| == |y|
    requires |Segments(mod) + x| <= |Segments(other) + y|
    requires Segments(mod) + x == (Segments(other) + y)[..|Segments(mod) + x|]
    ensures mod == other && x == y
  {
    var b := Segments(other) + y;
    var extra := b[|Segments(mod) + x|..];
    Lengthens(Segments(mod), x, extra, b);
    ModulesAgree(mod, x + extra, other, y);
  }

  lemma Lengthens(a: seq<string>, x: seq<string>, extra: seq<string>, b: seq<string>)
    requires |a + x| <= |b| && a + x == b[..|a + x|] && extra == b[|a + x|..]
    ensures a + (x + extra) == b
  {
    assert b == b[..|a + x|] + extra;
  }

  lemma ServiceDotted(mod: Module, toolchain: string, t: string)
    requires Proper(mod)
    ensures ServiceRef(Id(mod), toolchain, t) == Dotted(Segments(mod) + ["service", toolchain]) + t
  {
    DottedJoins(Segments(mod), ["service", toolchain]);
    DottedTwo("service", toolchain);
    IdIsDefault(mod);
    ServiceWords(if mod.Default? then "" else ModulePath(Id(mod)), toolchain, t);
    if !mod.Default? {
      DottedModule(mod);
    }
  }

  lemma ServiceWords(path: string, toolchain: string, t: string)
    ensures "service." + toolchain + "." + t == "" + ("service" + ("." + (toolchain + "."))) + t
    ensures path + ".service." + toolchain + "." + t == path + "." + ("service" + ("." + (toolchain + "."))) + t
  {
    assert "service." == "service" + "." && ".service." == "." + "service" + ".";
  }

  lemma ToolchainDotted(mod: Module, lang: string)
    requires Proper(mod)
    ensures ToolchainRef(Id(mod), lang) == Dotted(Segments(mod) + ["toolchain"]) + lang
  {
    DottedJoins(Segments(mod), ["toolchain"]);
    assert Dotted(["toolchain"]) == "toolchain" + ("." + "");
    IdIsDefault(mod);
    ToolchainWords(if mod.Default? then "" else ModulePath(Id(mod)), lang);
    if !mod.Default? {
      DottedModule(mod);
    }
  }

  lemma ToolchainWords(path: string, lang: string)
    ensures "toolchain." + lang == "" + ("toolchain" + ("." + "")) + lang
    ensures path + ".toolchain." + lang == path + "." + ("toolchain" + ("." + "")) + lang
  {
    assert "toolchain." == "toolchain" + "." && ".toolchain." == "." + "toolchain" + ".";
  }

  /** A service's ref is its own, whatever the packages and the service are called. */
  lemma ServiceRefIsUnique(mod: Module, toolchain: string, name: string, other: Module, otherToolchain: string, otherName: string)
    requires Proper(mod) && Name(toolchain) && Proper(other) && Name(otherToolchain)
    ensures ServiceRef(Id(mod), toolchain, name) == ServiceRef(Id(other), otherToolchain, otherName)
            <==> mod == other && toolchain == otherToolchain && name == otherName
  {
    if ServiceRef(Id(mod), toolchain, name) == ServiceRef(Id(other), otherToolchain, otherName) {
      ServiceDotted(mod, toolchain, name);
      ServiceDotted(other, otherToolchain, otherName);
      var x, y := ["service", toolchain], ["service", otherToolchain];
      EntityIsUnique(mod, x, name, other, y, otherName);
      assert x[1] == y[1];
    }
  }

  lemma StepAppends(modId: string, toolchain: string, name: string, step: string)
    ensures ProvisionRef(modId, toolchain, name, step) == ServiceRef(modId, toolchain, name + (PROVISION + step))
  {
    NameAppends(modId, toolchain, name);
    NameAppends(modId, toolchain, name + (PROVISION + step));
    Regrouped(ServiceRef(modId, toolchain, ""), name, PROVISION, step);
  }

  lemma Regrouped(a: string, b: string, c: string, d: string)
    ensures a + b + c + d == a + (b + (c + d))
  {
  }

  /** The name does not look like a shorter name and a provision of it. */
  predicate Opaque(name: string) {
    forall i :: 0 < i < |name| ==> !(PROVISION <= name[i..] + PROVISION)
  }

  lemma DotlessIsOpaque(name: string)
    requires '.' !in name
    ensures Opaque(name)
  {
    forall i | 0 < i < |name|
      ensures !(PROVISION <= name[i..] + PROVISION)
    {
      assert (name[i..] + PROVISION)[0] == name[i];
    }
  }

  lemma {:induction false} NoShorter(name: string, step: string, other: string, otherStep: string)
    requires 0 < |other| < |name| && name + (PROVISION + step) == other + (PROVISION + otherStep)
    ensures !Opaque(name)
  {
    var i := |other|;
    var whole := name + (PROVISION + step);
    assert whole[i..] == PROVISION + otherStep;
    assert whole[i..] == (name[i..] + PROVISION) + step;
    assert |name[i..] + PROVISION| >= |PROVISION|;
    assert (name[i..] + PROVISION)[..|PROVISION|] == whole[i..][..|PROVISION|] == PROVISION;
  }

  lemma SameLength(a: string, t: string, b: string, u: string)
    requires |a| == |b| && a + t == b + u
    ensures a == b && t == u
  {
    assert (a + t)[..|a|] == a && (b + u)[..|b|] == b;
    Cancels(a, t, u);
  }

  lemma OpaqueTells(name: string, step: string, other: string, otherStep: string)
    requires name != "" && other != "" && Opaque(name) && Opaque(other)
    requires name + (PROVISION + step) == other + (PROVISION + otherStep)
    ensures name == other && step == otherStep
  {
    if 0 < |other| < |name| {
      NoShorter(name, step, other, otherStep);
    } else if 0 < |name| < |other| {
      NoShorter(other, otherStep, name, step);
    } else {
      SameLength(name, PROVISION + step, other, PROVISION + otherStep);
      Cancels(PROVISION, step, otherStep);
    }
  }

  /** A provision's ref is its own among services with opaque names, and any name without a dot is. */
  lemma ProvisionRefIsUnique(mod: Module, toolchain: string, name: string, step: string,
                             other: Module, otherToolchain: string, otherName: string, otherStep: string)
    requires Proper(mod) && Name(toolchain) && ServiceName(name) && Proper(other) && Name(otherToolchain) && ServiceName(otherName)
    requires Opaque(name) && Opaque(otherName)
    ensures ProvisionRef(Id(mod), toolchain, name, step) == ProvisionRef(Id(other), otherToolchain, otherName, otherStep)
            <==> mod == other && toolchain == otherToolchain && name == otherName && step == otherStep
  {
    StepAppends(Id(mod), toolchain, name, step);
    StepAppends(Id(other), otherToolchain, otherName, otherStep);
    var whole, otherWhole := name + (PROVISION + step), otherName + (PROVISION + otherStep);
    ServiceRefIsUnique(mod, toolchain, whole, other, otherToolchain, otherWhole);
    if whole == otherWhole {
      OpaqueTells(name, step, otherName, otherStep);
    }
  }

  /** A name that is not opaque gives every one of its provisions the ref of another service's. */
  lemma OpenNameCollides(mod: Module, toolchain: string, name: string, step: string) returns (otherName: string, otherStep: string)
    requires ServiceName(name) && !Opaque(name)
    ensures ServiceName(otherName) && otherName != name
    ensures ProvisionRef(Id(mod), toolchain, name, step) == ProvisionRef(Id(mod), toolchain, otherName, otherStep)
  {
    var i :| 0 < i < |name| && PROVISION <= name[i..] + PROVISION;
    otherName, otherStep := name[..i], (name[i..] + PROVISION)[|PROVISION|..] + step;
    Shortened(name, i, step, PROVISION);
    StepAppends(Id(mod), toolchain, name, step);
    StepAppends(Id(mod), toolchain, otherName, otherStep);
  }

  lemma Shortened(name: string, i: nat, step: string, mark: string)
    requires i <= |name| && mark <= name[i..] + mark
    ensures name + (mark + step) == name[..i] + (mark + ((name[i..] + mark)[|mark|..] + step))
  {
    var tail := name[i..] + mark;
    assert tail == mark + tail[|mark|..];
    assert name == name[..i] + name[i..];
    assert name + (mark + step) == name[..i] + (tail + step);
  }

  lemma ToolchainRefIsUnique(mod: Module, lang: string, other: Module, otherLang: string)
    requires Proper(mod) && Proper(other)
    ensures ToolchainRef(Id(mod), lang) == ToolchainRef(Id(other), otherLang) <==> mod == other && lang == otherLang
  {
    if ToolchainRef(Id(mod), lang) == ToolchainRef(Id(other), otherLang) {
      ToolchainDotted(mod, lang);
      ToolchainDotted(other, otherLang);
      EntityIsUnique(mod, ["toolchain"], lang, other, ["toolchain"], otherLang);
    }
  }

  // ---- what they are looked up as ----

  lemma DisplayNameIsUnique(mod: Module, name: string, other: Module, otherName: string)
    requires Proper(mod) && Proper(other) && '/' !in name && '/' !in otherName
    ensures DisplayName(Id(mod), name) == DisplayName(Id(other), otherName) <==> mod == other && name == otherName
  {
    if DisplayName(Id(mod), name) == DisplayName(Id(other), otherName) {
      DisplayNameBack(Id(mod), name);
      DisplayNameBack(Id(other), otherName);
      IdIsUnique(mod, other);
    }
  }

  /** The phase refs of the service are looked up as nothing. */
  predicate Lost(mod: Module, name: string) {
    !Readable(mod) || NameRead(name) == ""
  }

  /** What decides whether two phase refs are looked up as one. The toolchain does not show, as the code
      keeps services by display name, nor does what is not read of a name. */
  predicate SameTarget(mod: Module, toolchain: string, name: string, what: string,
                       other: Module, otherToolchain: string, otherName: string, otherWhat: string) {
    if TakenForProvision(name, what) || TakenForProvision(otherName, otherWhat) then
      mod == other && toolchain == otherToolchain && name == otherName && what == otherWhat
    else if Lost(mod, name) || Lost(other, otherName) then Lost(mod, name) && Lost(other, otherName)
    else mod == other && NameRead(name) == NameRead(otherName) && what == otherWhat
  }

  lemma PhaseRefIsUnique(mod: Module, toolchain: string, name: string, what: string,
                         other: Module, otherToolchain: string, otherName: string, otherWhat: string)
    requires Proper(mod) && Name(toolchain) && (what == "build" || what == "runtime")
    requires Proper(other) && Name(otherToolchain) && (otherWhat == "build" || otherWhat == "runtime")
    ensures PhaseRef(Id(mod), toolchain, name, what) == PhaseRef(Id(other), otherToolchain, otherName, otherWhat)
            <==> mod == other && toolchain == otherToolchain && name == otherName && what == otherWhat
  {
    var whole, otherWhole := name + ("." + what), otherName + ("." + otherWhat);
    WhatAppends(Id(mod), toolchain, name, what);
    WhatAppends(Id(other), otherToolchain, otherName, otherWhat);
    ServiceRefIsUnique(mod, toolchain, whole, other, otherToolchain, otherWhole);
    if whole == otherWhole {
      assert whole[|whole| - 1] == what[|what| - 1] && otherWhole[|whole| - 1] == otherWhat[|otherWhat| - 1];
      assert what == otherWhat;
      assert whole[..|name|] == name && otherWhole[..|name|] == otherName;
    }
  }

  lemma WhatAppends(modId: string, toolchain: string, name: string, what: string)
    ensures PhaseRef(modId, toolchain, name, what) == ServiceRef(modId, toolchain, name + ("." + what))
  {
    NameAppends(modId, toolchain, name);
    NameAppends(modId, toolchain, name + ("." + what));
  }

  lemma ReadHasNoSlash(name: string)
    requires '/' !in name
    ensures '/' !in NameRead(name)
  {
    CutLacks(BeforeAt(name), '.');
  }

  /** What a phase ref of an accepted service is looked up as. */
  function Lookup(mod: Module, toolchain: string, name: string, what: string): Option<Target> {
    if TakenForProvision(name, what) then Some(ProvisionAt(PhaseRef(Id(mod), toolchain, name, what)))
    else if Lost(mod, name) then None
    else Some(OwnTarget(mod, NameRead(name), what))
  }

  lemma LookedUp(mod: Module, toolchain: string, name: string, what: string)
    requires Proper(mod) && Accepted(toolchain) && (what == "build" || what == "runtime")
    ensures Dispatch(PhaseRef(Id(mod), toolchain, name, what)) == Lookup(mod, toolchain, name, what)
  {
    AcceptedIsName(toolchain);
    PhaseLookup(mod, toolchain, name, what);
    NameClear(mod, toolchain, name, what);
  }

  lemma OwnTargetIsUnique(mod: Module, name: string, what: string, other: Module, otherName: string, otherWhat: string)
    requires Proper(mod) && '/' !in name && (what == "build" || what == "runtime")
    requires Proper(other) && '/' !in otherName && (otherWhat == "build" || otherWhat == "runtime")
    ensures OwnTarget(mod, NameRead(name), what) == OwnTarget(other, NameRead(otherName), otherWhat)
            <==> mod == other && NameRead(name) == NameRead(otherName) && what == otherWhat
  {
    ReadHasNoSlash(name);
    ReadHasNoSlash(otherName);
    DisplayNameIsUnique(mod, NameRead(name), other, NameRead(otherName));
  }

  /** Two phase refs are looked up as one exactly if module, name as read, and phase agree, or neither is
      looked up at all; those taken for provisions only if they are the same ref. */
  lemma PhaseTargetIsUnique(mod: Module, toolchain: string, name: string, what: string,
                            other: Module, otherToolchain: string, otherName: string, otherWhat: string)
    requires Proper(mod) && Accepted(toolchain) && ServiceName(name) && (what == "build" || what == "runtime")
    requires Proper(other) && Accepted(otherToolchain) && ServiceName(otherName) && (otherWhat == "build" || otherWhat == "runtime")
    ensures Dispatch(PhaseRef(Id(mod), toolchain, name, what)) == Dispatch(PhaseRef(Id(other), otherToolchain, otherName, otherWhat))
            <==> SameTarget(mod, toolchain, name, what, other, otherToolchain, otherName, otherWhat)
  {
    LookedUp(mod, toolchain, name, what);
    LookedUp(other, otherToolchain, otherName, otherWhat);
    AcceptedIsName(toolchain);
    AcceptedIsName(otherToolchain);
    LookupIsUnique(mod, toolchain, name, what, other, otherToolchain, otherName, otherWhat);
  }

  lemma LookupIsUnique(mod: Module, toolchain: string, name: string, what: string,
                       other: Module, otherToolchain: string, otherName: string, otherWhat: string)
    requires Proper(mod) && Name(toolchain) && '/' !in name && (what == "build" || what == "runtime")
    requires Proper(other) && Name(otherToolchain) && '/' !in otherName && (otherWhat == "build" || otherWhat == "runtime")
    ensures Lookup(mod, toolchain, name, what) == Lookup(other, otherToolchain, otherName, otherWhat)
            <==> SameTarget(mod, toolchain, name, what, other, otherToolchain, otherName, otherWhat)
  {
    if TakenForProvision(name, what) && TakenForProvision(otherName, otherWhat) {
      PhaseRefIsUnique(mod, toolchain, name, what, other, otherToolchain, otherName, otherWhat);
    }
    OwnTargetIsUnique(mod, name, what, other, otherName, otherWhat);
  }

  /** The service `my.api` is accepted, and whoever waits for it waits for the service `my`. */
  lemma DottedNameIsAnother()
    ensures ServiceName("my.api") && ServiceRef("", "go", "my.api") != ServiceRef("", "go", "my")
    ensures Dispatch(PhaseRef("", "go", "my.api", "runtime")) == Some(RuntimeOf("my"))
    ensures Dispatch(PhaseRef("", "go", "my.api", "runtime")) == Dispatch(PhaseRef("", "go", "my", "runtime"))
  {
    ServiceRefIsUnique(Default, "go", "my.api", Default, "go", "my");
    LookedUpAsMy("my.api");
    LookedUpAsMy("my");
  }

  lemma LookedUpAsMy(name: string)
    requires name == "my.api" || name == "my"
    ensures Dispatch(PhaseRef("", "go", name, "runtime")) == Some(RuntimeOf("my"))
  {
    LookedUp(Default, "go", name, "runtime");
    ShortIsClear(name);
    ReadsMy();
  }

  lemma ShortIsClear(name: string)
    requires |name| < 10
    ensures !TakenForProvision(name, "runtime")
  {
    FindTooLong("." + (name + ("." + "runtime")), PROVISION);
  }

  lemma ReadsMy()
    ensures NameRead("my.api") == "my" == NameRead("my")
  {
    FindLastNone("my.api", '@');
    assert "my" + ".api" == "my.api";
    CutHere("my", ".api", ".");
    NameReadWhole("my", "");
    assert "my" + "" == "my";
  }

  /** So the services `go` `api` and `rust` `api`, which have refs of their own, are one to alpha. */
  lemma ToolchainDoesNotShow()
    ensures ServiceRef("", "go", "api") != ServiceRef("", "rust", "api")
    ensures Dispatch(PhaseRef("", "go", "api", "runtime")) == Dispatch(PhaseRef("", "rust", "api", "runtime"))
    ensures Dispatch(PhaseRef("", "go", "api", "runtime")) == Some(RuntimeOf("api"))
  {
    ServiceRefIsUnique(Default, "go", "api", Default, "rust", "api");
    AcceptedPhaseDispatch(Default, "go", "api", "runtime");
    AcceptedPhaseDispatch(Default, "rust", "api", "runtime");
  }

  lemma ProvisionTargetIsUnique(mod: Module, toolchain: string, name: string, step: string,
                                other: Module, otherToolchain: string, otherName: string, otherStep: string)
    requires Proper(mod) && Name(toolchain) && ServiceName(name) && Proper(other) && Name(otherToolchain) && ServiceName(otherName)
    requires Opaque(name) && Opaque(otherName)
    ensures Dispatch(ProvisionRef(Id(mod), toolchain, name, step)) == Dispatch(ProvisionRef(Id(other), otherToolchain, otherName, otherStep))
            <==> mod == other && toolchain == otherToolchain && name == otherName && step == otherStep
  {
    ProvisionDispatch(mod, toolchain, name, step);
    ProvisionDispatch(other, otherToolchain, otherName, otherStep);
    ProvisionRefIsUnique(mod, toolchain, name, step, other, otherToolchain, otherName, otherStep);
  }

  lemma ToolchainTargetIsUnique(mod: Module, lang: string, other: Module, otherLang: string)
    requires Proper(mod) && Readable(mod) && Proper(other) && Readable(other)
    requires lang != "" && otherLang != "" && '/' !in lang && '/' !in otherLang
    ensures Dispatch(ToolchainRef(Id(mod), lang)) == Dispatch(ToolchainRef(Id(other), otherLang)) <==> mod == other && lang == otherLang
  {
    ToolchainDispatch(mod, lang);
    ToolchainDispatch(other, otherLang);
    DisplayNameIsUnique(mod, lang, other, otherLang);
  }
}
