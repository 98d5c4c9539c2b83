/** The grammar of refs: alpha looks a ref up as something exactly if it is written so, whether zordon
    wrote it or somebody by hand (internal/alphasfile/identity.go, cmd/alpha/main.go). */
module RefGrammar {
  import opened Wrappers
  import opened Strings
  import opened Refs

  /** The path of a component, as it is nested in packages. */
  function Path(mod: Module): string {
    match mod
    case Default => ""
    case Plain(c) => "component." + c
    case InPackage(pkgs, m) => "package." + Join(pkgs, ".package.") + ".component." + m
  }

  /** The words between the dots are not empty, and no package but the first is called `component`. */
  predicate Legible(mod: Module) {
    match mod
    case Default => true
    case Plain(c) => c != "" && '.' !in c
    case InPackage(pkgs, m) =>
      && pkgs != [] && m != "" && '.' !in m
      && (forall i :: 0 <= i < |pkgs| ==> pkgs[i] != "" && '.' !in pkgs[i])
      && forall i :: 1 <= i < |pkgs| ==> pkgs[i] != "component"
  }

  ghost predicate IsModulePath(id: string, modId: string, rest: string, mod: Module) {
    Legible(mod) && !mod.Default? && id == Path(mod) + ("." + rest) && modId == Id(mod)
  }

  ghost predicate IsToolchain(entity: string, key: string) {
    || (key != "" && entity == "toolchain." + key)
    || exists mod, lang :: lang != "" && key == Id(mod) + "/" + lang && IsModulePath(entity, Id(mod), "toolchain." + lang, mod)
  }

  /** What follows the module path in a service's id; `rest` is what follows the name. */
  ghost predicate IsLocal(id: string, toolchain: string, name: string, rest: string) {
    && toolchain != "" && '.' !in toolchain && name != "" && '.' !in name
    && ((id == "service." + (toolchain + ("." + name)) && rest == "") || id == "service." + (toolchain + ("." + (name + ("." + rest)))))
  }

  ghost predicate IsService(id: string, s: Service) {
    if s.modId == "" then IsLocal(id, s.toolchain, s.name, s.rest)
    else exists mod, local :: IsModulePath(id, s.modId, local, mod) && IsLocal(local, s.toolchain, s.name, s.rest)
  }

  /** Up to the last `@`. */
  ghost predicate Fronts(id: string, ref: string) {
    ('@' !in ref && id == ref) || exists after :: '@' !in after && ref == id + "@" + after
  }

  ghost predicate IsServiceRef(ref: string, s: Service) {
    exists id :: Fronts(id, ref) && IsService(id, s)
  }

  ghost predicate Shows(ref: string, display: string) {
    exists s :: IsServiceRef(ref, s) && display == if s.modId == "" then s.name else s.modId + "/" + s.name
  }

  ghost predicate IsProvision(entity: string) {
    exists a, b :: entity == a + (".runtime.provision." + b)
  }

  /** Toolchains come first, then anything with a provision in it, then builds and runtimes. */
  ghost predicate Denotes(entity: string, target: Target) {
    match target
    case ToolchainAt(key) => IsToolchain(entity, key)
    case ProvisionAt(id) => id == entity && IsProvision(entity) && !exists key :: IsToolchain(entity, key)
    case BuildOf(display) =>
      && !IsProvision(entity) && !(exists key :: IsToolchain(entity, key))
      && exists before :: entity == before + ".build" && Shows(before, display)
    case RuntimeOf(display) =>
      && !IsProvision(entity) && !(exists key :: IsToolchain(entity, key))
      && exists before :: entity == before + ".runtime" && Shows(before, display)
  }

  // ---- module paths ----

  lemma LegibleIs(mod: Module)
    ensures Legible(mod) <==> Worded(mod) && Readable(mod)
  {
  }

  lemma PathReads(id: string, modId: string, rest: string, mod: Module)
    requires IsModulePath(id, modId, rest, mod)
    ensures ParseModulePath(id) == Some((modId, rest)) && modId != ""
  {
    if mod.Plain? {
      PlainBack(mod.c, rest);
    } else {
      LegibleIs(mod);
      InPackageBack(mod, rest);
      assert Path(mod) + ("." + rest) == "package." + Join(mod.pkgs, PACKAGE) + COMPONENT + mod.m + ("." + rest);
    }
  }

  lemma PrefixCut(s: string, prefix: string)
    requires CutPrefix(s, prefix).Some?
    ensures s == prefix + CutPrefix(s, prefix).value
  {
  }

  lemma DotCut(s: string)
    requires Cut(s, ".").Some?
    ensures s == Cut(s, ".").value.0 + ("." + Cut(s, ".").value.1) && '.' !in Cut(s, ".").value.0
  {
    CutJoins(s, ".");
    CutLacks(s, '.');
  }

  lemma PlainFound(id: string) returns (mod: Module)
    requires ParseModulePath(id).Some? && CutPrefix(id, "package.").None?
    ensures IsModulePath(id, ParseModulePath(id).value.0, ParseModulePath(id).value.1, mod)
  {
    PrefixCut(id, "component.");
    var after := CutPrefix(id, "component.").value;
    DotCut(after);
    var m := Cut(after, ".").value;
    mod := Plain(m.0);
    assert id == "component." + m.0 + ("." + m.1);
  }

  lemma Nested(path: string, m: string, rest: string)
    ensures "package." + (path + (COMPONENT + (m + ("." + rest)))) == "package." + path + COMPONENT + m + ("." + rest)
  {
  }

  lemma PackagedFound(id: string) returns (mod: Module)
    requires ParseModulePath(id).Some? && CutPrefix(id, "package.").Some?
    ensures IsModulePath(id, ParseModulePath(id).value.0, ParseModulePath(id).value.1, mod)
  {
    PrefixCut(id, "package.");
    var after := CutPrefix(id, "package.").value;
    CutJoins(after, COMPONENT);
    var cut := Cut(after, COMPONENT).value;
    JoinedSplit(cut.0, PACKAGE);
    DotCut(cut.1);
    var m := Cut(cut.1, ".").value;
    mod := InPackage(Split(cut.0, PACKAGE), m.0);
    WordsAreGood(mod.pkgs);
    PackagePathBack(mod, cut.1);
    LegibleIs(mod);
    Nested(cut.0, m.0, m.1);
  }

  lemma WordsAreGood(pkgs: seq<string>)
    requires !SomeBad(pkgs)
    ensures forall i :: 0 <= i < |pkgs| ==> !BadSegment(pkgs[i])
  {
  }

  /** Exactly the legible module paths are read. */
  lemma PathIff(id: string, modId: string, rest: string)
    ensures ParseModulePath(id) == Some((modId, rest)) <==> exists mod :: IsModulePath(id, modId, rest, mod)
  {
    if ParseModulePath(id) == Some((modId, rest)) {
      var mod: Module;
      if CutPrefix(id, "package.").None? {
        mod := PlainFound(id);
      } else {
        mod := PackagedFound(id);
      }
      assert IsModulePath(id, modId, rest, mod);
    }
    if mod :| IsModulePath(id, modId, rest, mod) {
      PathReads(id, modId, rest, mod);
    }
  }

  lemma LocalIsNoPath(t: string)
    ensures ParseModulePath("service." + t).None? && ParseModulePath("toolchain." + t).None?
  {
    assert ("service." + t)[0] == 's' && ("toolchain." + t)[0] == 't';
  }

  // ---- toolchains ----

  lemma ToolchainReads(entity: string, key: string)
    requires IsToolchain(entity, key)
    ensures ParseToolchainRef(entity) == Some(key)
  {
    if key != "" && entity == "toolchain." + key {
      KeyBack(key);
    } else {
      var mod, lang :| lang != "" && key == Id(mod) + "/" + lang && IsModulePath(entity, Id(mod), "toolchain." + lang, mod);
      PathReads(entity, Id(mod), "toolchain." + lang, mod);
      assert ("toolchain." + lang)[|"toolchain."|..] == lang;
    }
  }

  lemma ToolchainFound(entity: string)
    requires ParseToolchainRef(entity).Some?
    ensures IsToolchain(entity, ParseToolchainRef(entity).value)
  {
    var key := ParseToolchainRef(entity).value;
    if ParseModulePath(entity).Some? {
      var m := ParseModulePath(entity).value;
      PathIff(entity, m.0, m.1);
      var mod :| IsModulePath(entity, m.0, m.1, mod);
      PathReads(entity, m.0, m.1, mod);
      PrefixCut(m.1, "toolchain.");
      var lang := CutPrefix(m.1, "toolchain.").value;
      assert key == Id(mod) + "/" + lang && IsModulePath(entity, Id(mod), "toolchain." + lang, mod);
    } else {
      PrefixCut(entity, "toolchain.");
    }
  }

  lemma ToolchainIff(entity: string, key: string)
    ensures ParseToolchainRef(entity) == Some(key) <==> IsToolchain(entity, key)
  {
    if IsToolchain(entity, key) {
      ToolchainReads(entity, key);
    }
    if ParseToolchainRef(entity) == Some(key) {
      ToolchainFound(entity);
    }
  }

  // ---- services ----

  lemma LocalReads(modId: string, id: string, toolchain: string, name: string, rest: string)
    requires IsLocal(id, toolchain, name, rest)
    ensures CutPrefix(id, "service.").Some?
    ensures ParseCoordinates(modId, CutPrefix(id, "service.").value) == Some(Service(modId, toolchain, name, rest))
  {
    var after := id[|"service."|..];
    if id == "service." + (toolchain + ("." + name)) && rest == "" {
      assert after == toolchain + ("." + name);
      CutHere(toolchain, "." + name, ".");
      assert ("." + name)[1..] == name;
      FindSkips(name, "", ".");
      assert name + "" == name;
    } else {
      var u := name + ("." + rest);
      assert after == toolchain + ("." + u);
      CutHere(toolchain, "." + u, ".");
      assert ("." + u)[1..] == u;
      CutHere(name, "." + rest, ".");
      assert ("." + rest)[1..] == rest;
    }
  }

  lemma LocalFound(modId: string, id: string)
    requires CutPrefix(id, "service.").Some? && ParseCoordinates(modId, CutPrefix(id, "service.").value).Some?
    ensures var s := ParseCoordinates(modId, CutPrefix(id, "service.").value).value;
            s.modId == modId && IsLocal(id, s.toolchain, s.name, s.rest)
  {
    PrefixCut(id, "service.");
    var after := CutPrefix(id, "service.").value;
    DotCut(after);
    var u := Cut(after, ".").value.1;
    if Cut(u, ".").Some? {
      DotCut(u);
    } else {
      CutLacks(u, '.');
    }
  }

  lemma ReadIff(id: string, s: Service)
    ensures ParseServiceId(id) == Some(s) <==> IsService(id, s)
  {
    if IsService(id, s) {
      ServiceReadsBack(id, s);
    }
    if ParseServiceId(id) == Some(s) {
      if ParseModulePath(id).Some? {
        var m := ParseModulePath(id).value;
        PathIff(id, m.0, m.1);
        var mod :| IsModulePath(id, m.0, m.1, mod);
        PathReads(id, m.0, m.1, mod);
        LocalFound(m.0, m.1);
        assert IsModulePath(id, s.modId, m.1, mod);
      } else {
        LocalFound("", id);
      }
    }
  }

  lemma ServiceReadsBack(id: string, s: Service)
    requires IsService(id, s)
    ensures ParseServiceId(id) == Some(s)
  {
    if s.modId == "" {
      LocalReads("", id, s.toolchain, s.name, s.rest);
      PrefixCut(id, "service.");
      LocalIsNoPath(CutPrefix(id, "service.").value);
    } else {
      var mod, local :| IsModulePath(id, s.modId, local, mod) && IsLocal(local, s.toolchain, s.name, s.rest);
      PathReads(id, s.modId, local, mod);
      LocalReads(s.modId, local, s.toolchain, s.name, s.rest);
    }
  }

  lemma FrontIff(id: string, ref: string)
    ensures Fronts(id, ref) <==> id == BeforeAt(ref)
  {
    if '@' !in ref {
      FindLastNone(ref, '@');
    }
    if after :| '@' !in after && ref == id + "@" + after {
      FindLastHere(id, '@', after);
      assert ref == id + ['@'] + after && ref[..|id|] == id;
    }
    if id == BeforeAt(ref) && FindLast(ref, '@').Some? {
      var i := FindLast(ref, '@').value;
      FindLastIsLast(ref, '@', i);
      assert ref == id + "@" + ref[i + 1..];
    } else if FindLast(ref, '@').None? && '@' in ref {
      var i :| 0 <= i < |ref| && ref[i] == '@';
      AtFound(ref, i);
    }
  }

  lemma ServiceIff(ref: string, s: Service)
    ensures ParseServiceRef(ref) == Some(s) <==> IsServiceRef(ref, s)
  {
    FrontIff(BeforeAt(ref), ref);
    ReadIff(BeforeAt(ref), s);
    if IsServiceRef(ref, s) {
      var id :| Fronts(id, ref) && IsService(id, s);
      FrontIff(id, ref);
    }
  }

  lemma ShownIff(ref: string, display: string)
    ensures ServiceNameOf(ref) == Some(display) <==> Shows(ref, display)
  {
    if ServiceNameOf(ref) == Some(display) {
      var s := ParseServiceRef(ref).value;
      ServiceIff(ref, s);
      assert IsServiceRef(ref, s);
    }
    if Shows(ref, display) {
      var s :| IsServiceRef(ref, s) && display == if s.modId == "" then s.name else s.modId + "/" + s.name;
      ServiceIff(ref, s);
    }
  }

  // ---- the dispatch ----

  lemma ProvisionIff(entity: string)
    ensures Find(entity, ".runtime.provision.").Some? <==> IsProvision(entity)
  {
    var mark := ".runtime.provision.";
    if Find(entity, mark).Some? {
      CutJoins(entity, mark);
      assert entity == Cut(entity, mark).value.0 + (mark + Cut(entity, mark).value.1);
    }
    if a, b :| entity == a + (mark + b) {
      FoundIn(a, mark, b, entity);
    }
  }

  lemma SuffixIff(entity: string, suffix: string, before: string)
    ensures CutSuffix(entity, suffix) == Some(before) <==> entity == before + suffix
  {
  }

  lemma NotBoth(a: string, b: string)
    ensures a + ".build" != b + ".runtime"
  {
    assert (a + ".build")[|a| + 5] == 'd' && (b + ".runtime")[|b| + 7] == 'e';
  }

  /** A ref is looked up as a target exactly if it denotes it. */
  lemma DispatchIff(entity: string, target: Target)
    ensures Dispatch(entity) == Some(target) <==> Denotes(entity, target)
  {
    ProvisionIff(entity);
    forall key
      ensures ParseToolchainRef(entity) == Some(key) <==> IsToolchain(entity, key)
    {
      ToolchainIff(entity, key);
    }
    PhasesIff(entity, target);
  }

  lemma PhasesIff(entity: string, target: Target)
    ensures match target
            case BuildOf(display) =>
              (CutSuffix(entity, ".build").Some? && ServiceNameOf(CutSuffix(entity, ".build").value) == Some(display))
              <==> exists before :: entity == before + ".build" && Shows(before, display)
            case RuntimeOf(display) =>
              (CutSuffix(entity, ".runtime").Some? && ServiceNameOf(CutSuffix(entity, ".runtime").value) == Some(display))
              <==> exists before :: entity == before + ".runtime" && Shows(before, display)
            case _ => true
    ensures CutSuffix(entity, ".build").None? || CutSuffix(entity, ".runtime").None?
  {
    if target.BuildOf? {
      PhaseIff(entity, ".build", target.display);
    } else if target.RuntimeOf? {
      PhaseIff(entity, ".runtime", target.display);
    }
    if CutSuffix(entity, ".build").Some? {
      SuffixIff(entity, ".build", CutSuffix(entity, ".build").value);
    }
    if CutSuffix(entity, ".build").Some? && CutSuffix(entity, ".runtime").Some? {
      SuffixIff(entity, ".runtime", CutSuffix(entity, ".runtime").value);
      NotBoth(CutSuffix(entity, ".build").value, CutSuffix(entity, ".runtime").value);
    }
  }

  lemma PhaseIff(entity: string, suffix: string, display: string)
    ensures (CutSuffix(entity, suffix).Some? && ServiceNameOf(CutSuffix(entity, suffix).value) == Some(display))
            <==> exists before :: entity == before + suffix && Shows(before, display)
  {
    if CutSuffix(entity, suffix).Some? {
      var before := CutSuffix(entity, suffix).value;
      SuffixIff(entity, suffix, before);
      ShownIff(before, display);
    }
    if before :| entity == before + suffix && Shows(before, display) {
      SuffixIff(entity, suffix, before);
    }
  }

  lemma ResolvedAt(ref: string) returns (entity: string)
    requires Resolve(ref).Some?
    ensures '@' !in Resolve(ref).value.state && ref == entity + "@" + Resolve(ref).value.state
    ensures Dispatch(entity) == Some(Resolve(ref).value.target)
  {
    var at := FindLast(ref, '@').value;
    FindLastIsLast(ref, '@', at);
    entity := ref[..at];
  }

  ghost predicate Refers(ref: string, entity: string, target: Target, state: string) {
    ref == entity + "@" + state && Denotes(entity, target)
  }

  lemma ResolvesBack(ref: string, entity: string, target: Target, state: string)
    requires '@' !in state && Refers(ref, entity, target, state)
    ensures Resolve(ref) == Some(Decoded(target, state))
  {
    DispatchIff(entity, target);
    ResolveSplits(entity, state);
  }

  /** A barrier ref is an entity, the last `@`, and a state. */
  lemma ResolvesIff(ref: string, target: Target, state: string)
    ensures Resolve(ref) == Some(Decoded(target, state)) <==>
            '@' !in state && exists entity :: Refers(ref, entity, target, state)
  {
    if Resolve(ref) == Some(Decoded(target, state)) {
      var entity := ResolvedAt(ref);
      DispatchIff(entity, target);
      assert Refers(ref, entity, target, state);
    }
    if '@' !in state {
      if entity :| Refers(ref, entity, target, state) {
        ResolvesBack(ref, entity, target, state);
      }
    }
  }

  // ---- what is written ----

  /** The refs zordon writes, spelled out. */
  lemma WrittenForms(mod: Module, toolchain: string, name: string, step: string, state: string)
    requires Proper(mod)
    ensures var lead := if mod.Default? then "" else Path(mod) + ".";
            && ServiceRef(Id(mod), toolchain, name) == lead + ("service." + toolchain + "." + name)
            && ProvisionRef(Id(mod), toolchain, name, step) == lead + ("service." + toolchain + "." + name + ".runtime.provision." + step)
            && ToolchainRef(Id(mod), toolchain) == lead + ("toolchain." + toolchain)
            && BarrierRef(name, state) == name + "@" + state
            && DisplayName(Id(mod), name) == (if mod.Default? then name else Id(mod) + "/" + name)
            && ToolchainKey(Id(mod), toolchain) == (if mod.Default? then toolchain else Id(mod) + "/" + toolchain)
  {
    IdIsDefault(mod);
    if !mod.Default? {
      ModulePathOf(mod);
      Leading(Path(mod), toolchain, name, step);
    }
    assert "" + ("service." + toolchain + "." + name) == "service." + toolchain + "." + name;
    assert "" + ("toolchain." + toolchain) == "toolchain." + toolchain;
    assert "" + ("service." + toolchain + "." + name + ".runtime.provision." + step) == "service." + toolchain + "." + name + ".runtime.provision." + step;
  }

  lemma Leading(path: string, toolchain: string, name: string, step: string)
    ensures path + ".service." + toolchain + "." + name == path + "." + ("service." + toolchain + "." + name)
    ensures path + ".service." + toolchain + "." + name + ".runtime.provision." + step
            == path + "." + ("service." + toolchain + "." + name + ".runtime.provision." + step)
    ensures path + ".toolchain." + toolchain == path + "." + ("toolchain." + toolchain)
  {
  }
}
