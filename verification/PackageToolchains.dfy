/** The toolchain each package of the stack runs with (internal/alphasfile/package_toolchain.go). */
module PackageToolchains {
  import opened Paths
  import opened Sorting
  import opened Wrappers

  /** `own` is the key of the package's own toolchain block; `importers` the packages among its needs,
      in order. */
  datatype Package = Package(active: bool, own: Option<string>, importers: seq<string>)

  /** A toolchain, and the package that declares it. Toolchains agree when their keys do. */
  datatype Pin = Pin(key: string, from: string)

  datatype Conflict = Conflict(pkg: string, importer: string, other: string)

  predicate Takes(pkgs: map<string, Package>, p: string) {
    p in pkgs && pkgs[p].active && pkgs[p].own.None?
  }

  /** Toolchains flow from a package to what it imports, unless that has a block of its own. */
  ghost function Feeds(pkgs: map<string, Package>): set<(string, string)> {
    set p, q | p in pkgs && Takes(pkgs, p) && q in pkgs[p].importers :: (q, p)
  }

  predicate Declares(pkgs: map<string, Package>, p: string, key: string) {
    p in pkgs && pkgs[p].active && pkgs[p].own == Some(key)
  }

  /** `q` declares `key`, and is `p` or reaches it through packages without a block. */
  ghost predicate Supplies(pkgs: map<string, Package>, q: string, p: string, key: string) {
    Declares(pkgs, q, key) && (q == p || Reaches(Feeds(pkgs), q, p))
  }

  ghost predicate Gets(pkgs: map<string, Package>, p: string, key: string) {
    exists q :: Supplies(pkgs, q, p, key)
  }

  lemma SuppliesOn(pkgs: map<string, Package>, owner: string, q: string, p: string, key: string)
    requires Supplies(pkgs, owner, q, key) && (q, p) in Feeds(pkgs)
    ensures Supplies(pkgs, owner, p, key) && Gets(pkgs, p, key)
  {
    Append(Feeds(pkgs), owner, q, p);
    assert Supplies(pkgs, owner, p, key);
  }

  /** What `p` has is what every importer with a toolchain has. */
  ghost predicate Agrees(pkgs: map<string, Package>, out: map<string, Pin>, p: string) {
    forall q :: (q, p) in Feeds(pkgs) && q in out ==> p in out && out[p].key == out[q].key
  }

  /** Each pin has a source, and what was passed on came from an importer. */
  ghost predicate Sound(pkgs: map<string, Package>, out: map<string, Pin>) {
    && (forall p :: p in out ==> p in pkgs && Supplies(pkgs, out[p].from, p, out[p].key))
    && (forall p, key :: Declares(pkgs, p, key) ==> p in out && out[p] == Pin(key, p))
    && (forall p :: p in out && Takes(pkgs, p) ==> exists q :: (q, p) in Feeds(pkgs) && q in out && out[q].key == out[p].key)
  }

  method Offer(pkgs: map<string, Package>, out: map<string, Pin>, p: string) returns (got: Result<Option<Pin>, Conflict>)
    requires Takes(pkgs, p)
    ensures got == Ok(None) ==> forall q :: q in pkgs[p].importers ==> q !in out
    ensures got.Ok? && got.value.Some? ==>
              && (exists q :: q in pkgs[p].importers && q in out && out[q] == got.value.value)
              && forall q :: q in pkgs[p].importers && q in out ==> out[q].key == got.value.value.key
    ensures got.Err? ==>
              var c := got.error;
              c.pkg == p && {c.importer, c.other} <= (set q | q in pkgs[p].importers && q in out) && out[c.importer].key != out[c.other].key
  {
    var pin: Option<Pin> := None;
    var first := "";
    var importers := pkgs[p].importers;
    for i := 0 to |importers|
      invariant pin.None? ==> forall q :: q in importers[..i] ==> q !in out
      invariant pin.Some? ==>
          && first in importers && first in out && out[first] == pin.value
          && forall q :: q in importers[..i] && q in out ==> out[q].key == pin.value.key
    {
      var q := importers[i];
      assert importers[..i + 1] == importers[..i] + [q];
      if q in out {
        if pin.None? {
          pin, first := Some(out[q]), q;
        } else if out[q].key != pin.value.key {
          return Err(Conflict(p, first, q));
        }
      }
    }
    assert importers[..|importers|] == importers;
    return Ok(pin);
  }

  ghost predicate OneEach(pkgs: map<string, Package>) {
    forall p, k, l :: Gets(pkgs, p, k) && Gets(pkgs, p, l) ==> k == l
  }

  /** Two importers of a package without a block bring it different toolchains. */
  ghost predicate Disagree(pkgs: map<string, Package>, c: Conflict) {
    && Takes(pkgs, c.pkg) && c.importer in pkgs[c.pkg].importers && c.other in pkgs[c.pkg].importers
    && exists k, l :: k != l && Gets(pkgs, c.importer, k) && Gets(pkgs, c.other, l) && Gets(pkgs, c.pkg, k) && Gets(pkgs, c.pkg, l)
  }

  ghost predicate Settled(pkgs: map<string, Package>, out: map<string, Pin>) {
    forall p :: Takes(pkgs, p) ==> Agrees(pkgs, out, p)
  }

  /** One round over all packages; toolchains are only ever added. */
  method Pass(pkgs: map<string, Package>, names: seq<string>, before: map<string, Pin>)
    returns (out: map<string, Pin>, clash: Option<Conflict>)
    requires Sound(pkgs, before) && forall p :: p in names <==> p in pkgs
    ensures Sound(pkgs, out) && before.Keys <= out.Keys
    ensures clash.None? && out == before ==> Settled(pkgs, out)
    ensures out == before || before.Keys < out.Keys
    ensures clash.Some? ==> Disagree(pkgs, clash.value)
  {
    out := before;
    for i := 0 to |names|
      invariant Sound(pkgs, out) && (out == before || before.Keys < out.Keys)
      invariant out == before ==> forall j :: 0 <= j < i && Takes(pkgs, names[j]) ==> Agrees(pkgs, out, names[j])
    {
      var p := names[i];
      assert p in names;
      if pkgs[p].active && pkgs[p].own.None? {
        var got := Offer(pkgs, out, p);
        if got.Err? {
          ConflictIsReal(pkgs, out, got.error);
          return out, Some(got.error);
        }
        if got.value.Some? && (p !in out || out[p].key != got.value.value.key) {
          AssignedOnce(pkgs, out, p, got.value.value);
          PassOn(pkgs, out, p, got.value.value);
          out := out[p := got.value.value];
        }
      }
    }
    return out, None;
  }

  /** Fails exactly when two different toolchains reach one package without a block, whatever the
      order of the importers; otherwise every package gets the one toolchain that reaches it, as some
      package that supplies it declares it. */
  method Resolve(pkgs: map<string, Package>) returns (r: Result<map<string, Pin>, Conflict>)
    ensures r.Ok? <==> OneEach(pkgs)
    ensures r.Ok? ==> forall p, key :: p in r.value && r.value[p].key == key <==> Gets(pkgs, p, key)
    ensures r.Ok? ==> forall p :: p in r.value ==> Supplies(pkgs, r.value[p].from, p, r.value[p].key)
    ensures r.Err? ==> Disagree(pkgs, r.error)
  {
    var out := map p | p in pkgs && pkgs[p].active && pkgs[p].own.Some? :: Pin(pkgs[p].own.value, p);
    Starts(pkgs, out);
    var names := SortedKeys(pkgs.Keys);
    var changed := true;
    while changed
      invariant Sound(pkgs, out)
      invariant !changed ==> Settled(pkgs, out)
      decreases |pkgs.Keys - out.Keys|, changed
    {
      var before := out;
      var clash;
      out, clash := Pass(pkgs, names, before);
      if clash.Some? {
        return Err(clash.value);
      }
      changed := out != before;
      if changed {
        LeftShrinks(pkgs, before, out);
      }
    }
    Finished(pkgs, out);
    return Ok(out);
  }

  lemma Starts(pkgs: map<string, Package>, out: map<string, Pin>)
    requires out == map p | p in pkgs && pkgs[p].active && pkgs[p].own.Some? :: Pin(pkgs[p].own.value, p)
    ensures Sound(pkgs, out)
  {
  }

  lemma Finished(pkgs: map<string, Package>, out: map<string, Pin>)
    requires Sound(pkgs, out) && Settled(pkgs, out)
    ensures OneEach(pkgs)
    ensures forall p, key :: p in out && out[p].key == key <==> Gets(pkgs, p, key)
  {
    forall p, key
      ensures p in out && out[p].key == key <==> Gets(pkgs, p, key)
    {
      if Gets(pkgs, p, key) {
        Complete(pkgs, out, p, key);
      }
    }
  }

  lemma LeftShrinks(pkgs: map<string, Package>, before: map<string, Pin>, out: map<string, Pin>)
    requires Sound(pkgs, out) && before.Keys < out.Keys
    ensures |pkgs.Keys - out.Keys| < |pkgs.Keys - before.Keys|
  {
    Shrinks(pkgs.Keys - out.Keys, pkgs.Keys - before.Keys);
  }

  /** A package never gets a second toolchain: the importer it has the first from still has it. */
  lemma AssignedOnce(pkgs: map<string, Package>, out: map<string, Pin>, p: string, pin: Pin)
    requires Sound(pkgs, out) && Takes(pkgs, p) && (p !in out || out[p].key != pin.key)
    requires forall q :: q in pkgs[p].importers && q in out ==> out[q].key == pin.key
    ensures p !in out
  {
  }

  lemma PassOn(pkgs: map<string, Package>, out: map<string, Pin>, p: string, pin: Pin)
    requires Sound(pkgs, out) && Takes(pkgs, p) && p !in out
    requires exists q :: q in pkgs[p].importers && q in out && out[q] == pin
    ensures Sound(pkgs, out[p := pin])
  {
    var q :| q in pkgs[p].importers && q in out && out[q] == pin;
    assert (q, p) in Feeds(pkgs);
    SuppliesOn(pkgs, pin.from, q, p, pin.key);
  }

  lemma ConflictIsReal(pkgs: map<string, Package>, out: map<string, Pin>, c: Conflict)
    requires Sound(pkgs, out) && Takes(pkgs, c.pkg)
    requires {c.importer, c.other} <= (set q | q in pkgs[c.pkg].importers && q in out) && out[c.importer].key != out[c.other].key
    ensures Disagree(pkgs, c)
  {
    assert (c.importer, c.pkg) in Feeds(pkgs) && (c.other, c.pkg) in Feeds(pkgs);
    assert c.importer in (set q | q in pkgs[c.pkg].importers && q in out) && c.other in (set q | q in pkgs[c.pkg].importers && q in out);
    assert Gets(pkgs, c.importer, out[c.importer].key) && Gets(pkgs, c.other, out[c.other].key);
    SuppliesOn(pkgs, out[c.importer].from, c.importer, c.pkg, out[c.importer].key);
    SuppliesOn(pkgs, out[c.other].from, c.other, c.pkg, out[c.other].key);
  }

  lemma Complete(pkgs: map<string, Package>, out: map<string, Pin>, p: string, key: string)
    requires Sound(pkgs, out) && Settled(pkgs, out) && Gets(pkgs, p, key)
    ensures p in out && out[p].key == key
  {
    var owner :| Supplies(pkgs, owner, p, key);
    var having := set q | q in out && out[q].key == key;
    forall x, y | x in having && (x, y) in Feeds(pkgs)
      ensures y in having
    {
      assert Agrees(pkgs, out, y);
    }
    if owner != p {
      StaysInside(Feeds(pkgs), having, owner, p);
    }
  }
}
