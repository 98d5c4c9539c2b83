/** Compiling a filter: and/or chains are flattened and sorted by cost, comparisons turned so that the
    field comes first (internal/logfilter/plan.go, internal/logfilter/logfilter.go). */
module FilterPlan {
  import opened Wrappers
  import opened FilterParser

  datatype Line = Line(raw: string, stream: string, service: string)

  /** A JSON field: its text, and its number if it is one. */
  datatype Json = Json(text: string, number: Option<real>)

  /** The libraries and scanners a filter relies on, as functions of their inputs. `matchesAt` says
      whether a match of the pattern starts at a position of the line. */
  datatype Library = Library(
    validRegex: string -> bool,
    matchesAt: (string, string, nat) -> bool,
    literalPrefix: string -> string,
    json: (string, string) -> Option<Json>,
    logfmt: (string, string) -> Option<string>,
    severity: string -> Option<int>,
    decimal: string -> real,
    rounded: int -> real)

  predicate Matches(lib: Library, pattern: string, raw: string) {
    exists i: nat :: i <= |raw| && lib.matchesAt(pattern, raw, i)
  }

  function Level(name: string): Option<int> {
    if name == "TRACE" then Some(0)
    else if name == "DEBUG" then Some(1)
    else if name == "INFO" then Some(2)
    else if name == "WARN" then Some(3)
    else if name == "ERROR" then Some(4)
    else if name == "FATAL" then Some(5)
    else None
  }

  predicate Anchored(pattern: string) {
    "^" <= pattern && '|' !in pattern
  }

  /** The leading `^` is repeated zero times, so it is not there. */
  predicate DropsCaret(pattern: string) {
    "^{0}" <= pattern || "^{0,0}" <= pattern
  }

  /** What the regexp package does with one pattern. Every match begins with the literal prefix. An
      anchored pattern with a literal prefix matches at the start of the line only, unless it drops its
      caret; then it does not look at what precedes a match. */
  ghost predicate Lawful(lib: Library, pattern: string) {
    && (forall raw: string, i: nat :: i <= |raw| && lib.matchesAt(pattern, raw, i) ==> lib.literalPrefix(pattern) <= raw[i..])
    && ("^" <= pattern && '|' !in pattern && lib.literalPrefix(pattern) != "" ==>
          if DropsCaret(pattern) then
            forall c: char, raw: string, i: nat :: i <= |raw| && lib.matchesAt(pattern, raw, i) ==> lib.matchesAt(pattern, [c] + raw, i + 1)
          else
            forall raw: string, i: nat :: i <= |raw| && lib.matchesAt(pattern, raw, i) ==> i == 0)
  }

  /** The bytes a line must start with to match, if the pattern gives any. */
  function Gate(lib: Library, pattern: string): Option<string> {
    if !Anchored(pattern) || lib.literalPrefix(pattern) == "" then None else Some(lib.literalPrefix(pattern))
  }

  predicate Contains(raw: string, sub: string) {
    exists i :: 0 <= i <= |raw| && IsAt(raw, i, sub)
  }

  predicate IsAt(raw: string, i: int, sub: string) {
    0 <= i <= |raw| - |sub| && raw[i..i + |sub|] == sub
  }

  predicate HasSuffix(raw: string, sub: string) {
    |sub| <= |raw| && raw[|raw| - |sub|..] == sub
  }

  datatype Mode = Anywhere | AtStart | AtEnd

  predicate Finds(mode: Mode, raw: string, sub: string) {
    match mode
    case Anywhere => Contains(raw, sub)
    case AtStart => sub <= raw
    case AtEnd => HasSuffix(raw, sub)
  }

  predicate CompareInts(a: int, op: Op, b: int) {
    match op
    case Eq => a == b
    case Ne => a != b
    case Lt => a < b
    case Le => a <= b
    case Gt => a > b
    case Ge => a >= b
    case _ => false
  }

  predicate CompareReals(a: real, op: Op, b: real) {
    match op
    case Eq => a == b
    case Ne => a != b
    case Lt => a < b
    case Le => a <= b
    case Gt => a > b
    case Ge => a >= b
    case _ => false
  }

  predicate CompareTexts(a: string, op: Op, b: string) {
    if op.Ne? then a != b else a == b
  }

  // ---- predicates ----

  datatype Pred =
    | Substr(mode: Mode, sub: string)
    | Regex(pattern: string)
    | Meta(service: bool, want: string, ne: bool)
    | Severity(op: Op, threshold: int)
    | JsonStr(path: string, op: Op, want: string)
    | JsonNum(path: string, op: Op, number: real)
    | Logfmt(key: string, op: Op, want: string)
    | Const(on: bool)
    | AllOf(kids: seq<Pred>, cost: nat)
    | AnyOf(kids: seq<Pred>, cost: nat)
    | Negation(x: Pred)

  function Cost(p: Pred): nat {
    match p
    case Substr(_, _) => 1
    case Regex(_) => 400
    case Meta(_, _, _) => 0
    case Severity(_, _) => 60
    case JsonStr(_, _, _) => 75
    case JsonNum(_, _, _) => 75
    case Logfmt(_, _, _) => 60
    case Const(_) => 0
    case AllOf(_, c) => c
    case AnyOf(_, c) => c
    case Negation(x) => Cost(x)
  }

  predicate Match(lib: Library, p: Pred, line: Line)
    decreases p, 0
  {
    match p
    case Substr(mode, sub) => Finds(mode, line.raw, sub)
    case Regex(pattern) =>
      if Gate(lib, pattern).Some? && !(Gate(lib, pattern).value <= line.raw) then false
      else Matches(lib, pattern, line.raw)
    case Meta(service, want, ne) =>
      var got := if service then line.service else line.stream;
      if ne then got != want else got == want
    case Severity(op, threshold) =>
      lib.severity(line.raw).Some? && CompareInts(lib.severity(line.raw).value, op, threshold)
    case JsonStr(path, op, want) =>
      var found := lib.json(line.raw, path);
      found.Some? && CompareTexts(found.value.text, op, want)
    case JsonNum(path, op, want) =>
      var found := lib.json(line.raw, path);
      found.Some? && found.value.number.Some? && CompareReals(found.value.number.value, op, want)
    case Logfmt(key, op, want) =>
      var found := lib.logfmt(line.raw, key);
      found.Some? && CompareTexts(found.value, op, want)
    case Const(on) => on
    case AllOf(kids, _) => MatchAll(lib, kids, line)
    case AnyOf(kids, _) => MatchAny(lib, kids, line)
    case Negation(x) => !Match(lib, x, line)
  }

  /** In order, up to the first that does not match. */
  predicate MatchAll(lib: Library, kids: seq<Pred>, line: Line)
    decreases kids, 1
  {
    kids == [] || (Match(lib, kids[0], line) && MatchAll(lib, kids[1..], line))
  }

  /** In order, up to the first that matches. */
  predicate MatchAny(lib: Library, kids: seq<Pred>, line: Line)
    decreases kids, 1
  {
    kids != [] && (Match(lib, kids[0], line) || MatchAny(lib, kids[1..], line))
  }

  // ---- sorting by cost ----

  /** After everything that costs no more, before everything that costs more. */
  function Place(s: seq<Pred>, p: Pred): seq<Pred> {
    if s == [] then [p]
    else if Cost(s[|s| - 1]) <= Cost(p) then s + [p]
    else Place(s[..|s| - 1], p) + [s[|s| - 1]]
  }

  function ByCost(s: seq<Pred>): seq<Pred> {
    if s == [] then [] else Place(ByCost(s[..|s| - 1]), s[|s| - 1])
  }

  function Total(s: seq<Pred>): nat {
    if s == [] then 0 else Total(s[..|s| - 1]) + Cost(s[|s| - 1])
  }

  ghost predicate Ordered(s: seq<Pred>) {
    forall i, j :: 0 <= i < j < |s| ==> Cost(s[i]) <= Cost(s[j])
  }

  /** The predicates of one cost, in their order. */
  function Costing(s: seq<Pred>, c: nat): seq<Pred> {
    if s == [] then [] else Costing(s[..|s| - 1], c) + if Cost(s[|s| - 1]) == c then [s[|s| - 1]] else []
  }

  lemma {:induction false} PlaceMembers(s: seq<Pred>, p: Pred)
    ensures forall q :: q in Place(s, p) <==> q == p || q in s
  {
    if s != [] {
      assert s == s[..|s| - 1] + [s[|s| - 1]];
      if Cost(s[|s| - 1]) > Cost(p) {
        PlaceMembers(s[..|s| - 1], p);
      }
    }
  }

  ghost predicate AtMost(s: seq<Pred>, cost: nat) {
    forall q :: q in s ==> Cost(q) <= cost
  }

  lemma LastIsMost(s: seq<Pred>, n: nat)
    requires Ordered(s) && n < |s|
    ensures Ordered(s[..n]) && AtMost(s[..n], Cost(s[n]))
  {
  }

  lemma ExtendsOrder(s: seq<Pred>, last: Pred)
    requires Ordered(s) && AtMost(s, Cost(last))
    ensures Ordered(s + [last])
  {
    forall i | 0 <= i < |s|
      ensures Cost(s[i]) <= Cost(last)
    {
      assert s[i] in s;
    }
  }

  lemma {:induction false} PlaceOrdered(s: seq<Pred>, p: Pred)
    requires Ordered(s)
    ensures Ordered(Place(s, p))
  {
    if s != [] {
      var n := |s| - 1;
      LastIsMost(s, n);
      if Cost(s[n]) > Cost(p) {
        PlaceOrdered(s[..n], p);
        PlaceMembers(s[..n], p);
        ExtendsOrder(Place(s[..n], p), s[n]);
      }
    }
  }

  lemma {:induction false} PlaceAdds(s: seq<Pred>, p: Pred)
    ensures multiset(Place(s, p)) == multiset(s) + multiset{p}
    ensures Total(Place(s, p)) == Total(s) + Cost(p)
  {
    if s != [] {
      var n := |s| - 1;
      assert s == s[..n] + [s[n]];
      if Cost(s[n]) <= Cost(p) {
        assert (s + [p])[..|s|] == s;
      } else {
        PlaceAdds(s[..n], p);
        var placed := Place(s[..n], p);
        assert (placed + [s[n]])[..|placed|] == placed;
      }
    }
  }

  lemma CostingLast(s: seq<Pred>, p: Pred, c: nat)
    ensures Costing(s + [p], c) == Costing(s, c) + if Cost(p) == c then [p] else []
  {
    assert (s + [p])[..|s|] == s;
  }

  lemma {:induction false} PlaceIsStable(s: seq<Pred>, p: Pred, c: nat)
    requires Ordered(s)
    ensures Costing(Place(s, p), c) == Costing(s, c) + if Cost(p) == c then [p] else []
  {
    if s == [] || Cost(s[|s| - 1]) <= Cost(p) {
      assert Place(s, p) == s + [p];
      CostingLast(s, p, c);
    } else {
      var last := s[|s| - 1];
      PlaceIsStable(s[..|s| - 1], p, c);
      CostingLast(Place(s[..|s| - 1], p), last, c);
    }
  }

  /** A stable sort: a permutation in order of cost that keeps the order within each cost. */
  lemma {:induction false} ByCostSorts(s: seq<Pred>, c: nat)
    ensures Ordered(ByCost(s)) && multiset(ByCost(s)) == multiset(s)
    ensures Costing(ByCost(s), c) == Costing(s, c)
    ensures Total(ByCost(s)) == Total(s)
  {
    if s != [] {
      var n := |s| - 1;
      assert s == s[..n] + [s[n]];
      ByCostSorts(s[..n], c);
      PlaceOrdered(ByCost(s[..n]), s[n]);
      PlaceAdds(ByCost(s[..n]), s[n]);
      PlaceIsStable(ByCost(s[..n]), s[n], c);
    }
  }

  lemma {:induction false} ByCostMembers(s: seq<Pred>)
    ensures forall p :: p in ByCost(s) <==> p in s
  {
    if s != [] {
      var n := |s| - 1;
      assert s == s[..n] + [s[n]];
      ByCostMembers(s[..n]);
      PlaceMembers(ByCost(s[..n]), s[n]);
    }
  }

  /** Sorts in place, and adds up the costs. */
  method SortByCost(kids: array<Pred>) returns (total: nat)
    modifies kids
    ensures kids[..] == ByCost(old(kids[..])) && total == Total(kids[..])
  {
    SortStable(kids);
    total := AddUp(kids);
  }

  lemma NextPlaced(before: seq<Pred>, i: nat)
    requires i < |before|
    ensures ByCost(before[..i + 1]) == Place(ByCost(before[..i]), before[i])
    ensures |ByCost(before[..i])| == i && |Place(ByCost(before[..i]), before[i])| == i + 1
  {
    assert before[..i + 1][..i] == before[..i];
    PlaceLength(ByCost(before[..i]), before[i]);
    ByCostLength(before[..i]);
  }

  method SortStable(kids: array<Pred>)
    modifies kids
    ensures kids[..] == ByCost(old(kids[..]))
  {
    ghost var before := kids[..];
    for i := 0 to kids.Length
      invariant kids[..i] == ByCost(before[..i]) && kids[i..] == before[i..]
    {
      assert kids[i] == kids[i..][0] && before[i..][1..] == before[i + 1..] && kids[i..][1..] == kids[i + 1..];
      NextPlaced(before, i);
      SiftDown(kids, i);
      assert kids[..][..i + 1] == kids[..i + 1] && kids[..][i + 1..] == kids[i + 1..];
    }
    assert kids[..kids.Length] == kids[..] && before[..kids.Length] == before;
  }

  method AddUp(kids: array<Pred>) returns (total: nat)
    ensures total == Total(kids[..])
  {
    total := 0;
    for i := 0 to kids.Length
      invariant total == Total(kids[..i])
    {
      assert kids[..i + 1][..i] == kids[..i];
      total := total + Cost(kids[i]);
    }
    assert kids[..kids.Length] == kids[..];
  }

  method SiftDown(kids: array<Pred>, i: nat)
    requires i < kids.Length
    modifies kids
    ensures kids[..] == Place(old(kids[..i]), old(kids[i])) + old(kids[i + 1..])
  {
    ghost var sorted, p, rest := kids[..i], kids[i], kids[i + 1..];
    var j := i;
    assert sorted[..i] == sorted && sorted[i..] == [];
    while j > 0 && Cost(kids[j - 1]) > Cost(kids[j])
      invariant 0 <= j <= i && kids[..] == sorted[..j] + [p] + sorted[j..] + rest
      invariant Place(sorted, p) == Place(sorted[..j], p) + sorted[j..]
    {
      ghost var was := kids[..];
      assert was[j - 1] == sorted[j - 1] && was[j] == p;
      PlaceStep(sorted, p, j);
      Swapped(sorted, p, j, rest);
      kids[j - 1], kids[j] := kids[j], kids[j - 1];
      assert kids[..] == was[j - 1 := p][j := sorted[j - 1]];
      j := j - 1;
    }
    assert j > 0 ==> kids[..][j - 1] == sorted[j - 1];
    assert kids[..][j] == p;
    PlaceStops(sorted, p, j);
  }

  lemma Swapped(s: seq<Pred>, p: Pred, j: nat, rest: seq<Pred>)
    requires 0 < j <= |s|
    ensures (s[..j] + [p] + s[j..] + rest)[j - 1 := p][j := s[j - 1]] == s[..j - 1] + [p] + s[j - 1..] + rest
  {
  }

  lemma {:induction false} PlaceLength(s: seq<Pred>, p: Pred)
    ensures |Place(s, p)| == |s| + 1
  {
    if s != [] {
      PlaceLength(s[..|s| - 1], p);
    }
  }

  lemma {:induction false} ByCostLength(s: seq<Pred>)
    ensures |ByCost(s)| == |s|
  {
    if s != [] {
      ByCostLength(s[..|s| - 1]);
      PlaceLength(ByCost(s[..|s| - 1]), s[|s| - 1]);
    }
  }

  lemma PlaceStep(s: seq<Pred>, p: Pred, j: nat)
    requires 0 < j <= |s| && Cost(s[j - 1]) > Cost(p)
    ensures Place(s[..j], p) + s[j..] == Place(s[..j - 1], p) + s[j - 1..]
  {
    assert s[..j][..j - 1] == s[..j - 1] && s[j - 1..] == [s[j - 1]] + s[j..];
  }

  lemma PlaceStops(s: seq<Pred>, p: Pred, j: nat)
    requires j <= |s| && (j == 0 || Cost(s[j - 1]) <= Cost(p))
    ensures Place(s[..j], p) == s[..j] + [p]
  {
  }
}
