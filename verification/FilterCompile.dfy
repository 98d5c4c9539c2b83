/** What a compiled filter means: for every line, what the tree says when read from left to right
    (internal/logfilter/plan.go, internal/logfilter/logfilter.go). */
module FilterCompile {
  import opened Wrappers
  import opened FilterLexer
  import opened FilterParser
  import opened FilterPlan
  import opened FilterMeaning

  datatype PlanError =
    | NeedsComparison | NotACondition | UnknownFunction | BadArguments | BadPattern
    | TwoFields | NoField | BadOperator | BadLiteral
    | BadSyntax(error: SyntaxError)

  datatype Field = Stream | Service | SeverityOf | JsonAt(path: string) | LogfmtAt(key: string)

  // ---- the arguments of calls ----

  predicate TakesLine(args: seq<Node>) {
    |args| == 1 && args[0] == Ident("line")
  }

  predicate TakesLineAndText(args: seq<Node>) {
    |args| == 2 && args[0] == Ident("line") && args[1].Str?
  }

  function Classify(n: Node): Result<Option<Field>, PlanError> {
    if n == Ident("stream") then Ok(Some(Stream))
    else if n == Ident("service") then Ok(Some(Service))
    else if n.Call? && n.name == "severity" then
      if TakesLine(n.args) then Ok(Some(SeverityOf)) else Err(BadArguments)
    else if n.Call? && n.name == "json" then
      if TakesLineAndText(n.args) then Ok(Some(JsonAt(n.args[1].text))) else Err(BadArguments)
    else if n.Call? && n.name == "logfmt" then
      if TakesLineAndText(n.args) then Ok(Some(LogfmtAt(n.args[1].text))) else Err(BadArguments)
    else Ok(None)
  }

  function Flip(op: Op): Op {
    match op
    case Lt => Gt
    case Le => Ge
    case Gt => Lt
    case Ge => Le
    case _ => op
  }

  function Number(lib: Library, n: Node): Option<real> {
    match n
    case Int(v) => Some(lib.rounded(v))
    case Float(s) => Some(lib.decimal(s))
    case _ => None
  }

  function Threshold(n: Node): Option<int> {
    match n
    case Int(v) => Some(v)
    case Ident(name) => Level(name)
    case _ => None
  }

  // ---- the compiler ----

  function BuildCompare(lib: Library, f: Field, op: Op, lit: Node): Result<Pred, PlanError> {
    var equality := op.Eq? || op.Ne?;
    match f
    case Stream => if !equality then Err(BadOperator) else if lit.Str? then Ok(Meta(false, lit.text, op.Ne?)) else Err(BadLiteral)
    case Service => if !equality then Err(BadOperator) else if lit.Str? then Ok(Meta(true, lit.text, op.Ne?)) else Err(BadLiteral)
    case SeverityOf => if Threshold(lit).Some? then Ok(Severity(op, Threshold(lit).value)) else Err(BadLiteral)
    case LogfmtAt(key) => if !equality then Err(BadOperator) else if lit.Str? then Ok(Logfmt(key, op, lit.text)) else Err(BadLiteral)
    case JsonAt(path) =>
      if lit.Str? then (if !equality then Err(BadOperator) else Ok(JsonStr(path, op, lit.text)))
      else if Number(lib, lit).Some? then Ok(JsonNum(path, op, Number(lib, lit).value))
      else Err(BadLiteral)
  }

  function CompileCompare(lib: Library, op: Op, l: Node, r: Node): Result<Pred, PlanError> {
    match (Classify(l), Classify(r))
    case (Err(e), _) => Err(e)
    case (_, Err(e)) => Err(e)
    case (Ok(Some(f)), Ok(None)) => BuildCompare(lib, f, op, r)
    case (Ok(None), Ok(Some(f))) => BuildCompare(lib, f, Flip(op), l)
    case (Ok(Some(_)), Ok(Some(_))) => Err(TwoFields)
    case (Ok(None), Ok(None)) => Err(NoField)
  }

  function CompileCall(lib: Library, name: string, args: seq<Node>): Result<Pred, PlanError> {
    if name == "contains" || name == "hasPrefix" || name == "hasSuffix" then
      if !TakesLineAndText(args) then Err(BadArguments)
      else Ok(Substr(if name == "hasPrefix" then AtStart else if name == "hasSuffix" then AtEnd else Anywhere, args[1].text))
    else if name == "matches" then
      if !TakesLineAndText(args) then Err(BadArguments)
      else if !lib.validRegex(args[1].text) then Err(BadPattern)
      else Ok(Regex(args[1].text))
    else if name == "json" || name == "logfmt" || name == "severity" then Err(NeedsComparison)
    else Err(UnknownFunction)
  }

  function Size(n: Node): nat {
    match n
    case Bin(_, l, r) => 1 + Size(l) + Size(r)
    case Not(x) => 1 + Size(x)
    case _ => 1
  }

  predicate Chains(op: Op, n: Node) {
    n.Bin? && n.op == op && (op.Or? || op.And?)
  }

  /** The operands of a chain, however it is nested. */
  function Collect(op: Op, n: Node): (operands: seq<Node>)
    ensures operands != [] && forall k :: k in operands ==> Size(k) <= Size(n)
    ensures Chains(op, n) ==> forall k :: k in operands ==> Size(k) < Size(n)
  {
    if Chains(op, n) then Collect(op, n.l) + Collect(op, n.r) else [n]
  }

  function Compile(lib: Library, n: Node): Result<Pred, PlanError>
    decreases Size(n), 1, 0
  {
    match n
    case Bin(op, l, r) =>
      if op.Or? || op.And? then
        match CompileAll(lib, Collect(op, n), Size(n))
        case Err(e) => Err(e)
        case Ok(kids) =>
          var sorted := ByCost(kids);
          Ok(if op.And? then AllOf(sorted, Total(sorted)) else AnyOf(sorted, Total(sorted)))
      else CompileCompare(lib, op, l, r)
    case Not(x) =>
      (match Compile(lib, x)
       case Err(e) => Err(e)
       case Ok(p) => Ok(Negation(p)))
    case Call(name, args) => CompileCall(lib, name, args)
    case Bool(on) => Ok(Const(on))
    case Ident(_) => Err(NeedsComparison)
    case _ => Err(NotACondition)
  }

  function CompileAll(lib: Library, ns: seq<Node>, limit: nat): (r: Result<seq<Pred>, PlanError>)
    requires forall k :: k in ns ==> Size(k) < limit
    ensures r.Ok? ==> |r.value| == |ns|
    decreases limit, 0, |ns|
  {
    if ns == [] then Ok([])
    else
      match Compile(lib, ns[0])
      case Err(e) => Err(e)
      case Ok(p) =>
        match CompileAll(lib, ns[1..], limit)
        case Err(e) => Err(e)
        case Ok(rest) => Ok([p] + rest)
  }

  // ---- compiling keeps the meaning ----

  lemma FlipTurns(a: int, op: Op, b: int, x: real, y: real)
    ensures CompareInts(a, Flip(op), b) == CompareInts(b, op, a)
    ensures CompareReals(x, Flip(op), y) == CompareReals(y, op, x)
  {
  }

  lemma ComparesAsHeld(a: int, op: Op, b: int, x: real, y: real, v: string, w: string)
    ensures !op.Or? && !op.And? ==> CompareInts(a, op, b) == Holds(op, ByInt(a, b)) && CompareReals(x, op, y) == Holds(op, ByReal(x, y))
    ensures op.Eq? || op.Ne? ==> CompareTexts(v, op, w) == Holds(op, Texts(v == w))
  {
  }

  lemma TextFieldMeans(lib: Library, f: Field, op: Op, l: Node, r: Node, fieldFirst: bool, line: Line)
    requires f.Stream? || f.Service? || f.LogfmtAt?
    requires var lit := if fieldFirst then r else l; var o := if fieldFirst then op else Flip(op);
             BuildCompare(lib, f, o, lit).Ok? && Classify(lit) == Ok(None)
    requires Classify(if fieldFirst then l else r) == Ok(Some(f))
    ensures var lit := if fieldFirst then r else l; var o := if fieldFirst then op else Flip(op);
            Match(lib, BuildCompare(lib, f, o, lit).value, line) == Holds(op, Relate(lib, Read(lib, l, line), Read(lib, r, line)))
  {
  }

  lemma SeverityMeans(lib: Library, op: Op, l: Node, r: Node, fieldFirst: bool, line: Line)
    requires !op.Or? && !op.And?
    requires var lit := if fieldFirst then r else l; var o := if fieldFirst then op else Flip(op);
             BuildCompare(lib, SeverityOf, o, lit).Ok? && Classify(lit) == Ok(None)
    requires Classify(if fieldFirst then l else r) == Ok(Some(SeverityOf))
    ensures var lit := if fieldFirst then r else l; var o := if fieldFirst then op else Flip(op);
            Match(lib, BuildCompare(lib, SeverityOf, o, lit).value, line) == Holds(op, Relate(lib, Read(lib, l, line), Read(lib, r, line)))
  {
    var lit := if fieldFirst then r else l;
    ThresholdRead(lib, lit, line);
    if lib.severity(line.raw).Some? {
      var got, want := lib.severity(line.raw).value, Threshold(lit).value;
      FlipTurns(got, op, want, 0.0, 0.0);
      ComparesAsHeld(got, op, want, 0.0, 0.0, "", "");
      ComparesAsHeld(want, op, got, 0.0, 0.0, "", "");
    }
  }

  lemma ThresholdRead(lib: Library, lit: Node, line: Line)
    requires Threshold(lit).Some? && Classify(lit) == Ok(None)
    ensures Read(lib, lit, line) == if lit.Int? then Whole(Threshold(lit).value) else Rank(Threshold(lit).value)
  {
  }

  lemma JsonMeans(lib: Library, path: string, op: Op, l: Node, r: Node, fieldFirst: bool, line: Line)
    requires !op.Or? && !op.And?
    requires var lit := if fieldFirst then r else l; var o := if fieldFirst then op else Flip(op);
             BuildCompare(lib, JsonAt(path), o, lit).Ok? && Classify(lit) == Ok(None)
    requires Classify(if fieldFirst then l else r) == Ok(Some(JsonAt(path)))
    ensures var lit := if fieldFirst then r else l; var o := if fieldFirst then op else Flip(op);
            Match(lib, BuildCompare(lib, JsonAt(path), o, lit).value, line) == Holds(op, Relate(lib, Read(lib, l, line), Read(lib, r, line)))
  {
    var lit := if fieldFirst then r else l;
    if Number(lib, lit).Some? && lib.json(line.raw, path).Some? && lib.json(line.raw, path).value.number.Some? {
      var got, want := lib.json(line.raw, path).value.number.value, Number(lib, lit).value;
      FlipTurns(0, op, 0, got, want);
      ComparesAsHeld(0, op, 0, got, want, "", "");
      ComparesAsHeld(0, op, 0, want, got, "", "");
    }
  }

  lemma CompareMeans(lib: Library, n: Node, line: Line)
    requires n.Bin? && !n.op.Or? && !n.op.And? && Compile(lib, n).Ok?
    ensures Match(lib, Compile(lib, n).value, line) == Says(lib, n, line)
  {
    var first := Classify(n.l) != Ok(None);
    var f := if first then Classify(n.l).value.value else Classify(n.r).value.value;
    if f.SeverityOf? {
      SeverityMeans(lib, n.op, n.l, n.r, first, line);
    } else if f.JsonAt? {
      JsonMeans(lib, f.path, n.op, n.l, n.r, first, line);
    } else {
      TextFieldMeans(lib, f, n.op, n.l, n.r, first, line);
    }
  }

  lemma ContainsMeans(raw: string, text: string)
    ensures Contains(raw, text) <==> Within(raw, text)
  {
    if Contains(raw, text) {
      var i :| 0 <= i <= |raw| && IsAt(raw, i, text);
      assert raw == raw[..i] + text + raw[i + |text|..];
    }
    if a, b :| raw == a + text + b {
      assert raw[|a|..|a| + |text|] == text;
      assert IsAt(raw, |a|, text);
    }
  }

  lemma PrefixMeans(raw: string, text: string)
    ensures text <= raw <==> exists b :: raw == text + b
  {
    if text <= raw {
      assert raw == text + raw[|text|..];
    }
  }

  lemma SuffixMeans(raw: string, text: string)
    ensures HasSuffix(raw, text) <==> exists a :: raw == a + text
  {
    if HasSuffix(raw, text) {
      var a := BeforeSuffix(raw, text);
      assert raw == a + text;
    } else if a :| raw == a + text {
      EndsIn(a, text);
    }
  }

  lemma BeforeSuffix(raw: string, text: string) returns (a: string)
    requires HasSuffix(raw, text)
    ensures raw == a + text
  {
    a := raw[..|raw| - |text|];
    assert raw == a + raw[|raw| - |text|..];
  }

  lemma EndsIn(a: string, text: string)
    ensures HasSuffix(a + text, text)
  {
    assert |a + text| - |text| == |a| && (a + text)[|a|..] == text;
  }

  // ---- the gate before the regex engine ----

  /** No line matches without passing the gate. */
  ghost predicate GateIsSound(lib: Library, pattern: string) {
    forall raw :: Matches(lib, pattern, raw) && Gate(lib, pattern).Some? ==> Gate(lib, pattern).value <= raw
  }

  /** The gate may only reject too much: what passes it is what the pattern matches. */
  lemma CallMeans(lib: Library, name: string, args: seq<Node>, line: Line)
    requires CompileCall(lib, name, args).Ok?
    ensures Match(lib, CompileCall(lib, name, args).value, line) ==> SaysCall(lib, name, args, line)
    ensures name != "matches" || GateIsSound(lib, args[1].text) ==>
              Match(lib, CompileCall(lib, name, args).value, line) == SaysCall(lib, name, args, line)
  {
    var text := args[1].text;
    if name == "contains" {
      ContainsMeans(line.raw, text);
    } else if name == "hasPrefix" {
      PrefixMeans(line.raw, text);
    } else if name == "hasSuffix" {
      SuffixMeans(line.raw, text);
    } else {
      MatchesMeans(lib, text, line.raw);
    }
  }

  lemma MatchesMeans(lib: Library, pattern: string, raw: string)
    ensures Matches(lib, pattern, raw) <==> Occurs(lib, pattern, raw)
  {
  }

  /** A line on which the gate loses a match: any match moved one place to the right, behind a character
      the prefix does not start with. */
  lemma MovedMatch(lib: Library, pattern: string, raw: string) returns (moved: string)
    requires Lawful(lib, pattern) && DropsCaret(pattern) && Gate(lib, pattern).Some? && Matches(lib, pattern, raw)
    ensures Matches(lib, pattern, moved) && !(Gate(lib, pattern).value <= moved)
  {
    var i: nat :| i <= |raw| && lib.matchesAt(pattern, raw, i);
    var c := if Gate(lib, pattern).value[0] == 'a' then 'b' else 'a';
    moved := [c] + raw;
    assert lib.matchesAt(pattern, moved, i + 1);
    assert moved[0] == c;
  }

  /** The pattern drops its caret, has a literal prefix to gate with, and matches anything at all. */
  ghost predicate LosesMatches(lib: Library, pattern: string) {
    DropsCaret(pattern) && Gate(lib, pattern).Some? && exists raw :: Matches(lib, pattern, raw)
  }

  lemma GateIsSoundIff(lib: Library, pattern: string)
    requires Lawful(lib, pattern)
    ensures GateIsSound(lib, pattern) <==> !LosesMatches(lib, pattern)
  {
    if DropsCaret(pattern) && Gate(lib, pattern).Some? {
      if raw :| Matches(lib, pattern, raw) {
        var moved := MovedMatch(lib, pattern, raw);
      }
    }
    if Gate(lib, pattern).Some? && !DropsCaret(pattern) {
      forall raw | Matches(lib, pattern, raw)
        ensures Gate(lib, pattern).value <= raw
      {
        var i: nat :| i <= |raw| && lib.matchesAt(pattern, raw, i);
        assert raw[0..] == raw;
      }
    }
  }

  /** A compiled `matches` call says what the call says of every line, exactly under that condition. */
  lemma MatchesCallMeansIff(lib: Library, args: seq<Node>)
    requires CompileCall(lib, "matches", args).Ok? && Lawful(lib, args[1].text)
    ensures (forall line :: Match(lib, CompileCall(lib, "matches", args).value, line) == SaysCall(lib, "matches", args, line))
            <==> !LosesMatches(lib, args[1].text)
  {
    var pattern := args[1].text;
    var p := CompileCall(lib, "matches", args).value;
    GateIsSoundIff(lib, pattern);
    if GateIsSound(lib, pattern) {
      forall line
        ensures Match(lib, p, line) == SaysCall(lib, "matches", args, line)
      {
        CallMeans(lib, "matches", args, line);
      }
    } else {
      var raw :| Matches(lib, pattern, raw) && Gate(lib, pattern).Some? && !(Gate(lib, pattern).value <= raw);
      var line := Line(raw, "", "");
      assert !Match(lib, p, line) && SaysCall(lib, "matches", args, line);
    }
  }

  /** `matches(line, "^{0}foo")` holds of the line `xfoo`, and the compiled filter keeps it. */
  lemma DroppedCaretLosesMatch(lib: Library)
    requires var pattern := "^{0}foo";
             && lib.validRegex(pattern) && lib.literalPrefix(pattern) == "foo"
             && Lawful(lib, pattern) && lib.matchesAt(pattern, "foo", 0)
    ensures var n, line := Call("matches", [Ident("line"), Str("^{0}foo")]), Line("xfoo", "stdout", "web");
            Compile(lib, n).Ok? && Says(lib, n, line) && !Match(lib, Compile(lib, n).value, line)
  {
    var pattern := "^{0}foo";
    assert pattern[..4] == "^{0}";
    assert Anchored(pattern) && DropsCaret(pattern);
    assert ['x'] + "foo" == "xfoo";
    assert lib.matchesAt(pattern, ['x'] + "foo", 0 + 1);
    assert Matches(lib, pattern, "xfoo");
    assert "xfoo"[0] != "foo"[0];
  }

  /** The patterns a tree hands to the regex engine. */
  function Patterns(n: Node): set<string> {
    match n
    case Bin(op, l, r) => if op.Or? || op.And? then Patterns(l) + Patterns(r) else {}
    case Not(x) => Patterns(x)
    case Call(name, args) => if name == "matches" && |args| == 2 && args[0] == Ident("line") && args[1].Str? then {args[1].text} else {}
    case _ => {}
  }

  ghost predicate SoundIn(lib: Library, n: Node) {
    forall p :: p in Patterns(n) ==> GateIsSound(lib, p)
  }

  /** What a caller can check: no pattern of the filter drops its caret. */
  predicate KeepsCarets(n: Node) {
    forall p :: p in Patterns(n) ==> !DropsCaret(p)
  }

  lemma SoundInIff(lib: Library, n: Node)
    requires forall p :: p in Patterns(n) ==> Lawful(lib, p)
    ensures SoundIn(lib, n) <==> forall p :: p in Patterns(n) ==> !LosesMatches(lib, p)
    ensures KeepsCarets(n) ==> SoundIn(lib, n)
  {
    forall p | p in Patterns(n)
      ensures GateIsSound(lib, p) <==> !LosesMatches(lib, p)
    {
      GateIsSoundIff(lib, p);
    }
  }

  lemma {:induction false} SoundInOperands(lib: Library, op: Op, n: Node)
    requires SoundIn(lib, n) && (op.Or? || op.And?)
    ensures forall k :: k in Collect(op, n) ==> SoundIn(lib, k)
  {
    if Chains(op, n) {
      SoundInOperands(lib, op, n.l);
      SoundInOperands(lib, op, n.r);
    }
  }

  lemma {:induction false} MatchAllMeans(lib: Library, kids: seq<Pred>, line: Line)
    ensures MatchAll(lib, kids, line) <==> forall p :: p in kids ==> Match(lib, p, line)
    ensures MatchAny(lib, kids, line) <==> exists p :: p in kids && Match(lib, p, line)
  {
    if kids != [] {
      MatchAllMeans(lib, kids[1..], line);
      assert forall p :: p in kids <==> p == kids[0] || p in kids[1..];
      assert MatchAll(lib, kids, line) <==> Match(lib, kids[0], line) && MatchAll(lib, kids[1..], line);
      assert MatchAny(lib, kids, line) <==> Match(lib, kids[0], line) || MatchAny(lib, kids[1..], line);
      if p :| p in kids && Match(lib, p, line) {
        assert p == kids[0] || p in kids[1..];
      }
      if p :| p in kids && !Match(lib, p, line) {
        assert p == kids[0] || p in kids[1..];
      }
    }
  }

  lemma {:induction false} ChainMeans(lib: Library, op: Op, n: Node, line: Line)
    ensures op.And? ==> (Says(lib, n, line) <==> forall k :: k in Collect(op, n) ==> Says(lib, k, line))
    ensures op.Or? ==> (Says(lib, n, line) <==> exists k :: k in Collect(op, n) && Says(lib, k, line))
  {
    if Chains(op, n) {
      ChainMeans(lib, op, n.l, line);
      ChainMeans(lib, op, n.r, line);
    } else {
      assert n in Collect(op, n);
    }
  }

  lemma {:induction false} AllMean(lib: Library, ns: seq<Node>, limit: nat, line: Line)
    requires (forall k :: k in ns ==> Size(k) < limit && SoundIn(lib, k)) && CompileAll(lib, ns, limit).Ok?
    ensures MeanTheSame(lib, ns, CompileAll(lib, ns, limit).value, line)
    decreases limit, 0, |ns|
  {
    if ns != [] {
      CompileMeans(lib, ns[0], line);
      AllMean(lib, ns[1..], limit, line);
    }
  }

  ghost predicate MeanTheSame(lib: Library, ns: seq<Node>, kids: seq<Pred>, line: Line) {
    |kids| == |ns| && forall i :: 0 <= i < |ns| ==> Match(lib, kids[i], line) == Says(lib, ns[i], line)
  }

  lemma ChainSorted(lib: Library, ns: seq<Node>, kids: seq<Pred>, line: Line)
    requires MeanTheSame(lib, ns, kids, line)
    ensures MatchAll(lib, ByCost(kids), line) <==> forall k :: k in ns ==> Says(lib, k, line)
    ensures MatchAny(lib, ByCost(kids), line) <==> exists k :: k in ns && Says(lib, k, line)
  {
    MatchAllMeans(lib, ByCost(kids), line);
    ByCostMembers(kids);
    forall i | 0 <= i < |ns|
      ensures ns[i] in ns && kids[i] in ByCost(kids)
    {
      assert kids[i] in kids;
    }
  }

  lemma ChainShape(lib: Library, n: Node)
    requires n.Bin? && Chains(n.op, n) && Compile(lib, n).Ok?
    ensures CompileAll(lib, Collect(n.op, n), Size(n)).Ok?
    ensures var kids := ByCost(CompileAll(lib, Collect(n.op, n), Size(n)).value);
            Compile(lib, n).value == if n.op.And? then AllOf(kids, Total(kids)) else AnyOf(kids, Total(kids))
  {
  }

  lemma ChainCompiles(lib: Library, n: Node, kids: seq<Pred>, line: Line)
    requires n.Bin? && Chains(n.op, n) && MeanTheSame(lib, Collect(n.op, n), kids, line)
    ensures (if n.op.And? then MatchAll(lib, ByCost(kids), line) else MatchAny(lib, ByCost(kids), line)) == Says(lib, n, line)
  {
    ChainSorted(lib, Collect(n.op, n), kids, line);
    ChainMeans(lib, n.op, n, line);
  }

  /** A filter that compiles says of every line what its tree says, given sound gates for the patterns in
      the tree; nothing is asked of other patterns. */
  lemma {:induction false} CompileMeans(lib: Library, n: Node, line: Line)
    requires SoundIn(lib, n) && Compile(lib, n).Ok?
    ensures Match(lib, Compile(lib, n).value, line) == Says(lib, n, line)
    decreases Size(n), 1, 0
  {
    if n.Bin? && (n.op.Or? || n.op.And?) {
      ChainShape(lib, n);
      SoundInOperands(lib, n.op, n);
      AllMean(lib, Collect(n.op, n), Size(n), line);
      ChainCompiles(lib, n, CompileAll(lib, Collect(n.op, n), Size(n)).value, line);
    } else if n.Bin? {
      CompareMeans(lib, n, line);
    } else if n.Not? {
      CompileMeans(lib, n.x, line);
    } else if n.Call? {
      CallMeans(lib, n.name, n.args, line);
    }
  }

  // ---- what each field means ----

  /** The tree compiles, and what it compiles to matches the line just if `holds`. */
  ghost predicate Decides(lib: Library, n: Node, line: Line, holds: bool) {
    Compile(lib, n).Ok? && Match(lib, Compile(lib, n).value, line) == holds
  }

  predicate Stands(a: real, op: Op, b: real) {
    || (op.Eq? && a == b) || (op.Ne? && a != b)
    || (op.Lt? && a < b) || (op.Le? && a <= b)
    || (op.Gt? && a > b) || (op.Ge? && a >= b)
  }

  /** `stream` is the stream and `service` the service, whichever side they are on. */
  lemma MetadataReads(lib: Library, w: string, line: Line)
    ensures Decides(lib, Bin(Eq, Ident("stream"), Str(w)), line, line.stream == w)
    ensures Decides(lib, Bin(Ne, Ident("stream"), Str(w)), line, line.stream != w)
    ensures Decides(lib, Bin(Eq, Str(w), Ident("stream")), line, w == line.stream)
    ensures Decides(lib, Bin(Ne, Str(w), Ident("stream")), line, w != line.stream)
    ensures Decides(lib, Bin(Eq, Ident("service"), Str(w)), line, line.service == w)
    ensures Decides(lib, Bin(Ne, Ident("service"), Str(w)), line, line.service != w)
    ensures Decides(lib, Bin(Eq, Str(w), Ident("service")), line, w == line.service)
    ensures Decides(lib, Bin(Ne, Str(w), Ident("service")), line, w != line.service)
  {
  }

  function LineAnd(text: string): seq<Node> {
    [Ident("line"), Str(text)]
  }

  /** A key the line does not have satisfies neither `==` nor `!=`. */
  lemma LogfmtReads(lib: Library, key: string, w: string, line: Line)
    ensures var got := lib.logfmt(line.raw, key);
            && Decides(lib, Bin(Eq, Call("logfmt", LineAnd(key)), Str(w)), line, got == Some(w))
            && Decides(lib, Bin(Eq, Str(w), Call("logfmt", LineAnd(key))), line, got == Some(w))
            && Decides(lib, Bin(Ne, Call("logfmt", LineAnd(key)), Str(w)), line, got.Some? && got.value != w)
            && Decides(lib, Bin(Ne, Str(w), Call("logfmt", LineAnd(key))), line, got.Some? && got.value != w)
  {
  }

  lemma JsonReadsText(lib: Library, path: string, w: string, line: Line)
    ensures var got := lib.json(line.raw, path);
            && Decides(lib, Bin(Eq, Call("json", LineAnd(path)), Str(w)), line, got.Some? && got.value.text == w)
            && Decides(lib, Bin(Eq, Str(w), Call("json", LineAnd(path))), line, got.Some? && got.value.text == w)
            && Decides(lib, Bin(Ne, Call("json", LineAnd(path)), Str(w)), line, got.Some? && got.value.text != w)
            && Decides(lib, Bin(Ne, Str(w), Call("json", LineAnd(path))), line, got.Some? && got.value.text != w)
  {
  }

  /** A field that is a number is ordered against the literal as a number; any other satisfies no
      comparison with one. */
  lemma JsonReadsNumber(lib: Library, path: string, op: Op, lit: Node, line: Line)
    requires !op.Or? && !op.And? && (lit.Int? || lit.Float?)
    ensures var got := lib.json(line.raw, path);
            var number := if lit.Int? then lib.rounded(lit.value) else lib.decimal(lit.digits);
            && Decides(lib, Bin(op, Call("json", LineAnd(path)), lit), line,
                       got.Some? && got.value.number.Some? && Stands(got.value.number.value, op, number))
            && Decides(lib, Bin(op, lit, Call("json", LineAnd(path))), line,
                       got.Some? && got.value.number.Some? && Stands(number, op, got.value.number.value))
  {
    JsonNumberCompiles(lib, path, op, lit);
    var got := lib.json(line.raw, path);
    if got.Some? && got.value.number.Some? {
      FlipTurns(0, op, 0, got.value.number.value, if lit.Int? then lib.rounded(lit.value) else lib.decimal(lit.digits));
    }
  }

  lemma JsonNumberCompiles(lib: Library, path: string, op: Op, lit: Node)
    requires !op.Or? && !op.And? && (lit.Int? || lit.Float?)
    ensures var number := if lit.Int? then lib.rounded(lit.value) else lib.decimal(lit.digits);
            && Compile(lib, Bin(op, Call("json", LineAnd(path)), lit)) == Ok(JsonNum(path, op, number))
            && Compile(lib, Bin(op, lit, Call("json", LineAnd(path)))) == Ok(JsonNum(path, Flip(op), number))
  {
  }

  /** Severities are ordered, TRACE the least and FATAL the greatest; a line without one satisfies no
      comparison. */
  lemma SeverityReads(lib: Library, op: Op, level: nat, line: Line)
    requires !op.Or? && !op.And? && level < 6
    ensures var got := lib.severity(line.raw);
            var name := Ident(["TRACE", "DEBUG", "INFO", "WARN", "ERROR", "FATAL"][level]);
            && Decides(lib, Bin(op, Call("severity", [Ident("line")]), name), line,
                       got.Some? && Stands(got.value as real, op, level as real))
            && Decides(lib, Bin(op, name, Call("severity", [Ident("line")])), line,
                       got.Some? && Stands(level as real, op, got.value as real))
  {
    var got := lib.severity(line.raw);
    var name := ["TRACE", "DEBUG", "INFO", "WARN", "ERROR", "FATAL"][level];
    assert Level(name) == Some(level);
    if got.Some? {
      FlipTurns(got.value, op, level, 0.0, 0.0);
    }
  }

  /** The line contains the text, begins with it or ends in it. */
  lemma SubstringReads(lib: Library, text: string, line: Line)
    ensures Decides(lib, Call("contains", LineAnd(text)), line, Within(line.raw, text))
    ensures Decides(lib, Call("hasPrefix", LineAnd(text)), line, exists b :: line.raw == text + b)
    ensures Decides(lib, Call("hasSuffix", LineAnd(text)), line, exists a :: line.raw == a + text)
  {
    CallMeans(lib, "contains", LineAnd(text), line);
    CallMeans(lib, "hasPrefix", LineAnd(text), line);
    CallMeans(lib, "hasSuffix", LineAnd(text), line);
  }

  // ---- the shape of what comes out ----

  /** Every and/or node holds its operands in order of cost, and costs what they cost together. */
  ghost predicate Planned(p: Pred) {
    match p
    case AllOf(kids, c) => Ordered(kids) && c == Total(kids) && forall i :: 0 <= i < |kids| ==> Planned(kids[i])
    case AnyOf(kids, c) => Ordered(kids) && c == Total(kids) && forall i :: 0 <= i < |kids| ==> Planned(kids[i])
    case Negation(x) => Planned(x)
    case _ => true
  }

  lemma {:induction false} CompileAllIsPlanned(lib: Library, ns: seq<Node>, limit: nat)
    requires (forall k :: k in ns ==> Size(k) < limit) && CompileAll(lib, ns, limit).Ok?
    ensures forall p :: p in CompileAll(lib, ns, limit).value ==> Planned(p)
    decreases limit, 0, |ns|
  {
    if ns != [] {
      CompileIsPlanned(lib, ns[0]);
      CompileAllIsPlanned(lib, ns[1..], limit);
    }
  }

  lemma {:induction false} CompileIsPlanned(lib: Library, n: Node)
    requires Compile(lib, n).Ok?
    ensures Planned(Compile(lib, n).value)
    decreases Size(n), 1, 0
  {
    if n.Bin? && (n.op.Or? || n.op.And?) {
      var kids := CompileAll(lib, Collect(n.op, n), Size(n)).value;
      CompileAllIsPlanned(lib, Collect(n.op, n), Size(n));
      ByCostSorts(kids, 0);
      ByCostMembers(kids);
      forall i | 0 <= i < |ByCost(kids)|
        ensures Planned(ByCost(kids)[i])
      {
        assert ByCost(kids)[i] in ByCost(kids);
      }
    } else if n.Not? {
      CompileIsPlanned(lib, n.x);
    }
  }

  /** The children of a compiled chain are its compiled operands, in order of cost, those of equal cost
      in the order they were written. */
  lemma ChainIsStablySorted(lib: Library, n: Node, c: nat)
    requires n.Bin? && (n.op.Or? || n.op.And?) && Compile(lib, n).Ok?
    ensures var kids := CompileAll(lib, Collect(n.op, n), Size(n)).value;
            var p := Compile(lib, n).value;
            && (if n.op.And? then p.AllOf? else p.AnyOf?)
            && multiset(p.kids) == multiset(kids) && Ordered(p.kids) && Costing(p.kids, c) == Costing(kids, c)
            && p.cost == Total(kids)
  {
    ByCostSorts(CompileAll(lib, Collect(n.op, n), Size(n)).value, c);
  }

  // ---- order and nesting do not matter ----

  lemma {:induction false} AllCompile(lib: Library, ns: seq<Node>, limit: nat)
    requires forall k :: k in ns ==> Size(k) < limit
    ensures CompileAll(lib, ns, limit).Ok? <==> forall k :: k in ns ==> Compile(lib, k).Ok?
  {
    if ns != [] {
      AllCompile(lib, ns[1..], limit);
      assert forall k :: k in ns <==> k == ns[0] || k in ns[1..];
      assert CompileAll(lib, ns, limit).Ok? <==> Compile(lib, ns[0]).Ok? && CompileAll(lib, ns[1..], limit).Ok?;
      if k :| k in ns && !Compile(lib, k).Ok? {
        assert k == ns[0] || k in ns[1..];
      }
    }
  }

  /** Operands compile one by one. */
  lemma {:induction false} CompiledAt(lib: Library, ns: seq<Node>, limit: nat, i: nat)
    requires (forall k :: k in ns ==> Size(k) < limit) && CompileAll(lib, ns, limit).Ok? && i < |ns|
    ensures Compile(lib, ns[i]) == Ok(CompileAll(lib, ns, limit).value[i])
  {
    if i > 0 {
      CompiledAt(lib, ns[1..], limit, i - 1);
    }
  }

  /** So the children depend on which operands there are, not on where they stand. */
  lemma SameOperandsSameKids(lib: Library, ns: seq<Node>, a: nat, ms: seq<Node>, b: nat, p: Pred)
    requires (forall k :: k in ns ==> Size(k) < a && k in ms) && forall k :: k in ms ==> Size(k) < b
    requires CompileAll(lib, ns, a).Ok? && CompileAll(lib, ms, b).Ok? && p in CompileAll(lib, ns, a).value
    ensures p in CompileAll(lib, ms, b).value
  {
    var i :| 0 <= i < |ns| && CompileAll(lib, ns, a).value[i] == p;
    CompiledAt(lib, ns, a, i);
    assert ns[i] in ns;
    var j :| 0 <= j < |ms| && ms[j] == ns[i];
    CompiledAt(lib, ms, b, j);
  }

  lemma SameOperandsCompileAlike(lib: Library, op: Op, n: Node, m: Node)
    requires Chains(op, n) && Chains(op, m) && multiset(Collect(op, n)) == multiset(Collect(op, m))
    ensures forall k :: k in Collect(op, n) <==> k in Collect(op, m)
    ensures CompileAll(lib, Collect(op, n), Size(n)).Ok? <==> CompileAll(lib, Collect(op, m), Size(m)).Ok?
  {
    var ns, ms := Collect(op, n), Collect(op, m);
    AllCompile(lib, ns, Size(n));
    AllCompile(lib, ms, Size(m));
    forall k
      ensures k in ns <==> k in ms
    {
      assert k in multiset(ns) <==> k in multiset(ms);
    }
  }

  lemma ChainCompilesIff(lib: Library, op: Op, n: Node)
    requires Chains(op, n)
    ensures Compile(lib, n).Ok? <==> CompileAll(lib, Collect(op, n), Size(n)).Ok?
  {
  }

  lemma ChainSays(lib: Library, op: Op, n: Node, line: Line)
    requires Chains(op, n) && Compile(lib, n).Ok?
    ensures CompileAll(lib, Collect(op, n), Size(n)).Ok?
    ensures var kids := ByCost(CompileAll(lib, Collect(op, n), Size(n)).value);
            Match(lib, Compile(lib, n).value, line) == if op.And? then MatchAll(lib, kids, line) else MatchAny(lib, kids, line)
  {
    ChainShape(lib, n);
  }

  /** Re-nesting a chain or permuting its operands changes neither whether it compiles nor what it
      drops, whatever the libraries do. */
  lemma NestingDoesNotMatter(lib: Library, op: Op, n: Node, m: Node, line: Line)
    requires Chains(op, n) && Chains(op, m)
    requires multiset(Collect(op, n)) == multiset(Collect(op, m))
    ensures Compile(lib, n).Ok? <==> Compile(lib, m).Ok?
    ensures Compile(lib, n).Ok? ==> Match(lib, Compile(lib, n).value, line) == Match(lib, Compile(lib, m).value, line)
  {
    ChainCompilesIff(lib, op, n);
    ChainCompilesIff(lib, op, m);
    SameOperandsCompileAlike(lib, op, n, m);
    if Compile(lib, n).Ok? {
      ChainSays(lib, op, n, line);
      ChainSays(lib, op, m, line);
      SameKidsSayTheSame(lib, Collect(op, n), Size(n), Collect(op, m), Size(m), line);
    }
  }

  lemma SameKidsSayTheSame(lib: Library, ns: seq<Node>, a: nat, ms: seq<Node>, b: nat, line: Line)
    requires (forall k :: k in ns <==> k in ms) && (forall k :: k in ns ==> Size(k) < a) && forall k :: k in ms ==> Size(k) < b
    requires CompileAll(lib, ns, a).Ok? && CompileAll(lib, ms, b).Ok?
    ensures var one, other := ByCost(CompileAll(lib, ns, a).value), ByCost(CompileAll(lib, ms, b).value);
            MatchAll(lib, one, line) == MatchAll(lib, other, line) && MatchAny(lib, one, line) == MatchAny(lib, other, line)
  {
    var kids, others := CompileAll(lib, ns, a).value, CompileAll(lib, ms, b).value;
    forall p
      ensures p in ByCost(kids) <==> p in ByCost(others)
    {
      ByCostMembers(kids);
      ByCostMembers(others);
      if p in kids {
        SameOperandsSameKids(lib, ns, a, ms, b, p);
      }
      if p in others {
        SameOperandsSameKids(lib, ms, b, ns, a, p);
      }
    }
    MatchAllMeans(lib, ByCost(kids), line);
    MatchAllMeans(lib, ByCost(others), line);
  }

  // ---- which trees compile ----

  lemma ComparesIff(lib: Library, op: Op, l: Node, r: Node)
    requires !op.Or? && !op.And?
    ensures CompileCompare(lib, op, l, r).Ok? <==>
            (SideOf(r).Constant? && Fits(SideOf(l), op, r)) || (SideOf(l).Constant? && Fits(SideOf(r), op, l))
  {
    SideIsField(l);
    SideIsField(r);
    if Classify(r) == Ok(None) && Classify(l).Ok? && Classify(l).value.Some? {
      FitsIff(lib, l, op, r);
    }
    if Classify(l) == Ok(None) && Classify(r).Ok? && Classify(r).value.Some? {
      FitsIff(lib, r, op, l);
      FitsIff(lib, r, Flip(op), l);
    }
  }

  lemma SideIsField(n: Node)
    ensures Classify(n).Err? <==> SideOf(n).Misused?
    ensures Classify(n) == Ok(None) <==> SideOf(n).Constant?
  {
  }

  lemma FitsIff(lib: Library, field: Node, op: Op, lit: Node)
    requires !op.Or? && !op.And? && Classify(lit) == Ok(None) && Classify(field).Ok? && Classify(field).value.Some?
    ensures BuildCompare(lib, Classify(field).value.value, op, lit).Ok? <==> Fits(SideOf(field), op, lit)
    ensures Fits(SideOf(field), op, lit) == Fits(SideOf(field), Flip(op), lit)
  {
    LevelsAreListed(if lit.Ident? then lit.name else "");
  }

  lemma LevelsAreListed(name: string)
    ensures Level(name).Some? <==> name in LEVELS
  {
  }

  lemma {:induction false} OperandsAreFilters(lib: Library, op: Op, n: Node)
    requires op.Or? || op.And?
    ensures IsFilter(lib, n) <==> forall k :: k in Collect(op, n) ==> IsFilter(lib, k)
  {
    if Chains(op, n) {
      OperandsAreFilters(lib, op, n.l);
      OperandsAreFilters(lib, op, n.r);
    } else {
      assert Collect(op, n) == [n];
    }
  }

  /** Exactly the filters compile. */
  lemma {:induction false} CompilesIff(lib: Library, n: Node)
    ensures Compile(lib, n).Ok? <==> IsFilter(lib, n)
    decreases Size(n)
  {
    if n.Bin? && (n.op.Or? || n.op.And?) {
      ChainCompilesIff(lib, n.op, n);
      AllCompile(lib, Collect(n.op, n), Size(n));
      OperandsAreFilters(lib, n.op, n);
      forall k | k in Collect(n.op, n)
        ensures Compile(lib, k).Ok? <==> IsFilter(lib, k)
      {
        CompilesIff(lib, k);
      }
    } else if n.Bin? {
      ComparesIff(lib, n.op, n.l, n.r);
    } else if n.Not? {
      CompilesIff(lib, n.x);
    }
  }

  // ---- what the plan knows ----

  /** The chain of some operands, nested to the left as it is parsed. */
  function Chain(op: Op, operands: seq<Node>): Node
    requires operands != []
  {
    var n := |operands| - 1;
    if n == 0 then operands[0] else Bin(op, Chain(op, operands[..n]), operands[n])
  }

  /** A chain is taken apart into its operands as they are written. */
  lemma {:induction false} CollectsAsWritten(op: Op, operands: seq<Node>)
    requires operands != [] && (op.Or? || op.And?)
    requires forall k :: k in operands ==> !(k.Bin? && k.op == op)
    ensures Collect(op, Chain(op, operands)) == operands
  {
    var n := |operands| - 1;
    var last := operands[n];
    assert last in operands;
    CollectsAlone(op, last);
    if n == 0 {
      assert operands == [last];
    } else {
      var before := operands[..n];
      assert operands == before + [last];
      CollectsAsWritten(op, before);
      CollectsBoth(op, Chain(op, before), last);
    }
  }

  lemma CollectsAlone(op: Op, n: Node)
    requires !(n.Bin? && n.op == op)
    ensures Collect(op, n) == [n]
  {
  }

  lemma CollectsBoth(op: Op, l: Node, r: Node)
    requires op.Or? || op.And?
    ensures Collect(op, Bin(op, l, r)) == Collect(op, l) + Collect(op, r)
  {
  }

  /** The measured weights: metadata is free, a substring is the unit, and a regular expression is the
      most expensive; a condition weighs what it looks at. */
  function Weight(p: Pred): nat
    decreases p, 0
  {
    match p
    case Const(_) => 0
    case Meta(_, _, _) => 0
    case Substr(_, _) => 1
    case Logfmt(_, _, _) => 60
    case Severity(_, _) => 60
    case JsonStr(_, _, _) => 75
    case JsonNum(_, _, _) => 75
    case Regex(_) => 400
    case Negation(x) => Weight(x)
    case AllOf(kids, _) => Weights(kids)
    case AnyOf(kids, _) => Weights(kids)
  }

  function Weights(kids: seq<Pred>): nat
    decreases kids, 1
  {
    if kids == [] then 0 else Weights(kids[..|kids| - 1]) + Weight(kids[|kids| - 1])
  }

  lemma {:induction false} CostIsWeight(p: Pred)
    requires Planned(p)
    ensures Cost(p) == Weight(p)
    decreases p, 0
  {
    match p
    case Negation(x) => CostIsWeight(x);
    case AllOf(kids, _) => TotalIsWeights(kids);
    case AnyOf(kids, _) => TotalIsWeights(kids);
    case Const(_) =>
    case Meta(_, _, _) =>
    case Substr(_, _) =>
    case Logfmt(_, _, _) =>
    case Severity(_, _) =>
    case JsonStr(_, _, _) =>
    case JsonNum(_, _, _) =>
    case Regex(_) =>
  }

  lemma {:induction false} TotalIsWeights(kids: seq<Pred>)
    requires forall i :: 0 <= i < |kids| ==> Planned(kids[i])
    ensures Total(kids) == Weights(kids)
    decreases kids, 1
  {
    if kids != [] {
      TotalIsWeights(kids[..|kids| - 1]);
      CostIsWeight(kids[|kids| - 1]);
    }
  }

  /** The operands of a compiled chain are matched lightest first. */
  lemma LightestFirst(lib: Library, n: Node, i: nat, j: nat)
    requires n.Bin? && (n.op.Or? || n.op.And?) && Compile(lib, n).Ok?
    ensures var p := Compile(lib, n).value;
            (p.AllOf? || p.AnyOf?) && (i < j < |p.kids| ==> Weight(p.kids[i]) <= Weight(p.kids[j]))
  {
    CompileIsPlanned(lib, n);
    var p := Compile(lib, n).value;
    if i < j < |p.kids| {
      CostIsWeight(p.kids[i]);
      CostIsWeight(p.kids[j]);
    }
  }

  // ---- the filter ----

  /** What strings.TrimSpace trims. */
  predicate IsUnicodeSpace(c: char) {
    || c == ' ' || '\t' <= c <= '\r' || c == '\U{85}' || c == '\U{A0}' || c == '\U{1680}' || '\U{2000}' <= c <= '\U{200A}'
    || c == '\U{2028}' || c == '\U{2029}' || c == '\U{202F}' || c == '\U{205F}' || c == '\U{3000}'
  }

  /** No filter, which drops nothing, for a blank expression. */
  function CompileFilter(lib: Library, src: string): Result<Option<Pred>, PlanError> {
    if forall i :: 0 <= i < |src| ==> IsUnicodeSpace(src[i]) then Ok(None)
    else
      match Parse(src)
      case Err(e) => Err(BadSyntax(e))
      case Ok(n) =>
        match Compile(lib, n)
        case Err(e) => Err(e)
        case Ok(p) => Ok(Some(p))
  }

  predicate Drops(lib: Library, filter: Option<Pred>, line: Line) {
    filter.Some? && Match(lib, filter.value, line)
  }

  /** A line is dropped exactly when the expression, read as written, holds of it, unless the expression
      hands the regex engine a pattern that loses matches. Keeping the carets is enough. */
  lemma DropsWhatTheSourceSays(lib: Library, src: string, line: Line)
    requires CompileFilter(lib, src).Ok?
    requires Parse(src).Ok? ==> forall p :: p in Patterns(Parse(src).value) ==> Lawful(lib, p) && !LosesMatches(lib, p)
    ensures Drops(lib, CompileFilter(lib, src).value, line) <==> Parse(src).Ok? && Says(lib, Parse(src).value, line)
  {
    if forall i :: 0 <= i < |src| ==> IsUnicodeSpace(src[i]) {
      BlankHasNoTree(src);
    } else {
      SoundInIff(lib, Parse(src).value);
      CompileMeans(lib, Parse(src).value, line);
    }
  }

  /** An expression is accepted exactly if it is blank or the tree of a filter; blank is empty, or made of
      the white space of Unicode. */
  lemma AcceptsIff(lib: Library, src: string)
    ensures CompileFilter(lib, src).Ok? <==>
            || (forall c :: c in src ==>
                  || c in "\t\n\r \U{B}\U{C}\U{85}\U{A0}\U{1680}\U{2028}\U{2029}\U{202F}\U{205F}\U{3000}"
                  || '\U{2000}' <= c <= '\U{200A}')
            || (Parse(src).Ok? && IsFilter(lib, Parse(src).value))
  {
    forall c
      ensures IsUnicodeSpace(c) <==>
              || c in "\t\n\r \U{B}\U{C}\U{85}\U{A0}\U{1680}\U{2028}\U{2029}\U{202F}\U{205F}\U{3000}"
              || '\U{2000}' <= c <= '\U{200A}'
    {
      SpaceIsListed(c);
    }
    if Parse(src).Ok? {
      CompilesIff(lib, Parse(src).value);
    }
  }

  lemma SpaceIsListed(c: char)
    ensures IsUnicodeSpace(c) <==>
            || c in "\t\n\r \U{B}\U{C}\U{85}\U{A0}\U{1680}\U{2028}\U{2029}\U{202F}\U{205F}\U{3000}"
            || '\U{2000}' <= c <= '\U{200A}'
  {
  }

  lemma {:induction false} BlankHasNoTree(src: string)
    requires forall i :: 0 <= i < |src| ==> IsUnicodeSpace(src[i])
    ensures Parse(src).Err?
  {
    BlankTokens(src);
  }

  lemma {:induction false} BlankTokens(src: string)
    requires forall i :: 0 <= i < |src| ==> IsUnicodeSpace(src[i])
    ensures Tokens(src).Err? || Tokens(src) == Ok([END])
  {
    if src != "" && IsSpace(src[0]) {
      BlankTokens(src[1..]);
    }
  }
}
