/** What a filter says of a line, read off its tree from left to right. Nothing here is shared with the
    compiler but the tree, the line and the scanners. */
module FilterMeaning {
  import opened Wrappers
  import opened FilterParser
  import opened FilterPlan

  /** The levels a severity can be compared to, from the least. */
  const LEVELS: seq<string> := ["TRACE", "DEBUG", "INFO", "WARN", "ERROR", "FATAL"]

  /** What one side of a comparison stands for on a line. */
  datatype Operand =
    | Absent
    | Chars(text: string)
    | Rank(n: int)
    | Whole(n: int)
    | Fraction(digits: string)
    | Document(found: Json)
    | Meaningless

  function ReadIdent(name: string, line: Line): Operand {
    if name == "stream" then Chars(line.stream)
    else if name == "service" then Chars(line.service)
    else if name == "TRACE" then Rank(0)
    else if name == "DEBUG" then Rank(1)
    else if name == "INFO" then Rank(2)
    else if name == "WARN" then Rank(3)
    else if name == "ERROR" then Rank(4)
    else if name == "FATAL" then Rank(5)
    else Meaningless
  }

  function Of<T>(found: Option<T>, make: T -> Operand): Operand {
    match found
    case None => Absent
    case Some(v) => make(v)
  }

  function ReadCall(lib: Library, name: string, args: seq<Node>, line: Line): Operand {
    if name == "severity" && args == [Ident("line")] then Of(lib.severity(line.raw), n => Rank(n))
    else if name == "json" && |args| == 2 && args[0] == Ident("line") && args[1].Str? then
      Of(lib.json(line.raw, args[1].text), j => Document(j))
    else if name == "logfmt" && |args| == 2 && args[0] == Ident("line") && args[1].Str? then
      Of(lib.logfmt(line.raw, args[1].text), text => Chars(text))
    else Meaningless
  }

  function Read(lib: Library, n: Node, line: Line): Operand {
    match n
    case Str(text) => Chars(text)
    case Int(v) => Whole(v)
    case Float(digits) => Fraction(digits)
    case Ident(name) => ReadIdent(name, line)
    case Call(name, args) => ReadCall(lib, name, args, line)
    case _ => Meaningless
  }

  /** How the left side stands to the right one, if the two can be compared. */
  datatype Relation = Incomparable | Texts(same: bool) | Numbers(less: bool, same: bool)

  function ByInt(a: int, b: int): Relation {
    Numbers(a < b, a == b)
  }

  function ByReal(a: real, b: real): Relation {
    Numbers(a < b, a == b)
  }

  function Relate(lib: Library, a: Operand, b: Operand): Relation {
    match (a, b)
    case (Chars(v), Chars(w)) => Texts(v == w)
    case (Rank(v), Rank(w)) => ByInt(v, w)
    case (Rank(v), Whole(w)) => ByInt(v, w)
    case (Whole(v), Rank(w)) => ByInt(v, w)
    case (Document(j), Chars(w)) => Texts(j.text == w)
    case (Chars(v), Document(j)) => Texts(v == j.text)
    case (Document(j), Whole(w)) => if j.number.Some? then ByReal(j.number.value, lib.rounded(w)) else Incomparable
    case (Whole(v), Document(j)) => if j.number.Some? then ByReal(lib.rounded(v), j.number.value) else Incomparable
    case (Document(j), Fraction(w)) => if j.number.Some? then ByReal(j.number.value, lib.decimal(w)) else Incomparable
    case (Fraction(v), Document(j)) => if j.number.Some? then ByReal(lib.decimal(v), j.number.value) else Incomparable
    case _ => Incomparable
  }

  predicate Holds(op: Op, rel: Relation) {
    match rel
    case Incomparable => false
    case Texts(same) => (op.Eq? && same) || (op.Ne? && !same)
    case Numbers(less, same) =>
      match op
      case Eq => same
      case Ne => !same
      case Lt => less
      case Le => less || same
      case Gt => !less && !same
      case Ge => !less
      case _ => false
  }

  ghost predicate Within(raw: string, text: string) {
    exists a, b :: raw == a + text + b
  }

  ghost predicate Occurs(lib: Library, pattern: string, raw: string) {
    exists i: nat :: i <= |raw| && lib.matchesAt(pattern, raw, i)
  }

  ghost predicate SaysCall(lib: Library, name: string, args: seq<Node>, line: Line) {
    && |args| == 2 && args[0] == Ident("line") && args[1].Str?
    && var text := args[1].text;
       if name == "contains" then Within(line.raw, text)
       else if name == "hasPrefix" then exists b :: line.raw == text + b
       else if name == "hasSuffix" then exists a :: line.raw == a + text
       else name == "matches" && Occurs(lib, text, line.raw)
  }

  /** Every operand where it stands and every comparison the way round it is written. A field the line
      does not have satisfies no comparison. */
  ghost predicate Says(lib: Library, n: Node, line: Line) {
    match n
    case Bin(op, l, r) =>
      if op.Or? then Says(lib, l, line) || Says(lib, r, line)
      else if op.And? then Says(lib, l, line) && Says(lib, r, line)
      else Holds(op, Relate(lib, Read(lib, l, line), Read(lib, r, line)))
    case Not(x) => !Says(lib, x, line)
    case Call(name, args) => SaysCall(lib, name, args, line)
    case Bool(on) => on
    case _ => false
  }

  // ---- which trees are filters ----

  datatype Side = TextField | RankField | JsonField | Constant | Misused

  function SideOf(n: Node): Side {
    match n
    case Ident(name) => if name == "stream" || name == "service" then TextField else Constant
    case Call(name, args) =>
      var lineAndText := |args| == 2 && args[0] == Ident("line") && args[1].Str?;
      if name == "severity" then (if args == [Ident("line")] then RankField else Misused)
      else if name == "json" then (if lineAndText then JsonField else Misused)
      else if name == "logfmt" then (if lineAndText then TextField else Misused)
      else Constant
    case _ => Constant
  }

  /** The field can be compared to the literal with this operator. */
  predicate Fits(field: Side, op: Op, lit: Node) {
    match field
    case TextField => lit.Str? && (op.Eq? || op.Ne?)
    case RankField => lit.Int? || (lit.Ident? && lit.name in LEVELS)
    case JsonField => lit.Int? || lit.Float? || (lit.Str? && (op.Eq? || op.Ne?))
    case _ => false
  }

  predicate IsFilter(lib: Library, n: Node) {
    match n
    case Bin(op, l, r) =>
      if op.Or? || op.And? then IsFilter(lib, l) && IsFilter(lib, r)
      else || (SideOf(r).Constant? && Fits(SideOf(l), op, r))
           || (SideOf(l).Constant? && Fits(SideOf(r), op, l))
    case Not(x) => IsFilter(lib, x)
    case Call(name, args) =>
      && name in {"contains", "hasPrefix", "hasSuffix", "matches"}
      && |args| == 2 && args[0] == Ident("line") && args[1].Str?
      && (name == "matches" ==> lib.validRegex(args[1].text))
    case Bool(_) => true
    case _ => false
  }
}
