/** Env directives: written with placeholders at configure time, filled in and split again before a
    provision runs (internal/alphasfile/eval.go). */
module EnvOps {
  import opened Wrappers
  import opened Strings

  const NUL: char := '\0'
  const FRAME: string := ['\0']
  const BIN: string := ['\0'] + "zbin:"
  const ENV_OP: string := ['\0'] + "zenvop:"

  function BinSentinel(kind: string, ref: string): string {
    BIN + (kind + (":" + (ref + FRAME)))
  }

  function EnvOpSentinel(op: string, args: seq<string>): string {
    ENV_OP + (op + (FRAME + (Join(args, FRAME) + FRAME)))
  }

  datatype Directive = Directive(op: string, args: seq<string>)

  function ParseEnvOp(value: string): Option<Directive> {
    if !(ENV_OP <= value) || value[|value| - 1] != NUL || |value| == |ENV_OP| then
      // The prefix does not end in a NUL, so a value that is the prefix alone has no directive in it.
      None
    else
      var parts := Split(value[|ENV_OP|..|value| - 1], FRAME);
      if parts == [] then None else Some(Directive(parts[0], parts[1..]))
  }

  function Nuls(s: string): nat {
    if s == "" then 0 else (if s[0] == NUL then 1 else 0) + Nuls(s[1..])
  }

  lemma {:induction false} NulsAdd(a: string, b: string)
    ensures Nuls(a + b) == Nuls(a) + Nuls(b)
  {
    if a == "" {
      assert a + b == b;
    } else {
      assert (a + b)[1..] == a[1..] + b;
      NulsAdd(a[1..], b);
    }
  }

  lemma {:induction false} NoNuls(s: string)
    requires NUL !in s
    ensures Nuls(s) == 0
  {
    if s != "" {
      NoNuls(s[1..]);
    }
  }

  // ---- filling in the placeholders ----

  type Resolve = (string, string) -> seq<string>

  /** The list separator; the directories themselves are free of NUL. */
  const LIST: string := ":"

  ghost predicate CleanDirs(resolve: Resolve) {
    forall kind, ref :: NUL !in Join(resolve(kind, ref), LIST)
  }

  /** The first placeholder: where it starts, what it says, and what follows it. */
  datatype Found = Found(before: string, token: string, after: string)

  function FirstBin(s: string): (f: Option<Found>)
    ensures f.Some? ==> s == f.value.before + (BIN + (f.value.token + (FRAME + f.value.after)))
  {
    match Cut(s, BIN)
    case None => None
    case Some(b) =>
      CutJoins(s, BIN);
      match Cut(b.1, FRAME)
      case None => None
      case Some(t) =>
        CutJoins(b.1, FRAME);
        assert s == b.0 + (BIN + b.1) && b.1 == t.0 + (FRAME + t.1);
        Some(Found(b.0, t.0, t.1))
  }

  function Dirs(resolve: Resolve, token: string): string {
    match Cut(token, ":")
    case None => ""
    case Some(kr) => Join(resolve(kr.0, kr.1), LIST)
  }

  /** Replaces the first placeholder until there is none; two NULs go each time and none comes. */
  function SubstituteBins(s: string, resolve: Resolve): string
    requires CleanDirs(resolve)
    decreases Nuls(s)
  {
    match FirstBin(s)
    case None => s
    case Some(f) =>
      NulsFall(f.before, f.token, f.after, Dirs(resolve, f.token));
      SubstituteBins(f.before + (Dirs(resolve, f.token) + f.after), resolve)
  }

  lemma NulsFall(before: string, token: string, after: string, dirs: string)
    requires NUL !in dirs
    ensures Nuls(before + (dirs + after)) < Nuls(before + (BIN + (token + (FRAME + after))))
  {
    NulsAdd(before, dirs + after);
    NulsAdd(dirs, after);
    NoNuls(dirs);
    NulsAdd(before, BIN + (token + (FRAME + after)));
    NulsAdd(BIN, token + (FRAME + after));
    NulsAdd(token, FRAME + after);
    NulsAdd(FRAME, after);
    assert BIN[0] == NUL && FRAME[0] == NUL;
  }

  method Substitute(start: string, resolve: Resolve) returns (s: string)
    requires CleanDirs(resolve)
    ensures s == SubstituteBins(start, resolve)
  {
    s := start;
    while true
      invariant SubstituteBins(s, resolve) == SubstituteBins(start, resolve)
      decreases Nuls(s)
    {
      var at := Cut(s, BIN);
      if at.None? {
        return;
      }
      var token := Cut(at.value.1, FRAME);
      if token.None? {
        return; // unterminated: left as it is
      }
      ghost var f := FirstBin(s).value;
      var dirs := Dirs(resolve, token.value.0);
      NulsFall(f.before, f.token, f.after, dirs);
      s := at.value.0 + (dirs + token.value.1);
    }
  }

  // ---- a directive survives ----

  datatype Arg = Literal(text: string) | Bin(kind: string, ref: string)

  function ArgText(a: Arg): string {
    match a
    case Literal(text) => text
    case Bin(kind, ref) => BinSentinel(kind, ref)
  }

  function Filled(a: Arg, resolve: Resolve): string {
    match a
    case Literal(text) => text
    case Bin(kind, ref) => Join(resolve(kind, ref), LIST)
  }

  /** Free of NUL, and not mistaken for a placeholder after one. */
  predicate Safe(s: string) {
    NUL !in s && !("zbin:" <= s)
  }

  /** Free of NUL, and of `:` in a kind, as the placeholders are framed. */
  predicate Framed(a: Arg) {
    match a
    case Literal(text) => NUL !in text
    case Bin(kind, ref) => NUL !in kind && ':' !in kind && NUL !in ref
  }

  /** No argument, filled in, starts like a placeholder. */
  predicate Distinct(args: seq<Arg>, resolve: Resolve) {
    forall i :: 0 <= i < |args| ==> !("zbin:" <= Filled(args[i], resolve))
  }

  function Texts(args: seq<Arg>): seq<string> {
    seq(|args|, i requires 0 <= i < |args| => ArgText(args[i]))
  }

  function FilledAll(args: seq<Arg>, resolve: Resolve): seq<string> {
    seq(|args|, i requires 0 <= i < |args| => Filled(args[i], resolve))
  }

  /** Each part led in by a NUL. */
  function Led(parts: seq<string>): string {
    if parts == [] then "" else FRAME + (parts[0] + Led(parts[1..]))
  }

  /** No placeholder starts in `a`, wherever it is followed by `t`. */
  lemma NoneIn(a: string, t: string)
    requires NUL !in a
    ensures Find(a + t, BIN) == Shift(|a|, Find(t, BIN))
  {
    assert BIN[0] == NUL;
    FindSkips(a, t, BIN);
  }

  /** A NUL before a safe part and another NUL starts no placeholder. */
  lemma NotHere(part: string, t: string)
    requires Safe(part) && t != "" && t[0] == NUL
    ensures !(BIN <= FRAME + (part + t))
  {
    var s := part + t;
    assert forall i :: 0 <= i < |part| ==> s[i] == part[i];
    assert s[|part|] == NUL;
    assert (FRAME + s)[1..] == s && BIN[1..] == "zbin:";
    LedByNul(s);
  }

  lemma LedByNul(s: string)
    ensures BIN <= FRAME + s <==> "zbin:" <= s
  {
    assert forall i :: 0 <= i < |s| ==> (FRAME + s)[1 + i] == s[i];
    assert forall i :: 0 <= i < 5 ==> BIN[1 + i] == "zbin:"[i];
    if "zbin:" <= s {
      assert FRAME + s == BIN + s[5..];
    }
  }

  lemma PastPart(part: string, t: string)
    requires Safe(part) && t != "" && t[0] == NUL
    ensures Find(FRAME + (part + t), BIN) == Shift(1 + |part|, Find(t, BIN))
  {
    NotHere(part, t);
    assert (FRAME + (part + t))[1..] == part + t;
    NoneIn(part, t);
  }

  lemma LedStarts(parts: seq<string>, t: string)
    requires t != "" && t[0] == NUL
    ensures Led(parts) + t != "" && (Led(parts) + t)[0] == NUL
    ensures parts != [] ==> Led(parts) + t == FRAME + (parts[0] + (Led(parts[1..]) + t))
  {
    if parts != [] {
      Associate(parts[0], Led(parts[1..]), t);
      Associate(FRAME, parts[0] + Led(parts[1..]), t);
    }
  }

  lemma {:induction false} PastParts(parts: seq<string>, t: string)
    requires (forall i :: 0 <= i < |parts| ==> Safe(parts[i])) && t != "" && t[0] == NUL
    ensures Find(Led(parts) + t, BIN) == Shift(|Led(parts)|, Find(t, BIN))
  {
    if parts == [] {
      assert Led(parts) + t == t;
    } else {
      var rest := Led(parts[1..]) + t;
      PastParts(parts[1..], t);
      assert rest != "" && rest[0] == NUL by { LedStarts(parts[1..], t); }
      PastPart(parts[0], rest);
      assert Led(parts) + t == FRAME + (parts[0] + rest) by { LedStarts(parts, t); }
      assert |Led(parts)| == 1 + |parts[0]| + |Led(parts[1..])|;
    }
  }

  lemma {:induction false} LedAppends(a: seq<string>, b: seq<string>)
    ensures Led(a + b) == Led(a) + Led(b)
  {
    if a == [] {
      assert a + b == b;
    } else {
      assert (a + b)[0] == a[0] && (a + b)[1..] == a[1..] + b;
      LedAppends(a[1..], b);
    }
  }

  lemma {:induction false} LedIsJoined(parts: seq<string>)
    requires parts != []
    ensures Led(parts) == FRAME + Join(parts, FRAME)
  {
    if |parts| > 1 {
      LedIsJoined(parts[1..]);
    }
  }

  /** Where the placeholder after some safe parts is found, and what is left of it. */
  lemma FindsBin(done: seq<string>, kind: string, ref: string, after: string)
    requires (forall i :: 0 <= i < |done| ==> Safe(done[i])) && NUL !in kind && NUL !in ref
    ensures FirstBin(Led(done) + (FRAME + (BinSentinel(kind, ref) + after))) ==
            Some(Found(Led(done) + FRAME, kind + (":" + ref), after))
  {
    var token := kind + (":" + ref);
    var inside := token + (FRAME + after);
    BinForm(kind, ref, after);
    PastParts(done, FRAME + (BIN + inside));
    AfterFrame(inside);
    Associate(Led(done), FRAME, BIN + inside);
    CutAt(Led(done) + FRAME, BIN, inside);
    CutHere(token, FRAME + after, FRAME);
    assert (FRAME + after)[1..] == after;
  }

  lemma BinForm(kind: string, ref: string, after: string)
    ensures BinSentinel(kind, ref) + after == BIN + (kind + (":" + ref) + (FRAME + after))
  {
  }

  lemma AfterFrame(inside: string)
    ensures Find(FRAME + (BIN + inside), BIN) == Some(1)
  {
    var s := FRAME + (BIN + inside);
    assert s[1] == NUL && BIN[1] == 'z';
    assert s[1..] == BIN + inside;
  }

  lemma TokenDirs(resolve: Resolve, kind: string, ref: string)
    requires ':' !in kind
    ensures Dirs(resolve, kind + (":" + ref)) == Join(resolve(kind, ref), LIST)
  {
    CutHere(kind, ":" + ref, ":");
    assert (":" + ref)[1..] == ref;
  }

  lemma SubstituteDone(s: string, resolve: Resolve)
    requires CleanDirs(resolve) && Find(s, BIN) == None
    ensures SubstituteBins(s, resolve) == s
  {
  }

  lemma SubstituteStep(s: string, f: Found, resolve: Resolve)
    requires CleanDirs(resolve) && FirstBin(s) == Some(f)
    ensures SubstituteBins(s, resolve) == SubstituteBins(f.before + (Dirs(resolve, f.token) + f.after), resolve)
  {
  }

  lemma TextsSplit(done: seq<string>, args: seq<Arg>)
    requires args != []
    ensures done + Texts(args) == done + ([ArgText(args[0])] + Texts(args[1..]))
    ensures done + Texts(args) == (done + [ArgText(args[0])]) + Texts(args[1..])
  {
  }

  lemma FilledSplit(done: seq<string>, args: seq<Arg>, resolve: Resolve)
    requires args != []
    ensures (done + [Filled(args[0], resolve)]) + FilledAll(args[1..], resolve) == done + FilledAll(args, resolve)
  {
  }

  lemma {:induction false} FillDistinct(done: seq<string>, args: seq<Arg>, resolve: Resolve)
    requires CleanDirs(resolve) && done != [] && forall i :: 0 <= i < |done| ==> Safe(done[i])
    requires (forall i :: 0 <= i < |args| ==> Framed(args[i])) && Distinct(args, resolve)
    ensures SubstituteBins(Led(done + Texts(args)) + FRAME, resolve) == Led(done + FilledAll(args, resolve)) + FRAME
    decreases |args|
  {
    if args == [] {
      assert done + Texts(args) == done == done + FilledAll(args, resolve);
      PastParts(done, FRAME);
      FindTooLong(FRAME, BIN);
      SubstituteDone(Led(done) + FRAME, resolve);
    } else {
      assert Framed(args[0]) && Safe(Filled(args[0], resolve));
      FillDistinct(done + [Filled(args[0], resolve)], args[1..], resolve);
      FilledSplit(done, args, resolve);
      TextsSplit(done, args);
      if args[0].Bin? {
        FillOne(done, args[0], args[1..], resolve);
      }
    }
  }

  // ---- what is filled in holds no placeholder ----

  lemma {:induction false} NoneLeft(s: string, resolve: Resolve)
    requires CleanDirs(resolve)
    ensures FirstBin(SubstituteBins(s, resolve)) == None
    decreases Nuls(s)
  {
    if FirstBin(s).Some? {
      var f := FirstBin(s).value;
      NulsFall(f.before, f.token, f.after, Dirs(resolve, f.token));
      NoneLeft(f.before + (Dirs(resolve, f.token) + f.after), resolve);
    }
  }

  /** A placeholder that ends in a NUL somewhere is found. */
  lemma HoldsBin(a: string, b: string)
    ensures FirstBin(a + (BIN + (b + FRAME))).Some?
  {
    var s := a + (BIN + (b + FRAME));
    FoundIn(a, BIN, b + FRAME, s);
    CutJoins(s, BIN);
    var cut := Cut(s, BIN).value;
    assert s == (cut.0 + BIN) + cut.1 && s[|s| - 1] == NUL && BIN[|BIN| - 1] == ':';
    assert cut.1 != "" && cut.1[|cut.1| - 1] == NUL;
    CutLacks(cut.1, NUL);
  }

  lemma Around<T>(s: seq<T>, i: nat)
    requires i < |s|
    ensures s == s[..i] + ([s[i]] + s[i + 1..])
  {
  }

  lemma LedHoldsBin(parts: seq<string>, i: nat)
    requires i < |parts| && "zbin:" <= parts[i]
    ensures FirstBin(Led(parts) + FRAME).Some?
  {
    var before, part, after := parts[..i], parts[i], parts[i + 1..];
    Around(parts, i);
    LedSplits(before, part, after);
    BinThen(Led(before), part, Led(after));
  }

  lemma BinThen(a: string, part: string, c: string)
    requires "zbin:" <= part
    ensures FirstBin(a + (FRAME + (part + (c + FRAME)))).Some?
  {
    var b := part[5..] + c;
    assert part == "zbin:" + part[5..];
    Regrouped(part[5..], c);
    HoldsBin(a, b);
  }

  lemma Regrouped(b: string, c: string)
    ensures FRAME + (("zbin:" + b) + (c + FRAME)) == BIN + ((b + c) + FRAME)
  {
    assert BIN == FRAME + "zbin:";
  }

  lemma UnlikeFilled(done: seq<string>, args: seq<Arg>, resolve: Resolve, s: string)
    requires CleanDirs(resolve) && !Distinct(args, resolve)
    ensures SubstituteBins(s, resolve) != Led(done + FilledAll(args, resolve)) + FRAME
  {
    var i :| 0 <= i < |args| && "zbin:" <= Filled(args[i], resolve);
    var parts := done + FilledAll(args, resolve);
    assert parts[|done| + i] == Filled(args[i], resolve);
    LedHoldsBin(parts, |done| + i);
    NoneLeft(s, resolve);
  }

  /** Each placeholder among the arguments is filled in where it stands, and nothing else changes,
      exactly if no argument comes out starting like a placeholder. */
  lemma Fill(done: seq<string>, args: seq<Arg>, resolve: Resolve)
    requires CleanDirs(resolve) && done != [] && forall i :: 0 <= i < |done| ==> Safe(done[i])
    requires forall i :: 0 <= i < |args| ==> Framed(args[i])
    ensures SubstituteBins(Led(done + Texts(args)) + FRAME, resolve) == Led(done + FilledAll(args, resolve)) + FRAME
            <==> Distinct(args, resolve)
  {
    if Distinct(args, resolve) {
      FillDistinct(done, args, resolve);
    } else {
      UnlikeFilled(done, args, resolve, Led(done + Texts(args)) + FRAME);
    }
  }

  lemma FillOne(done: seq<string>, bin: Arg, rest: seq<Arg>, resolve: Resolve)
    requires CleanDirs(resolve) && (forall i :: 0 <= i < |done| ==> Safe(done[i])) && bin.Bin? && Framed(bin)
    ensures SubstituteBins(Led(done + ([ArgText(bin)] + Texts(rest))) + FRAME, resolve) ==
            SubstituteBins(Led((done + [Filled(bin, resolve)]) + Texts(rest)) + FRAME, resolve)
  {
    var after := Led(Texts(rest)) + FRAME;
    var dirs := Filled(bin, resolve);
    var token := bin.kind + (":" + bin.ref);
    var s := Led(done) + (FRAME + (BinSentinel(bin.kind, bin.ref) + after));
    LedSplits(done, ArgText(bin), Texts(rest));
    FindsBin(done, bin.kind, bin.ref, after);
    TokenDirs(resolve, bin.kind, bin.ref);
    SubstituteStep(s, Found(Led(done) + FRAME, token, after), resolve);
    Filling(done, dirs, Texts(rest));
  }

  lemma Filling(done: seq<string>, dirs: string, rest: seq<string>)
    ensures Led((done + [dirs]) + rest) + FRAME == (Led(done) + FRAME) + (dirs + (Led(rest) + FRAME))
  {
    LedSplits(done, dirs, rest);
    assert done + ([dirs] + rest) == (done + [dirs]) + rest;
    Associate(Led(done), FRAME, dirs + (Led(rest) + FRAME));
  }

  lemma Associate(a: string, b: string, c: string)
    ensures a + (b + c) == (a + b) + c
  {
  }

  lemma LedSplits(done: seq<string>, part: string, rest: seq<string>)
    ensures Led(done + ([part] + rest)) + FRAME == Led(done) + (FRAME + (part + (Led(rest) + FRAME)))
  {
    LedAppends(done, [part] + rest);
    assert ([part] + rest)[1..] == rest;
  }

  /** The directive, as parts each led in by a NUL. */
  lemma SentinelForm(op: string, args: seq<string>)
    requires args != []
    ensures EnvOpSentinel(op, args) == Led(["zenvop:" + op] + args) + FRAME
  {
    LedIsJoined(args);
    assert (["zenvop:" + op] + args)[1..] == args;
    assert ENV_OP == FRAME + "zenvop:";
  }

  lemma Middle(a: string, b: string, c: string)
    ensures var whole := a + (b + c); whole[|a|..|whole| - |c|] == b && a <= whole && (c != "" ==> whole[|whole| - 1] == c[|c| - 1])
  {
  }

  lemma JoinedBody(op: string, args: seq<string>)
    requires args != []
    ensures Join([op] + args, FRAME) == op + (FRAME + Join(args, FRAME))
    ensures EnvOpSentinel(op, args) == ENV_OP + (Join([op] + args, FRAME) + FRAME)
  {
    assert ([op] + args)[1..] == args;
    Associate(FRAME, Join(args, FRAME), FRAME);
    Associate(op, FRAME + Join(args, FRAME), FRAME);
  }

  lemma Unframed(value: string, prefix: string)
    requires prefix <= value && |prefix| < |value| && value[|value| - 1] == NUL
    ensures value == prefix + (value[|prefix|..|value| - 1] + FRAME)
  {
  }

  lemma HeadIsSafe(op: string)
    requires NUL !in op
    ensures Safe("zenvop:" + op)
  {
    var head := "zenvop:" + op;
    assert head[1] == 'e' && "zbin:"[1] == 'b';
  }

  lemma SomeSurvive(op: string, args: seq<Arg>, resolve: Resolve)
    requires NUL !in op && CleanDirs(resolve) && args != [] && forall i :: 0 <= i < |args| ==> Framed(args[i])
    ensures ParseEnvOp(SubstituteBins(EnvOpSentinel(op, Texts(args)), resolve)) == Some(Directive(op, FilledAll(args, resolve)))
            <==> Distinct(args, resolve)
  {
    HeadIsSafe(op);
    SentinelForm(op, Texts(args));
    Fill(["zenvop:" + op], args, resolve);
    if Distinct(args, resolve) {
      FilledLackNuls(args, resolve);
      ParsesIff(Led(["zenvop:" + op] + FilledAll(args, resolve)) + FRAME, op, FilledAll(args, resolve));
    } else if ParseEnvOp(SubstituteBins(EnvOpSentinel(op, Texts(args)), resolve)) == Some(Directive(op, FilledAll(args, resolve))) {
      ParsesIff(SubstituteBins(EnvOpSentinel(op, Texts(args)), resolve), op, FilledAll(args, resolve));
    }
  }

  lemma FilledLackNuls(args: seq<Arg>, resolve: Resolve)
    requires CleanDirs(resolve) && forall i :: 0 <= i < |args| ==> Framed(args[i])
    ensures forall i :: 0 <= i < |args| ==> NUL !in FilledAll(args, resolve)[i]
  {
    forall i | 0 <= i < |args|
      ensures NUL !in FilledAll(args, resolve)[i]
    {
      assert Framed(args[i]);
    }
  }

  /** An env directive survives substitution: with at least one argument, parsing gives back the
      operation and exactly the arguments, placeholders filled in, if none of those starts like a
      placeholder, and otherwise does not. Without arguments it gives one empty argument instead. */
  lemma DirectiveSurvives(op: string, args: seq<Arg>, resolve: Resolve)
    requires NUL !in op && CleanDirs(resolve) && forall i :: 0 <= i < |args| ==> Framed(args[i])
    ensures ParseEnvOp(SubstituteBins(EnvOpSentinel(op, Texts(args)), resolve)) ==
            Some(Directive(op, if args == [] then [""] else FilledAll(args, resolve)))
            <==> Distinct(args, resolve)
  {
    if args == [] {
      var blank := [Literal("")];
      assert Texts(blank) == [""] && FilledAll(blank, resolve) == [""];
      assert EnvOpSentinel(op, Texts(args)) == EnvOpSentinel(op, Texts(blank));
      assert Distinct(blank, resolve);
      SomeSurvive(op, blank, resolve);
    } else {
      SomeSurvive(op, args, resolve);
    }
  }

  /** A literal that starts with `zbin:` is taken for a placeholder: the text around it closes up, and an
      argument after it becomes part of the operation. */
  lemma LikePlaceholderIsLost(op: string, text: string, next: string, resolve: Resolve)
    requires CleanDirs(resolve) && NUL !in op && NUL !in text && NUL !in next
    ensures ParseEnvOp(SubstituteBins(EnvOpSentinel(op, ["zbin:" + text, next]), resolve)) ==
            Some(Directive(op + (Dirs(resolve, text) + next), []))
  {
    var s := EnvOpSentinel(op, ["zbin:" + text, next]);
    var found := Found(ENV_OP + op, text, next + FRAME);
    TwoArgs(op, text, next);
    HeadIsSafe(op);
    HeadForm(op);
    var inside := text + (FRAME + (next + FRAME));
    PastParts(["zenvop:" + op], BIN + inside);
    CutAt(ENV_OP + op, BIN, inside);
    CutHere(text, FRAME + (next + FRAME), FRAME);
    assert (FRAME + (next + FRAME))[1..] == next + FRAME;
    SubstituteStep(s, found, resolve);
    Closed(op, Dirs(resolve, text), next);
    LastValue(op + (Dirs(resolve, text) + next), resolve);
  }

  lemma HeadForm(op: string)
    ensures Led(["zenvop:" + op]) == ENV_OP + op
  {
    assert ["zenvop:" + op][1..] == [];
    assert ENV_OP == FRAME + "zenvop:";
  }

  lemma TwoArgs(op: string, text: string, next: string)
    ensures EnvOpSentinel(op, ["zbin:" + text, next]) == (ENV_OP + op) + (BIN + (text + (FRAME + (next + FRAME))))
  {
    var args := ["zbin:" + text, next];
    assert args[1..] == [next];
    assert Join(args, FRAME) == ("zbin:" + text) + (FRAME + next);
    Opening(text, next);
  }

  lemma Opening(text: string, next: string)
    ensures FRAME + (("zbin:" + text) + (FRAME + next) + FRAME) == BIN + (text + (FRAME + (next + FRAME)))
  {
    assert BIN == FRAME + "zbin:";
  }

  lemma Closed(op: string, dirs: string, next: string)
    ensures (ENV_OP + op) + (dirs + (next + FRAME)) == ENV_OP + ((op + (dirs + next)) + FRAME)
  {
  }

  lemma LastValue(name: string, resolve: Resolve)
    requires CleanDirs(resolve) && NUL !in name
    ensures SubstituteBins(ENV_OP + (name + FRAME), resolve) == ENV_OP + (name + FRAME)
    ensures ParseEnvOp(ENV_OP + (name + FRAME)) == Some(Directive(name, []))
  {
    var value := ENV_OP + (name + FRAME);
    HeadIsSafe(name);
    HeadForm(name);
    Associate(ENV_OP, name, FRAME);
    PastParts(["zenvop:" + name], FRAME);
    FindTooLong(FRAME, BIN);
    SubstituteDone(value, resolve);
    Middle(ENV_OP, name, FRAME);
    assert |value| > |ENV_OP| && value[|ENV_OP|..|value| - 1] == name;
    FindSkips(name, "", FRAME);
    assert name + "" == name;
    assert [name][1..] == [];
  }

  // ---- any value at all ----

  lemma {:induction false} PartsLackNul(s: string)
    ensures Split(s, FRAME) != [] && forall i :: 0 <= i < |Split(s, FRAME)| ==> NUL !in Split(s, FRAME)[i]
    decreases |s|
  {
    CutLacks(s, NUL);
    if Cut(s, FRAME).Some? {
      PartsLackNul(Cut(s, FRAME).value.1);
    }
  }

  lemma BodyLed(op: string, args: seq<string>)
    ensures Led(["zenvop:" + op] + args) + FRAME == ENV_OP + (Join([op] + args, FRAME) + FRAME)
  {
    if args == [] {
      HeadForm(op);
      assert ["zenvop:" + op] + args == ["zenvop:" + op] && [op] + args == [op];
      Associate(ENV_OP, op, FRAME);
    } else {
      SentinelForm(op, args);
      JoinedBody(op, args);
    }
  }

  predicate NulFree(parts: seq<string>) {
    forall i :: 0 <= i < |parts| ==> NUL !in parts[i]
  }

  lemma ParsesBody(parts: seq<string>)
    requires parts != [] && NulFree(parts)
    ensures ParseEnvOp(ENV_OP + (Join(parts, FRAME) + FRAME)) == Some(Directive(parts[0], parts[1..]))
  {
    var body := Join(parts, FRAME);
    var value := ENV_OP + (body + FRAME);
    Middle(ENV_OP, body, FRAME);
    SplitJoined(parts, FRAME);
    assert value[|ENV_OP|..|value| - 1] == body && |value| > |ENV_OP|;
  }

  lemma ParsedBody(value: string)
    requires ParseEnvOp(value).Some?
    ensures var d := ParseEnvOp(value).value;
            NulFree([d.op] + d.args) && value == ENV_OP + (Join([d.op] + d.args, FRAME) + FRAME)
  {
    var d := ParseEnvOp(value).value;
    var inside := value[|ENV_OP|..|value| - 1];
    PartsLackNul(inside);
    JoinedSplit(inside, FRAME);
    assert Split(inside, FRAME) == [d.op] + d.args;
    Unframed(value, ENV_OP);
  }

  /** Exactly the directives are parsed: `zenvop:`, the operation and each argument, led in and closed by
      NULs. Any other value is plain. */
  lemma ParsesIff(value: string, op: string, args: seq<string>)
    ensures ParseEnvOp(value) == Some(Directive(op, args)) <==>
            NUL !in op && (forall i :: 0 <= i < |args| ==> NUL !in args[i]) && value == Led(["zenvop:" + op] + args) + ['\0']
  {
    BodyLed(op, args);
    var parts := [op] + args;
    assert parts[0] == op && parts[1..] == args;
    assert NulFree(parts) <==> NUL !in op && forall i :: 0 <= i < |args| ==> NUL !in args[i] by {
      assert forall i :: 0 <= i < |args| ==> parts[i + 1] == args[i];
    }
    if ParseEnvOp(value) == Some(Directive(op, args)) {
      ParsedBody(value);
    }
    if NulFree(parts) {
      ParsesBody(parts);
    }
  }

  /** A value without a closed placeholder is left alone. */
  lemma PlainStays(s: string, resolve: Resolve)
    requires CleanDirs(resolve)
    requires forall i :: 0 <= i <= |s| && BIN <= s[i..] ==> NUL !in s[i + |BIN|..]
    ensures SubstituteBins(s, resolve) == s
  {
    if Find(s, BIN).Some? {
      var i := Find(s, BIN).value;
      FindIsFirst(s, BIN, i);
      var rest := s[i + |BIN|..];
      assert Cut(s, BIN).value.1 == rest;
      FindSkips(rest, "", FRAME);
      assert rest + "" == rest;
    }
  }

  lemma FoundFirst(before: string, token: string, after: string, whole: string)
    requires whole == before + (BIN + (token + (FRAME + after))) && NoneBefore(whole, BIN, |before|) && NUL !in token
    ensures FirstBin(whole) == Some(Found(before, token, after))
  {
    var inside := token + (FRAME + after);
    assert whole[|before|..] == BIN + inside;
    FindIsFirst(whole, BIN, |before|);
    CutAt(before, BIN, inside);
    CutHere(token, FRAME + after, FRAME);
    assert (FRAME + after)[1..] == after;
  }

  /** The first placeholder is replaced by its directories, listed with colons; then the rest. */
  lemma FirstReplaced(before: string, kind: string, ref: string, after: string, resolve: Resolve)
    requires CleanDirs(resolve) && NUL !in kind && ':' !in kind && NUL !in ref
    requires NoneBefore(before + (BIN + (kind + (":" + ref) + (FRAME + after))), BIN, |before|)
    ensures SubstituteBins(before + (BIN + (kind + (":" + ref) + (FRAME + after))), resolve) ==
            SubstituteBins(before + (Join(resolve(kind, ref), ":") + after), resolve)
  {
    var token := kind + (":" + ref);
    var whole := before + (BIN + (token + (FRAME + after)));
    FoundFirst(before, token, after, whole);
    SubstituteStep(whole, Found(before, token, after), resolve);
    TokenDirs(resolve, kind, ref);
  }

  /** A placeholder without a kind goes, and nothing comes for it. */
  lemma KindlessErased(before: string, token: string, after: string, resolve: Resolve)
    requires CleanDirs(resolve) && NUL !in token && ':' !in token
    requires NoneBefore(before + (BIN + (token + (FRAME + after))), BIN, |before|)
    ensures SubstituteBins(before + (BIN + (token + (FRAME + after))), resolve) == SubstituteBins(before + after, resolve)
  {
    var whole := before + (BIN + (token + (FRAME + after)));
    FoundFirst(before, token, after, whole);
    SubstituteStep(whole, Found(before, token, after), resolve);
    KindlessDirs(token, after, resolve);
  }

  lemma KindlessDirs(token: string, after: string, resolve: Resolve)
    requires ':' !in token
    ensures Dirs(resolve, token) + after == after
  {
    FindSkips(token, "", ":");
    assert token + "" == token;
  }

  lemma Spread(op: string, one: string, other: string)
    ensures op + (FRAME + ((one + (FRAME + other)) + FRAME)) == op + (FRAME + (one + (FRAME + (other + FRAME))))
  {
    Associate(one, FRAME + other, FRAME);
    Associate(FRAME, other, FRAME);
  }

  /** The placeholders, spelled out. */
  lemma SentinelForms(kind: string, ref: string, op: string, one: string, other: string)
    ensures BinSentinel(kind, ref) == ['\0', 'z', 'b', 'i', 'n', ':'] + (kind + (":" + (ref + ['\0'])))
    ensures EnvOpSentinel(op, [one, other]) ==
            ['\0', 'z', 'e', 'n', 'v', 'o', 'p', ':'] + (op + (['\0'] + (one + (['\0'] + (other + ['\0'])))))
  {
    assert [one, other][1..] == [other];
    assert Join([one, other], FRAME) == one + (FRAME + other);
    Spread(op, one, other);
    assert ENV_OP == ['\0', 'z', 'e', 'n', 'v', 'o', 'p', ':'] && BIN == ['\0', 'z', 'b', 'i', 'n', ':'];
  }
}
