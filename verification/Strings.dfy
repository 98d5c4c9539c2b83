/** Searching, cutting and joining strings, as the Go standard library does it. */
module Strings {
  import opened Wrappers

  /** strings.Index. */
  function Find(s: string, sub: string): (i: Option<nat>)
    ensures i.Some? ==> i.value + |sub| <= |s|
  {
    if sub <= s then Some(0)
    else if s == "" then None
    else match Find(s[1..], sub)
      case None => None
      case Some(i) => Some(i + 1)
  }

  lemma {:induction false} FindFinds(s: string, sub: string)
    requires Find(s, sub).Some?
    ensures s[Find(s, sub).value..Find(s, sub).value + |sub|] == sub
  {
    if !(sub <= s) {
      FindFinds(s[1..], sub);
    }
  }

  predicate NoneBefore(s: string, sub: string, i: nat) {
    i <= |s| && forall j :: 0 <= j < i ==> !(sub <= s[j..])
  }

  lemma NoneBeforeNext(s: string, sub: string, i: nat)
    requires 0 < i <= |s|
    ensures NoneBefore(s, sub, i) <==> !(sub <= s) && NoneBefore(s[1..], sub, i - 1)
  {
    assert s[0..] == s;
    if NoneBefore(s, sub, i) {
      forall j | 0 <= j < i - 1
        ensures !(sub <= s[1..][j..])
      {
        assert s[1..][j..] == s[j + 1..];
      }
    } else {
      var j :| 0 <= j < i && sub <= s[j..];
      if j > 0 {
        assert s[1..][j - 1..] == s[j..];
      }
    }
  }

  /** It is found where it stands first. */
  lemma {:induction false} FindIsFirst(s: string, sub: string, i: nat)
    ensures Find(s, sub) == Some(i) <==> NoneBefore(s, sub, i) && sub <= s[i..]
  {
    assert s[0..] == s;
    if 0 < i <= |s| {
      FindIsFirst(s[1..], sub, i - 1);
      NoneBeforeNext(s, sub, i);
      assert s[1..][i - 1..] == s[i..];
    }
  }

  function Shift(n: nat, i: Option<nat>): Option<nat> {
    if i.None? then None else Some(n + i.value)
  }

  /** Nothing that starts with a character `a` lacks is found in `a`. */
  lemma {:induction false} FindSkips(a: string, t: string, sub: string)
    requires sub != "" && sub[0] !in a
    ensures Find(a + t, sub) == Shift(|a|, Find(t, sub))
  {
    if a == "" {
      assert a + t == t;
    } else {
      FindSkips(a[1..], t, sub);
      StartsElsewhere(a, t, sub);
    }
  }

  lemma StartsElsewhere(a: string, t: string, sub: string)
    requires sub != "" && a != "" && sub[0] != a[0]
    ensures !(sub <= a + t) && (a + t)[1..] == a[1..] + t
  {
    assert (a + t)[0] == a[0];
  }

  /** strings.Cut. */
  function Cut(s: string, sep: string): Option<(string, string)> {
    match Find(s, sep)
    case None => None
    case Some(i) => Some((s[..i], s[i + |sep|..]))
  }

  /** Cutting after a part that lacks the separator's first character. */
  lemma CutHere(a: string, t: string, sep: string)
    requires sep != "" && sep[0] !in a && sep <= t
    ensures Cut(a + t, sep) == Some((a, t[|sep|..]))
  {
    FindSkips(a, t, sep);
    assert (a + t)[..|a|] == a && (a + t)[|a| + |sep|..] == t[|sep|..];
  }

  lemma CutLater(a: string, t: string, sep: string)
    requires sep != "" && sep[0] !in a
    ensures Cut(a + t, sep) == match Cut(t, sep) case None => None case Some(p) => Some((a + p.0, p.1))
  {
    FindSkips(a, t, sep);
    if Find(t, sep).Some? {
      CutLaterAt(a, t, sep, Find(t, sep).value);
    }
  }

  lemma CutLaterAt(a: string, t: string, sep: string, i: nat)
    requires Find(t, sep) == Some(i) && Find(a + t, sep) == Some(|a| + i)
    ensures Cut(t, sep).Some? && Cut(a + t, sep) == Some((a + Cut(t, sep).value.0, Cut(t, sep).value.1))
  {
    CutIs(t, sep, i);
    CutIs(a + t, sep, |a| + i);
    SlicesLater(a, t, i, |sep|);
  }

  lemma SlicesLater(a: string, t: string, i: nat, n: nat)
    requires i + n <= |t|
    ensures (a + t)[..|a| + i] == a + t[..i] && (a + t)[|a| + i + n..] == t[i + n..]
  {
    var k := i + n;
    JoinedSlices(a, t, i);
    JoinedSlices(a, t, k);
    assert |a| + i + n == |a| + k;
  }

  lemma CutIs(s: string, sep: string, i: nat)
    requires Find(s, sep) == Some(i)
    ensures Cut(s, sep) == Some((s[..i], s[i + |sep|..]))
  {
  }

  lemma JoinedSlices(a: string, t: string, i: nat)
    requires i <= |t|
    ensures (a + t)[..|a| + i] == a + t[..i] && (a + t)[|a| + i..] == t[i..]
  {
  }

  lemma {:induction false} CutLacks(s: string, c: char)
    ensures Cut(s, [c]).None? ==> c !in s
    ensures Cut(s, [c]).Some? ==> c !in Cut(s, [c]).value.0 && Cut(s, [c]).value.0 <= s
  {
    if s != "" && s[0] != c {
      CutLacks(s[1..], c);
      assert s == [s[0]] + s[1..];
      CutLater([s[0]], s[1..], [c]);
    }
  }

  lemma {:induction false} FoundIn(a: string, sub: string, b: string, whole: string)
    requires whole == a + (sub + b)
    ensures Find(whole, sub).Some?
  {
    if a == "" {
      assert whole == sub + b;
    } else {
      assert whole[1..] == a[1..] + (sub + b);
      FoundIn(a[1..], sub, b, whole[1..]);
    }
  }

  function CutPrefix(s: string, prefix: string): Option<string> {
    if prefix <= s then Some(s[|prefix|..]) else None
  }

  function CutSuffix(s: string, suffix: string): Option<string> {
    if |suffix| <= |s| && s[|s| - |suffix|..] == suffix then Some(s[..|s| - |suffix|]) else None
  }

  /** strings.LastIndexByte. */
  function FindLast(s: string, c: char): (i: Option<nat>)
    ensures i.Some? ==> i.value < |s| && s[i.value] == c
  {
    if s == "" then None
    else if s[|s| - 1] == c then Some(|s| - 1)
    else FindLast(s[..|s| - 1], c)
  }

  lemma {:induction false} FindLastHere(a: string, c: char, b: string)
    requires c !in b
    ensures FindLast(a + [c] + b, c) == Some(|a|)
  {
    var s := a + [c] + b;
    if b != "" {
      assert s[..|s| - 1] == a + [c] + b[..|b| - 1];
      FindLastHere(a, c, b[..|b| - 1]);
    }
  }

  lemma {:induction false} FindLastNone(s: string, c: char)
    requires c !in s
    ensures FindLast(s, c) == None
  {
    if s != "" {
      FindLastNone(s[..|s| - 1], c);
    }
  }

  /** The last one has none after it. */
  lemma {:induction false} FindLastIsLast(s: string, c: char, i: nat)
    ensures FindLast(s, c) == Some(i) <==> i < |s| && s[i] == c && c !in s[i + 1..]
  {
    if s != "" && s[|s| - 1] != c {
      var n := |s| - 1;
      FindLastIsLast(s[..n], c, i);
      if i < n {
        assert s[i + 1..] == s[..n][i + 1..] + [s[n]];
      }
    } else if s != "" && i < |s| - 1 {
      assert s[i + 1..][|s| - 2 - i] == c;
    }
  }

  lemma {:induction false} FindLastPast(a: string, t: string, c: char)
    requires c !in a
    ensures FindLast(a + t, c) == Shift(|a|, FindLast(t, c))
  {
    if t == "" {
      assert a + t == a;
      FindLastNone(a, c);
    } else {
      assert (a + t)[..|a + t| - 1] == a + t[..|t| - 1];
      FindLastPast(a, t[..|t| - 1], c);
    }
  }

  /** strings.Join. */
  function Join(parts: seq<string>, sep: string): string {
    if parts == [] then ""
    else if |parts| == 1 then parts[0]
    else parts[0] + (sep + Join(parts[1..], sep))
  }

  lemma {:induction false} JoinLacks(parts: seq<string>, sep: string, c: char)
    requires c !in sep && forall i :: 0 <= i < |parts| ==> c !in parts[i]
    ensures c !in Join(parts, sep)
  {
    if |parts| > 1 {
      JoinLacks(parts[1..], sep, c);
    }
  }

  lemma {:induction false} JoinAppends(a: seq<string>, b: seq<string>, sep: string)
    requires a != [] && b != []
    ensures Join(a + b, sep) == Join(a, sep) + sep + Join(b, sep)
  {
    assert (a + b)[1..] == a[1..] + b;
    if |a| > 1 {
      JoinAppends(a[1..], b, sep);
    }
  }

  /** strings.Split. */
  function Split(s: string, sep: string): seq<string>
    requires sep != ""
    decreases |s|
  {
    match Cut(s, sep)
    case None => [s]
    case Some(p) => [p.0] + Split(p.1, sep)
  }

  /** Splitting undoes joining for parts that lack the separator's first character. */
  lemma {:induction false} SplitJoined(parts: seq<string>, sep: string)
    requires parts != [] && sep != "" && forall i :: 0 <= i < |parts| ==> sep[0] !in parts[i]
    ensures Split(Join(parts, sep), sep) == parts
  {
    if |parts| == 1 {
      FindSkips(parts[0], "", sep);
      assert parts[0] + "" == parts[0];
    } else {
      var rest := Join(parts[1..], sep);
      CutHere(parts[0], sep + rest, sep);
      assert (sep + rest)[|sep|..] == rest;
      SplitJoined(parts[1..], sep);
    }
  }

  lemma CutJoins(s: string, sep: string)
    ensures Cut(s, sep).Some? ==> s == Cut(s, sep).value.0 + (sep + Cut(s, sep).value.1)
  {
    if Find(s, sep).Some? {
      FindFinds(s, sep);
    }
  }

  /** Joining undoes splitting. */
  lemma {:induction false} JoinedSplit(s: string, sep: string)
    requires sep != ""
    ensures Join(Split(s, sep), sep) == s
    decreases |s|
  {
    CutJoins(s, sep);
    match Cut(s, sep)
    case None =>
    case Some(p) =>
      JoinedSplit(p.1, sep);
      assert ([p.0] + Split(p.1, sep))[1..] == Split(p.1, sep);
  }

  lemma SplitLater(a: string, t: string, sep: string)
    requires sep != "" && sep[0] !in a
    ensures Split(a + (sep + t), sep) == [a] + Split(t, sep)
  {
    CutHere(a, sep + t, sep);
    assert (sep + t)[|sep|..] == t;
  }

  lemma Regroup(a: string, x: string, b: string, y: string, c: string, d: string)
    ensures a + x + b + y + c + d == a + (x + (b + (y + (c + d))))
  {
  }

  lemma {:induction false} FindTooLong(s: string, sub: string)
    requires |s| < |sub|
    ensures Find(s, sub) == None
  {
    if s != "" {
      FindTooLong(s[1..], sub);
    }
  }

  lemma CutAt(a: string, sep: string, b: string)
    requires Find(a + (sep + b), sep) == Some(|a|)
    ensures Cut(a + (sep + b), sep) == Some((a, b))
  {
    assert (a + (sep + b))[..|a|] == a && (a + (sep + b))[|a| + |sep|..] == b;
  }
}
