/** Every configure run is finite, and what it comes to rest in. */
module BringupProgress {
  import opened Wrappers
  import opened BringupModel
  import opened BringupSafety

  // ---- every step spends some of a finite budget ----

  function Left(n: nat, of: nat): nat {
    if n <= of then of - n else 0
  }

  function Unset(b: bool): nat {
    if b then 0 else 1
  }

  function SvcLeft(sp: SvcSpec, v: Svc): nat {
    Unset(v.stop) + Unset(v.removed) + Unset(v.build.done) + Unset(v.run.done) +
    match v.pc
    case Waiting(early, k, held) =>
      Unset(held) + if early then 20 + 2 * |sp.after| + 2 * Left(k, 1) else 14 + 2 * Left(k, |sp.after|)
    case Locking => 19 + 2 * |sp.after|
    case InWorkspace => 18 + 2 * |sp.after|
    case Building => 17 + 2 * |sp.after|
    case Gate => 16 + 2 * |sp.after|
    case Starting => 13
    case Probing => 12
    case Up => 11
    case Killing(_) => 10
    case Unwinding(todo) => 1 + |todo|
    case Exited => 0
  }

  function ProvLeft(sp: ProvSpec, v: Prov): nat {
    Unset(v.stop) + Unset(v.removed) + Unset(v.run.done) +
    match v.pc
    case Begin => 19 + 2 * |sp.after| + |sp.bins| + |sp.envBins|
    case FindTemplate => 18 + 2 * |sp.after| + |sp.bins| + |sp.envBins|
    case PWaiting(k, held) => Unset(held) + 16 + 2 * Left(k, |sp.after|) + |sp.bins| + |sp.envBins|
    case Bins(k) => 15 + Left(k, |sp.bins|) + |sp.envBins|
    case OwnToolchain => 14 + |sp.envBins|
    case EnvBins(k) => 13 + Left(k, |sp.envBins|)
    case CwdCheck => 12
    case CheckCmd => 11
    case RunCmd => 10
    case VerifyCmd => 9
    case PUnwinding(todo) => 1 + |todo|
    case PExited => 0
    case Dormant => 0
  }

  function TcLeft(t: Tc): nat {
    Unset(t.run.done) + match t.pc case TcStart => 2 case TcInstall => 1 case TcEnd => 0
  }

  function HandlerLeft(s: World): nat {
    var n, m := |s.svcs|, |s.provs|;
    match s.handler
    case AwaitSvc(k) => Left(k, n) + n + 2 * m + 10
    case CheckSvc(k) => Left(k, n) + 2 * m + 9
    case AwaitProv(k) => Left(k, m) + m + 8
    case CheckProv(k) => Left(k, m) + 7
    case Release => 6
    case Announce => 5
    case Complain => 4
    case HandlerEnd => 0
  }

  function SweeperLeft(s: World): nat {
    var all := |s.svcs| + |s.provs|;
    match s.sweeper
    case Idle => 2 * all + 4
    case Stopping(n) => Left(n, all) + all + 3
    case Reaping(n) => Left(n, all) + 2
    case Swept => 0
  }

  function Sum(w: seq<nat>): nat {
    if w == [] then 0 else w[0] + Sum(w[1..])
  }

  function SvcsLeft(c: Config, s: World): seq<nat>
    requires Sized(c, s)
  {
    seq(|s.svcs|, i requires 0 <= i < |s.svcs| => SvcLeft(c.services[i], s.svcs[i]))
  }

  function ProvsLeft(c: Config, s: World): seq<nat>
    requires Sized(c, s)
  {
    seq(|s.provs|, p requires 0 <= p < |s.provs| => ProvLeft(c.provisions[p], s.provs[p]))
  }

  function TcsLeft(s: World): seq<nat> {
    seq(|s.tcs|, k requires 0 <= k < |s.tcs| => TcLeft(s.tcs[k]))
  }

  /** The most steps a run from `s` can still take. */
  function Budget(c: Config, s: World): nat
    requires Sized(c, s)
  {
    Sum(SvcsLeft(c, s)) + Sum(ProvsLeft(c, s)) + Sum(TcsLeft(s)) + Unset(s.shutdown) + HandlerLeft(s) + SweeperLeft(s)
  }

  lemma {:induction false} SumFalls(v: seq<nat>, w: seq<nat>)
    requires |v| == |w| && forall i :: 0 <= i < |v| ==> w[i] <= v[i]
    ensures Sum(w) <= Sum(v)
    ensures forall i :: 0 <= i < |v| && w[i] < v[i] ==> Sum(w) < Sum(v)
  {
    if v != [] {
      SumFalls(v[1..], w[1..]);
      forall i | 0 <= i < |v| && w[i] < v[i]
        ensures Sum(w) < Sum(v)
      {
        if i > 0 {
          assert w[1..][i - 1] < v[1..][i - 1];
        }
      }
    }
  }

  lemma SvcStepSpends(c: Config, s: World, i: nat, ch: Choice)
    requires Sized(c, s) && i < |s.svcs| && SvcShape(c.services[i], s.svcs[i]) && SvcStep(c, s, i, ch).Some?
    ensures SvcLeft(c.services[i], SvcStep(c, s, i, ch).value.local) < SvcLeft(c.services[i], s.svcs[i])
  {
    if s.svcs[i].pc.Waiting? {
      SvcWaitSpends(c, s, i, ch);
    } else if s.svcs[i].pc.Unwinding? {
      SvcUnwindSpends(c, s, i, ch);
    } else if s.svcs[i].pc.Killing? {
      SvcKillSpends(c, s, i, ch);
    }
  }

  lemma SvcWaitSpends(c: Config, s: World, i: nat, ch: Choice)
    requires Sized(c, s) && i < |s.svcs| && SvcShape(c.services[i], s.svcs[i]) && SvcStep(c, s, i, ch).Some?
    requires s.svcs[i].pc.Waiting?
    ensures SvcLeft(c.services[i], SvcStep(c, s, i, ch).value.local) < SvcLeft(c.services[i], s.svcs[i])
  {
  }

  lemma SvcUnwindSpends(c: Config, s: World, i: nat, ch: Choice)
    requires Sized(c, s) && i < |s.svcs| && s.svcs[i].pc.Unwinding? && SvcStep(c, s, i, ch).Some?
    ensures SvcLeft(c.services[i], SvcStep(c, s, i, ch).value.local) < SvcLeft(c.services[i], s.svcs[i])
  {
  }

  lemma SvcKillSpends(c: Config, s: World, i: nat, ch: Choice)
    requires Sized(c, s) && i < |s.svcs| && s.svcs[i].pc.Killing? && SvcStep(c, s, i, ch).Some?
    ensures SvcLeft(c.services[i], SvcStep(c, s, i, ch).value.local) < SvcLeft(c.services[i], s.svcs[i])
  {
  }

  lemma ProvStepSpends(c: Config, s: World, p: nat, ch: Choice)
    requires Sized(c, s) && p < |s.provs| && ProvShape(c.provisions[p], s.provs[p]) && ProvStep(c, s, p, ch).Some?
    ensures ProvLeft(c.provisions[p], ProvStep(c, s, p, ch).value.local) < ProvLeft(c.provisions[p], s.provs[p])
  {
    if s.provs[p].pc.PUnwinding? {
      ProvUnwindSpends(c, s, p, ch);
    } else if s.provs[p].pc.CwdCheck? || s.provs[p].pc.CheckCmd? || s.provs[p].pc.RunCmd? || s.provs[p].pc.VerifyCmd? {
      ProvShellSpends(c, s, p, ch);
    } else if s.provs[p].pc.Bins? || s.provs[p].pc.OwnToolchain? || s.provs[p].pc.EnvBins? {
      ProvToolsSpend(c, s, p, ch);
    } else {
      ProvWaitSpends(c, s, p, ch);
    }
  }

  lemma ProvUnwindSpends(c: Config, s: World, p: nat, ch: Choice)
    requires Sized(c, s) && p < |s.provs| && s.provs[p].pc.PUnwinding? && ProvStep(c, s, p, ch).Some?
    ensures ProvLeft(c.provisions[p], ProvStep(c, s, p, ch).value.local) < ProvLeft(c.provisions[p], s.provs[p])
  {
  }

  lemma ProvShellSpends(c: Config, s: World, p: nat, ch: Choice)
    requires Sized(c, s) && p < |s.provs| && ProvStep(c, s, p, ch).Some?
    requires var pc := s.provs[p].pc; pc.CwdCheck? || pc.CheckCmd? || pc.RunCmd? || pc.VerifyCmd?
    ensures ProvLeft(c.provisions[p], ProvStep(c, s, p, ch).value.local) < ProvLeft(c.provisions[p], s.provs[p])
  {
  }

  lemma ProvWaitSpends(c: Config, s: World, p: nat, ch: Choice)
    requires Sized(c, s) && p < |s.provs| && ProvShape(c.provisions[p], s.provs[p]) && ProvStep(c, s, p, ch).Some?
    requires s.provs[p].pc.Begin? || s.provs[p].pc.FindTemplate? || s.provs[p].pc.PWaiting?
    ensures ProvLeft(c.provisions[p], ProvStep(c, s, p, ch).value.local) < ProvLeft(c.provisions[p], s.provs[p])
  {
  }

  lemma ProvToolsSpend(c: Config, s: World, p: nat, ch: Choice)
    requires Sized(c, s) && p < |s.provs| && ProvStep(c, s, p, ch).Some?
    requires s.provs[p].pc.Bins? || s.provs[p].pc.OwnToolchain? || s.provs[p].pc.EnvBins?
    ensures ProvLeft(c.provisions[p], ProvStep(c, s, p, ch).value.local) < ProvLeft(c.provisions[p], s.provs[p])
  {
  }

  /** No goroutine, handler or flag ever gains budget, and the one that moves loses some. */
  ghost predicate Spends(c: Config, s: World, t: World)
    requires Sized(c, s) && Sized(c, t)
  {
    && (forall i :: 0 <= i < |s.svcs| ==> SvcLeft(c.services[i], t.svcs[i]) <= SvcLeft(c.services[i], s.svcs[i]))
    && (forall p :: 0 <= p < |s.provs| ==> ProvLeft(c.provisions[p], t.provs[p]) <= ProvLeft(c.provisions[p], s.provs[p]))
    && (forall k :: 0 <= k < |s.tcs| ==> TcLeft(t.tcs[k]) <= TcLeft(s.tcs[k]))
    && (s.shutdown ==> t.shutdown) && HandlerLeft(t) <= HandlerLeft(s) && SweeperLeft(t) <= SweeperLeft(s)
    && (|| (exists i :: 0 <= i < |s.svcs| && SvcLeft(c.services[i], t.svcs[i]) < SvcLeft(c.services[i], s.svcs[i]))
        || (exists p :: 0 <= p < |s.provs| && ProvLeft(c.provisions[p], t.provs[p]) < ProvLeft(c.provisions[p], s.provs[p]))
        || (exists k :: 0 <= k < |s.tcs| && TcLeft(t.tcs[k]) < TcLeft(s.tcs[k]))
        || (!s.shutdown && t.shutdown) || HandlerLeft(t) < HandlerLeft(s) || SweeperLeft(t) < SweeperLeft(s))
  }

  lemma SvcsFall(c: Config, s: World, t: World)
    requires Sized(c, s) && Sized(c, t) && forall i :: 0 <= i < |s.svcs| ==> SvcLeft(c.services[i], t.svcs[i]) <= SvcLeft(c.services[i], s.svcs[i])
    ensures Sum(SvcsLeft(c, t)) <= Sum(SvcsLeft(c, s))
    ensures (exists i :: 0 <= i < |s.svcs| && SvcLeft(c.services[i], t.svcs[i]) < SvcLeft(c.services[i], s.svcs[i])) ==>
              Sum(SvcsLeft(c, t)) < Sum(SvcsLeft(c, s))
  {
    var a, b := SvcsLeft(c, s), SvcsLeft(c, t);
    SumFalls(a, b);
    if i :| 0 <= i < |s.svcs| && SvcLeft(c.services[i], t.svcs[i]) < SvcLeft(c.services[i], s.svcs[i]) {
      assert b[i] < a[i];
    }
  }

  lemma ProvsFall(c: Config, s: World, t: World)
    requires Sized(c, s) && Sized(c, t) && forall p :: 0 <= p < |s.provs| ==> ProvLeft(c.provisions[p], t.provs[p]) <= ProvLeft(c.provisions[p], s.provs[p])
    ensures Sum(ProvsLeft(c, t)) <= Sum(ProvsLeft(c, s))
    ensures (exists p :: 0 <= p < |s.provs| && ProvLeft(c.provisions[p], t.provs[p]) < ProvLeft(c.provisions[p], s.provs[p])) ==>
              Sum(ProvsLeft(c, t)) < Sum(ProvsLeft(c, s))
  {
    var a, b := ProvsLeft(c, s), ProvsLeft(c, t);
    SumFalls(a, b);
    if p :| 0 <= p < |s.provs| && ProvLeft(c.provisions[p], t.provs[p]) < ProvLeft(c.provisions[p], s.provs[p]) {
      assert b[p] < a[p];
    }
  }

  lemma TcsFall(s: World, t: World)
    requires |s.tcs| == |t.tcs| && forall k :: 0 <= k < |s.tcs| ==> TcLeft(t.tcs[k]) <= TcLeft(s.tcs[k])
    ensures Sum(TcsLeft(t)) <= Sum(TcsLeft(s))
    ensures (exists k :: 0 <= k < |s.tcs| && TcLeft(t.tcs[k]) < TcLeft(s.tcs[k])) ==> Sum(TcsLeft(t)) < Sum(TcsLeft(s))
  {
    var a, b := TcsLeft(s), TcsLeft(t);
    SumFalls(a, b);
    if k :| 0 <= k < |s.tcs| && TcLeft(t.tcs[k]) < TcLeft(s.tcs[k]) {
      assert b[k] < a[k];
    }
  }

  lemma SpendingLowersBudget(c: Config, s: World, t: World)
    requires Sized(c, s) && Sized(c, t) && Spends(c, s, t)
    ensures Budget(c, t) < Budget(c, s)
  {
    SvcsFall(c, s, t);
    ProvsFall(c, s, t);
    TcsFall(s, t);
  }

  lemma StepSpends(c: Config, s: World, l: Label, t: World)
    requires Inv(c, s) && Next(c, s, l) == Some(t)
    ensures Sized(c, t) && Spends(c, s, t)
  {
    if l.SvcL? {
      SvcMoveSpends(c, s, l.n, l.ch, t);
    } else if l.ProvL? {
      ProvMoveSpends(c, s, l.n, l.ch, t);
    } else if l.TcL? {
      assert TcLeft(t.tcs[l.n]) < TcLeft(s.tcs[l.n]);
    } else if l.AnyL? {
      AnySpends(c, s, l.phase, t);
    } else if l.HandlerL? {
      HandlerOnly(c, s, l.ch, t);
      HandlerSpends(c, s, l.ch, t);
    } else if l.SweeperL? {
      SweeperSpends(c, s, t);
    } else {
      OutsideSpends(c, s, l, t);
    }
  }

  lemma SvcMoveSpends(c: Config, s: World, i: nat, ch: Choice, t: World)
    requires Inv(c, s) && Next(c, s, SvcL(i, ch)) == Some(t)
    ensures Sized(c, t) && Spends(c, s, t)
  {
    SvcStepSpends(c, s, i, ch);
    assert SvcLeft(c.services[i], t.svcs[i]) < SvcLeft(c.services[i], s.svcs[i]);
  }

  lemma ProvMoveSpends(c: Config, s: World, p: nat, ch: Choice, t: World)
    requires Inv(c, s) && Next(c, s, ProvL(p, ch)) == Some(t)
    ensures Sized(c, t) && Spends(c, s, t)
  {
    ProvStepSpends(c, s, p, ch);
    assert ProvLeft(c.provisions[p], t.provs[p]) < ProvLeft(c.provisions[p], s.provs[p]);
  }

  lemma AnySpends(c: Config, s: World, p: Phase, t: World)
    requires Sized(c, s) && AnyStep(s, p) == Some(t)
    ensures Sized(c, t) && Spends(c, s, t)
  {
    if p.Build? || p.Runtime? {
      AnySvcSpends(c, s, p, t);
    } else if p.Toolchain? {
      assert TcLeft(t.tcs[p.n]) < TcLeft(s.tcs[p.n]);
    } else {
      assert ProvLeft(c.provisions[p.n], t.provs[p.n]) < ProvLeft(c.provisions[p.n], s.provs[p.n]);
    }
  }

  lemma AnySvcSpends(c: Config, s: World, p: Phase, t: World)
    requires Sized(c, s) && AnyStep(s, p) == Some(t) && (p.Build? || p.Runtime?)
    ensures Sized(c, t) && Spends(c, s, t)
  {
    assert SvcLeft(c.services[p.n], t.svcs[p.n]) < SvcLeft(c.services[p.n], s.svcs[p.n]);
  }

  lemma HandlerSpends(c: Config, s: World, ch: Choice, t: World)
    requires Sized(c, s) && HandlerStep(c, s, ch) == Some(t)
    ensures HandlerLeft(t) < HandlerLeft(s) && SweeperLeft(t) == SweeperLeft(s)
  {
    HandlerOnly(c, s, ch, t);
    if s.handler.AwaitSvc? || s.handler.CheckSvc? {
      HandlerSvcSpends(c, s, ch, t);
    } else if s.handler.AwaitProv? || s.handler.CheckProv? {
      HandlerProvSpends(c, s, ch, t);
    }
  }

  lemma HandlerSvcSpends(c: Config, s: World, ch: Choice, t: World)
    requires Sized(c, s) && HandlerStep(c, s, ch) == Some(t) && (s.handler.AwaitSvc? || s.handler.CheckSvc?)
    ensures HandlerLeft(t) < HandlerLeft(s)
  {
    assert |t.svcs| == |s.svcs| && |t.provs| == |s.provs|;
  }

  lemma HandlerProvSpends(c: Config, s: World, ch: Choice, t: World)
    requires Sized(c, s) && HandlerStep(c, s, ch) == Some(t) && (s.handler.AwaitProv? || s.handler.CheckProv?)
    ensures HandlerLeft(t) < HandlerLeft(s)
  {
    assert |t.svcs| == |s.svcs| && |t.provs| == |s.provs|;
  }

  /** Flags only get set. */
  ghost predicate FlagsSet(s: World, t: World) {
    && OnlyFlagsMove(s, t)
    && (forall i :: 0 <= i < |s.svcs| && s.svcs[i].removed ==> t.svcs[i].removed)
    && (forall p :: 0 <= p < |s.provs| && s.provs[p].removed ==> t.provs[p].removed)
  }

  lemma FlagsSpend(c: Config, s: World, t: World)
    requires Sized(c, s) && FlagsSet(s, t)
    ensures Sized(c, t)
    ensures forall i :: 0 <= i < |s.svcs| ==> SvcLeft(c.services[i], t.svcs[i]) <= SvcLeft(c.services[i], s.svcs[i])
    ensures forall p :: 0 <= p < |s.provs| ==> ProvLeft(c.provisions[p], t.provs[p]) <= ProvLeft(c.provisions[p], s.provs[p])
    ensures HandlerLeft(t) == HandlerLeft(s)
  {
  }

  lemma SweeperSpends(c: Config, s: World, t: World)
    requires Sized(c, s) && SweeperStep(s) == Some(t)
    ensures Sized(c, t) && Spends(c, s, t)
  {
    SweeperSetsFlags(s, t);
    FlagsSpend(c, s, t);
    SweeperMovesOn(s, t);
  }

  lemma SweeperSetsFlags(s: World, t: World)
    requires SweeperStep(s) == Some(t)
    ensures FlagsSet(s, t)
  {
    SweeperOnlyFlags(s, t);
  }

  lemma SweeperMovesOn(s: World, t: World)
    requires SweeperStep(s) == Some(t) && |t.svcs| == |s.svcs| && |t.provs| == |s.provs|
    ensures SweeperLeft(t) < SweeperLeft(s)
  {
  }

  lemma OutsideSpends(c: Config, s: World, l: Label, t: World)
    requires l.Interrupt? || l.StopSvc? || l.StopProv? || l.RemoveSvc? || l.RemoveProv?
    requires Sized(c, s) && Next(c, s, l) == Some(t)
    ensures Sized(c, t) && Spends(c, s, t)
  {
    OutsideSetsFlags(c, s, l, t);
    FlagsSpend(c, s, t);
    if l.StopSvc? || l.RemoveSvc? {
      SvcFlagSpends(c, s, l, t);
    } else if l.StopProv? || l.RemoveProv? {
      ProvFlagSpends(c, s, l, t);
    }
  }

  lemma SvcFlagSpends(c: Config, s: World, l: Label, t: World)
    requires l.StopSvc? || l.RemoveSvc?
    requires Sized(c, s) && Next(c, s, l) == Some(t)
    ensures l.n < |s.svcs| && |t.svcs| == |s.svcs| && SvcLeft(c.services[l.n], t.svcs[l.n]) < SvcLeft(c.services[l.n], s.svcs[l.n])
  {
  }

  lemma ProvFlagSpends(c: Config, s: World, l: Label, t: World)
    requires l.StopProv? || l.RemoveProv?
    requires Sized(c, s) && Next(c, s, l) == Some(t)
    ensures l.n < |s.provs| && |t.provs| == |s.provs|
    ensures ProvLeft(c.provisions[l.n], t.provs[l.n]) < ProvLeft(c.provisions[l.n], s.provs[l.n])
  {
  }

  lemma OutsideSetsFlags(c: Config, s: World, l: Label, t: World)
    requires l.Interrupt? || l.StopSvc? || l.StopProv? || l.RemoveSvc? || l.RemoveProv?
    requires Sized(c, s) && Next(c, s, l) == Some(t)
    ensures FlagsSet(s, t) && SweeperLeft(t) == SweeperLeft(s)
  {
    OnlyFlags(c, s, l, t);
  }

  /** Runs are finite: none is longer than the budget it starts with. */
  lemma {:induction false} RunsAreFinite(c: Config, s: World, run: seq<Label>)
    requires Inv(c, s) && Exec(c, s, run).Some?
    ensures |run| <= Budget(c, s)
    decreases run
  {
    if run != [] {
      var t := Next(c, s, run[0]).value;
      StepSpends(c, s, run[0], t);
      SpendingLowersBudget(c, s, t);
      InvKept(c, s, run[0], t);
      RunsAreFinite(c, t, run[1..]);
    }
  }
}
