/** What the outcome of external work means for a whole run, and what may cut a wait short, end alpha, or
    start a process. */
module BringupCauses {
  import opened EntityLifecycles
  import opened Wrappers
  import opened BringupModel
  import opened BringupSafety
  import opened BringupTheorems
  import opened BringupLaws

  lemma RunReaches(c: Config, run: seq<Label>, s: World)
    requires Exec(c, Init(c), run) == Some(s)
    ensures Inv(c, s)
  {
    InitInv(c);
    RunInv(c, Init(c), run);
  }

  // ---- outcomes have causes ----

  /** The barrier that stands for each way a phase can end. */
  function OutcomeOf(e: Happening): Ref
    requires !Passing(e) && !Complaint(e)
  {
    match e
    case BuildSucceeds(i) => Ref(Build(i), Success)
    case BuildFails(i) => Ref(Build(i), Failure)
    case ServiceReady(i) => Ref(Runtime(i), Ready)
    case ServiceStops(i) => Ref(Runtime(i), Stopped)
    case ServiceFails(i) => Ref(Runtime(i), Failed)
    case ToolchainReady(k) => Ref(Toolchain(k), Ready)
    case ToolchainFails(k) => Ref(Toolchain(k), Failed)
    case ProvisionSucceeds(p) => Ref(Provision(p), Success)
    case ProvisionFails(p) => Ref(Provision(p), Failure)
  }

  lemma FiredIsBound(s: World, e: Happening)
    requires !Passing(e) && !Complaint(e) && HasFired(s, OutcomeOf(e))
    ensures Bound(s, e)
  {
  }

  /** A build has succeeded only if its command did, a service is ready only if it was probed ready, and
      so on: no outcome fires in a run in which it did not happen. */
  lemma OutcomesHaveCauses(c: Config, run: seq<Label>, s: World, e: Happening)
    requires Exec(c, Init(c), run) == Some(s) && !Passing(e) && !Complaint(e) && HasFired(s, OutcomeOf(e))
    ensures Happened(c, run, e)
  {
    FiredIsBound(s, e);
    BoundIffHappened(c, run, s, e);
  }

  /** The two ways a phase can end. */
  predicate Rivals(e: Happening, f: Happening) {
    && e.n == f.n
    && (|| (e.BuildFails? && f.BuildSucceeds?) || (e.BuildSucceeds? && f.BuildFails?)
        || (e.ServiceFails? && (f.ServiceReady? || f.ServiceStops?)) || ((e.ServiceReady? || e.ServiceStops?) && f.ServiceFails?)
        || (e.ProvisionFails? && f.ProvisionSucceeds?) || (e.ProvisionSucceeds? && f.ProvisionFails?)
        || (e.ToolchainFails? && f.ToolchainReady?) || (e.ToolchainReady? && f.ToolchainFails?))
  }

  lemma SvcIsOne(sp: SvcSpec, v: Svc, e: Happening, f: Happening)
    requires SvcShape(sp, v) && Rivals(e, f) && SvcBound(v, e)
    ensures !SvcBound(v, f)
  {
  }

  lemma ProvIsOne(sp: ProvSpec, v: Prov, e: Happening, f: Happening)
    requires ProvShape(sp, v) && Rivals(e, f) && ProvBound(v, e)
    ensures !ProvBound(v, f)
  {
  }

  lemma BoundToOne(c: Config, s: World, e: Happening, f: Happening)
    requires Inv(c, s) && Rivals(e, f) && Bound(s, e)
    ensures !Bound(s, f)
  {
    if OfService(e) {
      SvcIsOne(c.services[e.n], s.svcs[e.n], e, f);
    } else if OfToolchain(e) {
      assert TcShape(s.tcs[e.n]);
    } else {
      ProvIsOne(c.provisions[e.n], s.provs[e.n], e, f);
    }
  }

  /** What failed never counts as a success, in the whole rest of the run, nor a success as a failure;
      and no run sees both. */
  lemma OutcomesAreFinal(c: Config, run: seq<Label>, s: World, e: Happening, f: Happening)
    requires Exec(c, Init(c), run) == Some(s) && Rivals(e, f) && Happened(c, run, e)
    ensures !HasFired(s, OutcomeOf(f)) && !Happened(c, run, f)
  {
    RivalIsUnbound(c, run, s, e, f);
    UnboundIsNot(c, run, s, f);
  }

  lemma RivalIsUnbound(c: Config, run: seq<Label>, s: World, e: Happening, f: Happening)
    requires Exec(c, Init(c), run) == Some(s) && Rivals(e, f) && Happened(c, run, e)
    ensures !Bound(s, f)
  {
    RunReaches(c, run, s);
    HappenedIsBound(c, run, s, e);
    BoundToOne(c, s, e, f);
  }

  lemma HappenedIsBound(c: Config, run: seq<Label>, s: World, e: Happening)
    requires Exec(c, Init(c), run) == Some(s) && !Passing(e) && !Complaint(e) && Happened(c, run, e)
    ensures Bound(s, e)
  {
    BoundIffHappened(c, run, s, e);
  }

  lemma UnboundIsNot(c: Config, run: seq<Label>, s: World, f: Happening)
    requires Exec(c, Init(c), run) == Some(s) && !Passing(f) && !Complaint(f) && !Bound(s, f)
    ensures !HasFired(s, OutcomeOf(f)) && !Happened(c, run, f)
  {
    BoundIffHappened(c, run, s, f);
    if HasFired(s, OutcomeOf(f)) {
      FiredIsBound(s, f);
    }
  }

  /** The goroutine the event is about has nothing left to do. */
  predicate Returned(s: World, e: Happening) {
    if OfService(e) then e.n < |s.svcs| && s.svcs[e.n].pc.Exited?
    else if OfToolchain(e) then e.n < |s.tcs| && s.tcs[e.n].pc.TcEnd?
    else e.n < |s.provs| && s.provs[e.n].pc.PExited?
  }

  lemma ReturnedHasFired(s: World, e: Happening)
    requires !Passing(e) && Returned(s, e) && Bound(s, e)
    ensures !Complaint(e) && HasFired(s, OutcomeOf(e))
  {
  }

  /** When a goroutine has returned, its barriers tell exactly what happened, and under failfast a
      complaint of its has ended alpha. */
  lemma ReturnedTells(c: Config, run: seq<Label>, s: World, e: Happening)
    requires Exec(c, Init(c), run) == Some(s) && !Passing(e) && Returned(s, e)
    ensures if Complaint(e) then Happened(c, run, e) ==> s.shutdown
            else Happened(c, run, e) <==> HasFired(s, OutcomeOf(e))
  {
    BoundIffHappened(c, run, s, e);
    if Bound(s, e) {
      ReturnedHasFired(s, e);
    }
    if !Complaint(e) && HasFired(s, OutcomeOf(e)) {
      FiredIsBound(s, e);
    }
  }

  // ---- which shells a provision runs ----

  lemma {:induction false} ShellsHaveCauses(c: Config, run: seq<Label>, s: World, n: nat)
    requires Exec(c, Init(c), run) == Some(s) && n < |s.provs| && n < |c.provisions|
    ensures s.provs[n].pc.RunCmd? && c.provisions[n].hasCheck ==> Happened(c, run, CheckRefuses(n))
    ensures s.provs[n].pc.CheckCmd? ==> c.provisions[n].hasCheck
    ensures s.provs[n].pc.VerifyCmd? ==> Happened(c, run, CommandSucceeds(n)) && c.provisions[n].hasVerify
    decreases |run|
  {
    if run != [] {
      var k := |run| - 1;
      var w := ExecLast(c, run, s);
      HappenedLater(c, run, w, CheckRefuses(n));
      HappenedLater(c, run, w, CommandSucceeds(n));
      ShellsHaveCauses(c, run[..k], w, n);
      ShellStep(c, w, run[k], s, n);
    }
  }

  lemma ShellStep(c: Config, w: World, l: Label, s: World, n: nat)
    requires Sized(c, w) && Next(c, w, l) == Some(s) && n < |w.provs|
    ensures |s.provs| == |w.provs|
    ensures s.provs[n].pc.CheckCmd? ==> w.provs[n].pc.CheckCmd? || c.provisions[n].hasCheck
    ensures s.provs[n].pc.RunCmd? && c.provisions[n].hasCheck ==> w.provs[n].pc.RunCmd? || Is(c, w, l, CheckRefuses(n))
    ensures s.provs[n].pc.VerifyCmd? ==> w.provs[n].pc.VerifyCmd? || (Is(c, w, l, CommandSucceeds(n)) && c.provisions[n].hasVerify)
  {
    if l.ProvL? {
      ShellComesFrom(c, w, l.n, l.ch);
    } else if l.AnyL? {
      AnyKeepsFired(w, l.phase, s);
    } else if l.HandlerL? {
      HandlerOnly(c, w, l.ch, s);
    } else if !l.SvcL? && !l.TcL? {
      OnlyFlags(c, w, l, s);
    }
  }

  lemma ShellComesFrom(c: Config, w: World, p: nat, ch: Choice)
    requires Sized(c, w) && p < |w.provs| && ProvStep(c, w, p, ch).Some?
    ensures var pc, next, sp := w.provs[p].pc, ProvStep(c, w, p, ch).value.local.pc, c.provisions[p];
            && (next.CheckCmd? ==> sp.hasCheck)
            && (next.RunCmd? ==> (pc.CwdCheck? && !sp.hasCheck) || (pc.CheckCmd? && ch.Fail?))
            && (next.VerifyCmd? ==> pc.RunCmd? && ch.Go? && sp.hasVerify)
  {
    var pc := w.provs[p].pc;
    if pc.Begin? || pc.FindTemplate? || pc.PWaiting? || pc.Bins? || pc.OwnToolchain? || pc.EnvBins? || pc.PUnwinding? {
      NoShellYet(c, w, p, ch);
    }
  }

  lemma NoShellYet(c: Config, w: World, p: nat, ch: Choice)
    requires Sized(c, w) && p < |w.provs| && ProvStep(c, w, p, ch).Some?
    requires var pc := w.provs[p].pc;
             pc.Begin? || pc.FindTemplate? || pc.PWaiting? || pc.Bins? || pc.OwnToolchain? || pc.EnvBins? || pc.PUnwinding?
    ensures var next := ProvStep(c, w, p, ch).value.local.pc; !next.CheckCmd? && !next.RunCmd? && !next.VerifyCmd?
  {
  }

  /** A provision succeeds only on a passed check or a command that succeeded, and runs the command only
      if there is no check to pass. */
  lemma ProvisionsDoTheirWork(c: Config, run: seq<Label>, s: World, n: nat)
    requires Exec(c, Init(c), run) == Some(s) && HasFired(s, Ref(Provision(n), Success))
    ensures Happened(c, run, CheckPasses(n)) || Happened(c, run, CommandSucceeds(n))
  {
    OutcomesHaveCauses(c, run, s, ProvisionSucceeds(n));
    var k :| At(c, run, k, ProvisionSucceeds(n));
    SuccessAt(c, run, k, n);
  }

  lemma SuccessAt(c: Config, run: seq<Label>, k: int, n: nat)
    requires At(c, run, k, ProvisionSucceeds(n))
    ensures Happened(c, run, CheckPasses(n)) || Happened(c, run, CommandSucceeds(n))
  {
    var w := Exec(c, Init(c), run[..k]).value;
    if w.provs[n].pc.CheckCmd? {
      assert At(c, run, k, CheckPasses(n));
    } else if w.provs[n].pc.RunCmd? {
      assert At(c, run, k, CommandSucceeds(n));
    } else {
      ShellsHaveCauses(c, run[..k], w, n);
      var j :| At(c, run[..k], j, CommandSucceeds(n));
      AtEarlier(c, run, k, j, CommandSucceeds(n));
    }
  }

  // ---- what ends alpha ----

  /** A goroutine's complaint, the handler's, or a request from outside. */
  ghost predicate AskedAt(c: Config, run: seq<Label>, k: int) {
    && 0 <= k < |run|
    && (|| run[k] == Interrupt
        || (exists e :: Complaint(e) && At(c, run, k, e))
        || (run[k] == HandlerL(Go) && Exec(c, Init(c), run[..k]).Some? && Exec(c, Init(c), run[..k]).value.handler.Complain?))
  }

  lemma AskedEarlier(c: Config, run: seq<Label>, n: nat, k: int)
    requires n <= |run| && AskedAt(c, run[..n], k)
    ensures AskedAt(c, run, k)
  {
    assert run[..n][..k] == run[..k] && run[..n][k] == run[k];
    if e :| Complaint(e) && At(c, run[..n], k, e) {
      AtEarlier(c, run, n, k, e);
    }
  }

  lemma ShutdownStep(c: Config, s: World, l: Label, t: World) returns (e: Happening)
    requires Inv(c, s) && Next(c, s, l) == Some(t) && !s.shutdown && t.shutdown
    ensures l == Interrupt || (l == HandlerL(Go) && s.handler.Complain?) || (Complaint(e) && Bound(s, e))
  {
    e := ServiceComplains(0);
    if l.SvcL? {
      e := ServiceComplains(l.n);
      SvcTurnsAs(c, s, l.n, l.ch, e);
    } else if l.ProvL? {
      e := ProvisionComplains(l.n);
      ProvTurnsAs(c, s, l.n, l.ch, e);
    } else {
      OthersAsk(c, s, l, t);
    }
  }

  lemma OthersAsk(c: Config, s: World, l: Label, t: World)
    requires Next(c, s, l) == Some(t) && !s.shutdown && t.shutdown && !l.SvcL? && !l.ProvL?
    ensures l == Interrupt || (l == HandlerL(Go) && s.handler.Complain?)
  {
  }

  /** Shutdown has a cause: an interrupt, a complaint under failfast, or the handler's own error. */
  lemma {:induction false} ShutdownHasACause(c: Config, run: seq<Label>, s: World)
    requires Exec(c, Init(c), run) == Some(s) && s.shutdown
    ensures exists k :: AskedAt(c, run, k)
    decreases |run|
  {
    if run != [] {
      var n := |run| - 1;
      var w := ExecLast(c, run, s);
      if w.shutdown {
        ShutdownHasACause(c, run[..n], w);
        var k :| AskedAt(c, run[..n], k);
        AskedEarlier(c, run, n, k);
      } else {
        var e := ShutdownStep(c, w, run[n], s);
        if run[n] == Interrupt || (run[n] == HandlerL(Go) && w.handler.Complain?) {
          assert AskedAt(c, run, n);
        } else {
          BoundIffHappened(c, run[..n], w, e);
          var k :| At(c, run[..n], k, e);
          AtEarlier(c, run, n, k, e);
          assert AskedAt(c, run, k);
        }
      }
    }
  }

  lemma AskedNeedsFailfast(c: Config, run: seq<Label>, k: int)
    requires AskedAt(c, run, k)
    ensures run[k] == Interrupt || c.failfast
  {
    if run[k] == HandlerL(Go) && Exec(c, Init(c), run[..k]).Some? {
      var w := Exec(c, Init(c), run[..k]).value;
      RunReaches(c, run[..k], w);
      assert HandlerShape(c, w);
    }
  }

  /** Without failfast only a request from outside ends alpha. */
  lemma OnlyFailfastEndsAlpha(c: Config, run: seq<Label>, s: World)
    requires Exec(c, Init(c), run) == Some(s) && s.shutdown
    ensures Interrupt in run || c.failfast
  {
    ShutdownHasACause(c, run, s);
    var k :| AskedAt(c, run, k);
    AskedNeedsFailfast(c, run, k);
  }
}
