/** What goroutines keep to in every reachable world: one checkout per primary at a time, no shell before
    its toolchains are settled, no process after a stop, no wait cut short without a reason, and a sweep
    that leaves nothing out. */
module BringupGuards {
  import opened EntityLifecycles
  import opened Wrappers
  import opened BringupModel
  import opened BringupSafety
  import opened BringupLaws
  import opened BringupCauses

  // ---- one checkout per primary ----

  ghost predicate OneCheckoutEach(c: Config, s: World)
    requires Sized(c, s)
  {
    forall i, j :: 0 <= i < j < |s.svcs| && s.svcs[i].pc.InWorkspace? && s.svcs[j].pc.InWorkspace? ==>
      c.services[i].primary.None? || c.services[j].primary.None? || c.services[i].primary != c.services[j].primary
  }

  lemma EntersAlone(c: Config, s: World, i: nat, ch: Choice)
    requires Sized(c, s) && i < |s.svcs| && SvcStep(c, s, i, ch).Some? && SvcStep(c, s, i, ch).value.local.pc.InWorkspace?
    ensures c.services[i].primary.None? || WorkspaceFree(c, s, i) || s.svcs[i].pc.InWorkspace?
  {
    if !s.svcs[i].pc.Locking? && !s.svcs[i].pc.Waiting? {
      EntersFromThere(c, s, i, ch);
    }
  }

  lemma EntersFromThere(c: Config, s: World, i: nat, ch: Choice)
    requires Sized(c, s) && i < |s.svcs| && SvcStep(c, s, i, ch).Some? && SvcStep(c, s, i, ch).value.local.pc.InWorkspace?
    ensures s.svcs[i].pc.Waiting? || s.svcs[i].pc.Locking?
  {
    var pc := s.svcs[i].pc;
    if pc.Killing? || pc.Unwinding? || pc.Exited? {
      EndsElsewhere(c, s, i, ch);
    }
  }

  lemma EndsElsewhere(c: Config, s: World, i: nat, ch: Choice)
    requires Sized(c, s) && i < |s.svcs| && SvcStep(c, s, i, ch).Some?
    requires s.svcs[i].pc.Killing? || s.svcs[i].pc.Unwinding? || s.svcs[i].pc.Exited?
    ensures !SvcStep(c, s, i, ch).value.local.pc.InWorkspace?
  {
  }

  lemma CheckoutsKept(c: Config, s: World, l: Label, t: World)
    requires Sized(c, s) && OneCheckoutEach(c, s) && Next(c, s, l) == Some(t)
    ensures Sized(c, t) && OneCheckoutEach(c, t)
  {
    if l.SvcL? {
      if t.svcs[l.n].pc.InWorkspace? {
        EntersAlone(c, s, l.n, l.ch);
      }
    } else if l.AnyL? {
      AnyKeepsFired(s, l.phase, t);
    } else if l.HandlerL? {
      HandlerOnly(c, s, l.ch, t);
    } else if !l.ProvL? && !l.TcL? {
      OnlyFlags(c, s, l, t);
    }
  }

  // ---- toolchains settled before shells ----

  ghost predicate OpenUpTo(s: World, bins: seq<nat>, k: nat) {
    forall j :: 0 <= j < k && j < |bins| ==> ToolchainOpen(s, bins[j])
  }

  ghost predicate BinsOpen(s: World, sp: ProvSpec, v: Prov) {
    && (v.pc.Bins? ==> OpenUpTo(s, sp.bins, v.pc.k))
    && (v.pc.OwnToolchain? || v.pc.EnvBins? || v.pc.CwdCheck? || v.ran ==> OpenUpTo(s, sp.bins, |sp.bins|))
    && (v.pc.EnvBins? ==> OpenUpTo(s, sp.envBins, v.pc.k))
    && (v.pc.CwdCheck? || v.ran ==> OpenUpTo(s, sp.envBins, |sp.envBins|))
  }

  ghost predicate AllBinsOpen(c: Config, s: World)
    requires Sized(c, s)
  {
    forall p :: 0 <= p < |s.provs| ==> BinsOpen(s, c.provisions[p], s.provs[p])
  }

  lemma OpenGrows(s: World, t: World)
    requires Grows(s, t)
    ensures forall sp, v :: BinsOpen(s, sp, v) ==> BinsOpen(t, sp, v)
  {
    forall k | ToolchainOpen(s, k)
      ensures ToolchainOpen(t, k)
    {
    }
  }

  lemma BinsStep(c: Config, s: World, p: nat, ch: Choice)
    requires Sized(c, s) && p < |s.provs| && ProvShape(c.provisions[p], s.provs[p])
    requires BinsOpen(s, c.provisions[p], s.provs[p]) && ProvStep(c, s, p, ch).Some?
    ensures BinsOpen(s, c.provisions[p], ProvStep(c, s, p, ch).value.local)
  {
  }

  lemma BinsKept(c: Config, s: World, l: Label, t: World)
    requires Inv(c, s) && AllBinsOpen(c, s) && Next(c, s, l) == Some(t)
    ensures Sized(c, t) && AllBinsOpen(c, t)
  {
    StepKept(c, s, l, t);
    OpenGrows(s, t);
    if l.ProvL? {
      assert ProvShape(c.provisions[l.n], s.provs[l.n]);
      BinsStep(c, s, l.n, l.ch);
    } else if l.AnyL? {
      AnyOnlyDone(s, l.phase, t);
    } else if l.HandlerL? {
      HandlerOnly(c, s, l.ch, t);
    } else if !l.SvcL? && !l.TcL? {
      OnlyFlags(c, s, l, t);
    }
  }

  // ---- the sweep ----

  ghost predicate Forgotten(s: World) {
    && s.shutdown && (forall i :: 0 <= i < |s.svcs| ==> s.svcs[i].removed) && forall p :: 0 <= p < |s.provs| ==> s.provs[p].removed
  }

  ghost predicate AskedUpTo(s: World, n: nat) {
    && (forall i :: 0 <= i < n && i < |s.svcs| ==> s.svcs[i].stop)
    && (forall p :: 0 <= p < n - |s.svcs| && p < |s.provs| ==> s.provs[p].stop)
  }

  ghost predicate ReapedUpTo(s: World, n: nat) {
    && (forall i :: 0 <= i < n && i < |s.svcs| ==> s.svcs[i].pc.Exited?)
    && (forall p :: 0 <= p < n - |s.svcs| && p < |s.provs| ==> ProvClosed(s.provs[p]))
  }

  ghost predicate SweptSoFar(s: World) {
    match s.sweeper
    case Idle => true
    case Stopping(n) => Forgotten(s) && AskedUpTo(s, n)
    case Reaping(n) => Forgotten(s) && AskedUpTo(s, |s.svcs| + |s.provs|) && ReapedUpTo(s, n)
    case Swept => Forgotten(s) && AskedUpTo(s, |s.svcs| + |s.provs|) && ReapedUpTo(s, |s.svcs| + |s.provs|)
  }

  /** Flags stay, and who has returned does not come back. */
  ghost predicate Settles(s: World, t: World) {
    && |t.svcs| == |s.svcs| && |t.provs| == |s.provs| && (s.shutdown ==> t.shutdown)
    && (forall i :: 0 <= i < |s.svcs| ==>
          && (s.svcs[i].stop ==> t.svcs[i].stop) && (s.svcs[i].removed ==> t.svcs[i].removed) && (s.svcs[i].pc.Exited? ==> t.svcs[i].pc.Exited?))
    && (forall p :: 0 <= p < |s.provs| ==>
          && (s.provs[p].stop ==> t.provs[p].stop) && (s.provs[p].removed ==> t.provs[p].removed) && (ProvClosed(s.provs[p]) ==> ProvClosed(t.provs[p])))
  }

  lemma SvcSettles(c: Config, s: World, i: nat, ch: Choice)
    requires Inv(c, s) && i < |s.svcs| && SvcStep(c, s, i, ch).Some?
    ensures var v, w := s.svcs[i], SvcStep(c, s, i, ch).value.local; !v.pc.Exited? && w.stop == v.stop && w.removed == v.removed
  {
    assert SvcShape(c.services[i], s.svcs[i]);
    SvcStepKept(c, s, i, ch);
  }

  lemma ProvSettles(c: Config, s: World, p: nat, ch: Choice)
    requires Inv(c, s) && p < |s.provs| && ProvStep(c, s, p, ch).Some?
    ensures var v, w := s.provs[p], ProvStep(c, s, p, ch).value.local; !ProvClosed(v) && w.stop == v.stop && w.removed == v.removed
  {
    assert ProvShape(c.provisions[p], s.provs[p]);
    ProvStepKept(c, s, p, ch);
  }

  lemma StepSettles(c: Config, s: World, l: Label, t: World)
    requires Inv(c, s) && Next(c, s, l) == Some(t)
    ensures Settles(s, t) && (!l.SweeperL? ==> t.sweeper == s.sweeper)
  {
    if l.SvcL? {
      SvcStepSettles(c, s, l.n, l.ch, t);
    } else if l.ProvL? {
      ProvStepSettles(c, s, l.n, l.ch, t);
    } else if l.AnyL? {
      AnyOnlyDone(s, l.phase, t);
    } else if l.HandlerL? {
      HandlerOnly(c, s, l.ch, t);
    } else if l.SweeperL? {
      SweeperSettles(s, t);
    } else if !l.TcL? {
      RequestSettles(c, s, l, t);
    }
  }

  lemma RequestSettles(c: Config, s: World, l: Label, t: World)
    requires l.Interrupt? || l.StopSvc? || l.StopProv? || l.RemoveSvc? || l.RemoveProv?
    requires Sized(c, s) && Next(c, s, l) == Some(t)
    ensures Settles(s, t) && t.sweeper == s.sweeper
  {
  }

  lemma SvcStepSettles(c: Config, s: World, i: nat, ch: Choice, t: World)
    requires Inv(c, s) && Next(c, s, SvcL(i, ch)) == Some(t)
    ensures Settles(s, t) && t.sweeper == s.sweeper
  {
    SvcSettles(c, s, i, ch);
  }

  lemma ProvStepSettles(c: Config, s: World, p: nat, ch: Choice, t: World)
    requires Inv(c, s) && Next(c, s, ProvL(p, ch)) == Some(t)
    ensures Settles(s, t) && t.sweeper == s.sweeper
  {
    ProvSettles(c, s, p, ch);
  }

  lemma SweeperSettles(s: World, t: World)
    requires SweeperStep(s) == Some(t)
    ensures Settles(s, t)
  {
  }

  lemma SweepKept(c: Config, s: World, l: Label, t: World)
    requires Inv(c, s) && SweptSoFar(s) && Next(c, s, l) == Some(t)
    ensures SweptSoFar(t)
  {
    StepSettles(c, s, l, t);
    if l.SweeperL? {
      SweepStep(s, t);
    }
  }

  lemma SweepStep(s: World, t: World)
    requires SweptSoFar(s) && SweeperStep(s) == Some(t)
    ensures SweptSoFar(t)
  {
  }

  // ---- every reachable world ----

  ghost predicate Guarded(c: Config, s: World) {
    Inv(c, s) && OneCheckoutEach(c, s) && AllBinsOpen(c, s) && SweptSoFar(s)
  }

  lemma {:induction false} RunGuarded(c: Config, run: seq<Label>, s: World)
    requires Exec(c, Init(c), run) == Some(s)
    ensures Guarded(c, s)
    decreases |run|
  {
    if run == [] {
      InitInv(c);
    } else {
      var n := |run| - 1;
      var w := ExecLast(c, run, s);
      RunGuarded(c, run[..n], w);
      InvKept(c, w, run[n], s);
      CheckoutsKept(c, w, run[n], s);
      BinsKept(c, w, run[n], s);
      SweepKept(c, w, run[n], s);
    }
  }

  /** No two services sharing a primary checkout prepare it at once. */
  lemma CheckoutsAreSerial(c: Config, s: World, i: nat, j: nat)
    requires Reachable(c, s) && i < j < |s.svcs| && j < |c.services|
    requires c.services[i].primary.Some? && c.services[i].primary == c.services[j].primary
    ensures !(s.svcs[i].pc.InWorkspace? && s.svcs[j].pc.InWorkspace?)
  {
    var run :| Exec(c, Init(c), run) == Some(s);
    RunGuarded(c, run, s);
  }

  /** A provision has run a shell only once every toolchain its snippets and its env name had an outcome,
      or alpha was on its way out. */
  lemma ShellsWaitForToolchains(c: Config, s: World, p: nat, k: nat)
    requires Reachable(c, s) && p < |s.provs| && p < |c.provisions| && s.provs[p].ran
    requires k in c.provisions[p].bins || k in c.provisions[p].envBins
    ensures HasFired(s, Ref(Toolchain(k), Ready)) || HasFired(s, Ref(Toolchain(k), Failed)) || s.shutdown
  {
    var run :| Exec(c, Init(c), run) == Some(s);
    RunGuarded(c, run, s);
    assert BinsOpen(s, c.provisions[p], s.provs[p]);
  }

  /** When the sweep is over, every entity has been forgotten and asked to stop, and has returned. */
  lemma SweepLeavesNothingOut(c: Config, s: World)
    requires Reachable(c, s) && s.sweeper == Swept
    ensures s.shutdown
    ensures forall i :: 0 <= i < |s.svcs| ==> s.svcs[i].removed && s.svcs[i].stop && s.svcs[i].pc.Exited?
    ensures forall p :: 0 <= p < |s.provs| ==> s.provs[p].removed && s.provs[p].stop && (s.provs[p].pc.PExited? || s.provs[p].pc.Dormant?)
  {
    var run :| Exec(c, Init(c), run) == Some(s);
    RunGuarded(c, run, s);
  }

  // ---- no process after a stop ----

  /** Before its gate, or past it without having started. */
  predicate NotStarted(v: Svc) {
    !v.spawned && (v.pc.Unwinding? || v.pc.Exited? || AtGate(v.pc))
  }

  predicate AtGate(pc: SvcPc) {
    (pc.Waiting? && pc.early) || pc.Locking? || pc.InWorkspace? || pc.Building? || pc.Gate?
  }

  lemma StaysUnstarted(c: Config, s: World, l: Label, t: World, i: nat)
    requires Inv(c, s) && i < |s.svcs| && NotStarted(s.svcs[i]) && (s.svcs[i].stop || s.shutdown) && Next(c, s, l) == Some(t)
    ensures Sized(c, t) && NotStarted(t.svcs[i]) && (t.svcs[i].stop || t.shutdown)
  {
    StepSettles(c, s, l, t);
    if l.SvcL? {
      if l.n == i {
        UnstartedStep(c, s, i, l.ch);
      }
    } else if l.AnyL? {
      AnyOnlyDone(s, l.phase, t);
    } else if l.HandlerL? {
      HandlerOnly(c, s, l.ch, t);
    } else if !l.ProvL? && !l.TcL? {
      OnlyFlags(c, s, l, t);
    }
  }

  lemma UnstartedStep(c: Config, s: World, i: nat, ch: Choice)
    requires Sized(c, s) && i < |s.svcs| && NotStarted(s.svcs[i]) && (s.svcs[i].stop || s.shutdown) && SvcStep(c, s, i, ch).Some?
    ensures NotStarted(SvcStep(c, s, i, ch).value.local)
  {
  }

  lemma {:induction false} NeverStarted(c: Config, s: World, rest: seq<Label>, t: World, i: nat)
    requires Inv(c, s) && i < |s.svcs| && NotStarted(s.svcs[i]) && (s.svcs[i].stop || s.shutdown) && Exec(c, s, rest) == Some(t)
    ensures i < |t.svcs| && !t.svcs[i].spawned
    decreases rest
  {
    if rest != [] {
      var u := Next(c, s, rest[0]).value;
      InvKept(c, s, rest[0], u);
      StaysUnstarted(c, s, rest[0], u, i);
      NeverStarted(c, u, rest[1..], t, i);
    }
  }

  /** A service asked to stop before it is through its build never starts its process. */
  lemma StoppedNeverStarts(c: Config, s: World, rest: seq<Label>, t: World, i: nat)
    requires Reachable(c, s) && i < |s.svcs| && AtGate(s.svcs[i].pc) && (s.svcs[i].stop || s.shutdown) && Exec(c, s, rest) == Some(t)
    ensures i < |t.svcs| && !t.svcs[i].spawned
  {
    ReachableInv(c, s);
    assert SvcShape(c.services[i], s.svcs[i]);
    NeverStarted(c, s, rest, t, i);
  }

  // ---- reasons ----

  /** The entity a ref names is there and registered, and has the state. */
  predicate Registered(s: World, r: Ref) {
    match r.phase
    case Toolchain(n) => n < |s.tcs| && r.state in {EntityLifecycles.Installing, Ready, Failed, Done}
    case Build(n) => n < |s.svcs| && !s.svcs[n].removed && r.state in {Scheduled, Running, Success, Failure, Done}
    case Runtime(n) => n < |s.svcs| && !s.svcs[n].removed && r.state in {Scheduled, Running, Ready, Failed, Stopped, Done}
    case Provision(n) => n < |s.provs| && !s.provs[n].removed && r.state in {Scheduled, Running, Success, Failure, Done}
  }

  lemma ResolvesIsRegistered(s: World, r: Ref)
    ensures Resolves(s, r) <==> Registered(s, r)
  {
  }

  /** The failure state of a phase. */
  predicate HasBroken(s: World, p: Phase) {
    HasFired(s, Ref(p, if p.Build? || p.Provision? then Failure else Failed))
  }

  /** A wait ends well only on its barrier, is cut short only for a failure or a stop, and fails only on a
      ref that names nothing. Nothing else is possible, and each of these is. */
  lemma WaitsHaveReasons(c: Config, s: World, i: nat, ch: Choice)
    requires Sized(c, s) && i < |s.svcs| && s.svcs[i].pc.Waiting? && s.svcs[i].pc.k < |WaitRefs(c.services[i], s.svcs[i].pc.early)|
    ensures var v := s.svcs[i]; var r := WaitRefs(c.services[i], v.pc.early)[v.pc.k];
            Next(c, s, SvcL(i, ch)).Some? <==>
            match ch
            case Go => if v.pc.held then HasFired(s, r) else Registered(s, r)
            case Cut => v.pc.held && (HasBroken(s, r.phase) || v.stop || s.shutdown)
            case Fail => !v.pc.held && !Registered(s, r)
  {
    ResolvesIsRegistered(s, WaitRefs(c.services[i], s.svcs[i].pc.early)[s.svcs[i].pc.k]);
  }

  lemma ProvWaitsHaveReasons(c: Config, s: World, p: nat, ch: Choice)
    requires Sized(c, s) && p < |s.provs| && s.provs[p].pc.PWaiting? && s.provs[p].pc.k < |c.provisions[p].after|
    ensures var v := s.provs[p]; var r := c.provisions[p].after[v.pc.k];
            Next(c, s, ProvL(p, ch)).Some? <==>
            match ch
            case Go => if v.pc.held then HasFired(s, r) else Registered(s, r)
            case Cut => v.pc.held && (HasBroken(s, r.phase) || v.stop || s.shutdown)
            case Fail => !v.pc.held && !Registered(s, r)
  {
    ResolvesIsRegistered(s, c.provisions[p].after[s.provs[p].pc.k]);
  }

  /** The toolchain, if there is one, is ready. */
  predicate ReadyIfAny(s: World, tc: Option<nat>) {
    tc.None? || HasFired(s, Ref(Toolchain(tc.value), Ready))
  }

  /** Or it has failed, or alpha is on its way out. */
  predicate KnownIfAny(s: World, tc: Option<nat>) {
    ReadyIfAny(s, tc) || HasFired(s, Ref(Toolchain(tc.value), Failed)) || s.shutdown
  }

  /** A checkout waits for the others of its primary; a build and a process for their toolchain, also to
      fail; and what is through its build, or up, is turned away or killed only for a stop, and is then. */
  lemma StepsHaveReasons(c: Config, s: World, i: nat, ch: Choice)
    requires Sized(c, s) && i < |s.svcs|
    ensures var v, sp := s.svcs[i], c.services[i];
            var able := Next(c, s, SvcL(i, ch)).Some?;
            && (v.pc.Locking? ==> (able <==> ch.Go? && forall j :: 0 <= j < |s.svcs| && j != i && c.services[j].primary == sp.primary ==>
                                                                     !s.svcs[j].pc.InWorkspace?))
            && (v.pc.Building? || v.pc.Starting? ==>
                  (able <==> (ch.Go? && ReadyIfAny(s, sp.toolchain)) || (ch.Fail? && KnownIfAny(s, sp.toolchain))))
            && (v.pc.Gate? ==> (able <==> if v.stop || s.shutdown then ch.Cut? else ch.Go?))
            && (v.pc.Up? ==> (able <==> ch.Fail? || (ch.Cut? && (v.stop || s.shutdown))))
  {
  }

  /** A provision reaches for its own toolchain until that is ready, and gives up when it has failed or
      alpha is on its way out; its template must be there and registered. */
  lemma ProvStepsHaveReasons(c: Config, s: World, p: nat, ch: Choice)
    requires Sized(c, s) && p < |s.provs|
    ensures var v, sp := s.provs[p], c.provisions[p];
            var able := Next(c, s, ProvL(p, ch)).Some?;
            && (v.pc.OwnToolchain? ==>
                  (able <==> (ch.Go? && ReadyIfAny(s, sp.toolchain)) || (ch.Cut? && sp.toolchain.Some? && KnownBad(s, sp.toolchain.value))))
            && (v.pc.FindTemplate? ==>
                  (able <==> if sp.template.None? || (sp.template.value < |s.provs| && !s.provs[sp.template.value].removed) then ch.Go? else ch.Fail?))
  {
  }

  predicate KnownBad(s: World, tc: nat) {
    HasFired(s, Ref(Toolchain(tc), Failed)) || s.shutdown
  }

  /** A request made in the run is still in force at its end. */
  lemma {:induction false} RequestsStay(c: Config, run: seq<Label>, s: World, n: nat)
    requires Exec(c, Init(c), run) == Some(s)
    ensures Interrupt in run ==> s.shutdown
    ensures StopSvc(n) in run ==> n < |s.svcs| && s.svcs[n].stop
    ensures RemoveSvc(n) in run ==> n < |s.svcs| && s.svcs[n].removed
    ensures StopProv(n) in run ==> n < |s.provs| && s.provs[n].stop
    ensures RemoveProv(n) in run ==> n < |s.provs| && s.provs[n].removed
    decreases |run|
  {
    if run != [] {
      var k := |run| - 1;
      var w := ExecLast(c, run, s);
      RequestsStay(c, run[..k], w, n);
      StepSettles(c, w, run[k], s);
      RequestStep(c, w, run[k], s, n);
      assert run == run[..k] + [run[k]];
    }
  }

  /** Unless the sweep is under way, nobody is stopped or forgotten without a request. */
  lemma {:induction false} FlagsAreRequested(c: Config, run: seq<Label>, s: World, n: nat)
    requires Exec(c, Init(c), run) == Some(s) && s.sweeper == Idle
    ensures n < |s.svcs| ==> (s.svcs[n].stop ==> StopSvc(n) in run) && (s.svcs[n].removed ==> RemoveSvc(n) in run)
    ensures n < |s.provs| ==> (s.provs[n].stop ==> StopProv(n) in run) && (s.provs[n].removed ==> RemoveProv(n) in run)
    decreases |run|
  {
    if run != [] {
      var k := |run| - 1;
      var w := ExecLast(c, run, s);
      StepSettles(c, w, run[k], s);
      RequestStep(c, w, run[k], s, n);
      FlagsAreRequested(c, run[..k], w, n);
      assert run == run[..k] + [run[k]];
    }
  }

  lemma RequestStep(c: Config, s: World, l: Label, t: World, n: nat)
    requires Inv(c, s) && Next(c, s, l) == Some(t)
    ensures l == Interrupt ==> t.shutdown
    ensures l == StopSvc(n) ==> n < |t.svcs| && t.svcs[n].stop
    ensures l == RemoveSvc(n) ==> n < |t.svcs| && t.svcs[n].removed
    ensures l == StopProv(n) ==> n < |t.provs| && t.provs[n].stop
    ensures l == RemoveProv(n) ==> n < |t.provs| && t.provs[n].removed
    ensures !l.SweeperL? && n < |s.svcs| && n < |t.svcs| ==>
              (t.svcs[n].stop ==> s.svcs[n].stop || l == StopSvc(n)) && (t.svcs[n].removed ==> s.svcs[n].removed || l == RemoveSvc(n))
    ensures !l.SweeperL? && n < |s.provs| && n < |t.provs| ==>
              (t.provs[n].stop ==> s.provs[n].stop || l == StopProv(n)) && (t.provs[n].removed ==> s.provs[n].removed || l == RemoveProv(n))
    ensures l.SweeperL? ==> t.sweeper != Idle
  {
    if l.SvcL? || l.ProvL? || l.TcL? || l.AnyL? || l.HandlerL? {
      FlagsStayPut(c, s, l, t, n);
    }
  }

  lemma FlagsStayPut(c: Config, s: World, l: Label, t: World, n: nat)
    requires Inv(c, s) && Next(c, s, l) == Some(t) && (l.SvcL? || l.ProvL? || l.TcL? || l.AnyL? || l.HandlerL?)
    ensures |t.svcs| == |s.svcs| && |t.provs| == |s.provs|
    ensures n < |s.svcs| ==> t.svcs[n].stop == s.svcs[n].stop && t.svcs[n].removed == s.svcs[n].removed
    ensures n < |s.provs| ==> t.provs[n].stop == s.provs[n].stop && t.provs[n].removed == s.provs[n].removed
  {
    if l.SvcL? {
      SvcSettles(c, s, l.n, l.ch);
    } else if l.ProvL? {
      ProvSettles(c, s, l.n, l.ch);
    } else if l.AnyL? {
      AnyOnlyDone(s, l.phase, t);
    } else if l.HandlerL? {
      HandlerOnly(c, s, l.ch, t);
    }
  }

  // ---- the handler ----

  /** The handler waits for a service's outcome, or that of a provision neither detached nor latent, until
      shutdown; it never waits for anything else. */
  lemma HandlerWaits(c: Config, s: World)
    requires Sized(c, s)
    ensures var h := s.handler;
            var waits := (h.AwaitSvc? && h.n < |s.svcs|)
                         || (h.AwaitProv? && h.n < |s.provs| && !c.provisions[h.n].detached && !c.provisions[h.n].latent);
            && (Next(c, s, HandlerL(Cut)).Some? <==> waits && s.shutdown)
            && (Next(c, s, HandlerL(Go)).Some? <==>
                  h != HandlerEnd && (waits ==> if h.AwaitSvc? then s.svcs[h.n].run.done else s.provs[h.n].run.done))
            && Next(c, s, HandlerL(Fail)).None?
  {
  }

  // ---- a failed probe ----

  /** Killed for its probe and still to complain, or past that, unless a stop came. */
  predicate ProbeCounts(s: World, v: Svc) {
    || (v.pc.Killing? && !v.pc.wasReady) || (v.pc.Unwinding? && AskShutdown in v.pc.todo)
    || v.stop || s.shutdown
  }

  lemma ProbeStillCounts(c: Config, s: World, i: nat, ch: Choice)
    requires Sized(c, s) && c.failfast && i < |s.svcs| && SvcStep(c, s, i, ch).Some? && ProbeCounts(s, s.svcs[i])
    ensures var m := SvcStep(c, s, i, ch).value; m.ask || ProbeCounts(s, m.local)
  {
  }

  lemma ProbeStep(c: Config, s: World, l: Label, t: World, i: nat)
    requires Inv(c, s) && c.failfast && i < |s.svcs| && Next(c, s, l) == Some(t)
    requires ProbeCounts(s, s.svcs[i]) || (l == SvcL(i, Cut) && s.svcs[i].pc.Probing?)
    ensures i < |t.svcs| && ProbeCounts(t, t.svcs[i])
  {
    StepSettles(c, s, l, t);
    if l.SvcL? {
      SvcSettles(c, s, l.n, l.ch);
      if l.n == i && ProbeCounts(s, s.svcs[i]) {
        ProbeStillCounts(c, s, i, l.ch);
      }
    } else if l.AnyL? {
      AnyOnlyDone(s, l.phase, t);
    } else if l.HandlerL? {
      HandlerOnly(c, s, l.ch, t);
    } else if !l.ProvL? && !l.TcL? {
      OnlyFlags(c, s, l, t);
    }
  }

  lemma {:induction false} ProbeRun(c: Config, s: World, rest: seq<Label>, t: World, i: nat)
    requires Inv(c, s) && c.failfast && i < |s.svcs| && ProbeCounts(s, s.svcs[i]) && Exec(c, s, rest) == Some(t)
    ensures i < |t.svcs| && ProbeCounts(t, t.svcs[i])
    decreases rest
  {
    if rest != [] {
      var u := Next(c, s, rest[0]).value;
      InvKept(c, s, rest[0], u);
      ProbeStep(c, s, rest[0], u, i);
      ProbeRun(c, u, rest[1..], t, i);
    }
  }

  /** Under failfast a failed probe ends alpha by the time the service has returned, unless the service was
      asked to stop. */
  lemma FailedProbeEndsAlpha(c: Config, s: World, rest: seq<Label>, t: World, i: nat)
    requires Reachable(c, s) && c.failfast && i < |s.svcs| && s.svcs[i].pc.Probing?
    requires rest != [] && rest[0] == SvcL(i, Cut) && Exec(c, s, rest) == Some(t)
    ensures i < |t.svcs| && (t.svcs[i].pc.Exited? ==> t.shutdown || t.svcs[i].stop)
  {
    ReachableInv(c, s);
    var u := Next(c, s, rest[0]).value;
    InvKept(c, s, rest[0], u);
    ProbeStep(c, s, rest[0], u, i);
    ProbeRun(c, u, rest[1..], t, i);
  }
}
