/** Where a configure run comes to rest: every supervisor drained after a shutdown, everything
    settled otherwise, unless the `after` graph has a cycle. */
module BringupRest {
  import opened Paths
  import opened EntityLifecycles
  import opened Wrappers
  import opened BringupModel
  import opened BringupSafety
  import opened BringupTheorems
  import opened BringupProgress

  // ---- at rest, external work is over ----

  lemma ToolchainsRest(c: Config, s: World, k: nat)
    requires Inv(c, s) && Quiescent(c, s) && k < |s.tcs|
    ensures Settled(s, Toolchain(k)) && s.tcs[k].run.done
  {
    assert Next(c, s, TcL(k, Go)).None? && Next(c, s, AnyL(Toolchain(k))).None?;
    assert TcShape(s.tcs[k]);
  }

  lemma OutcomesRest(c: Config, s: World, p: Phase)
    requires Inv(c, s) && Quiescent(c, s) && Settled(s, p)
    ensures TrackOf(s, p).value.done
  {
    assert Next(c, s, AnyL(p)).None?;
  }

  /** At rest a supervisor has exited, supervises a ready process, or waits in runtime.after. */
  lemma SvcRests(c: Config, s: World, i: nat)
    requires WellFormed(c) && Inv(c, s) && Quiescent(c, s) && i < |s.svcs|
    ensures var pc := s.svcs[i].pc;
            pc.Exited? || pc.Up? || (pc.Waiting? && !pc.early && pc.k < |c.services[i].after|)
  {
    var sp, v := c.services[i], s.svcs[i];
    assert SvcShape(sp, v) && SvcEvidence(s, sp, v);
    assert Next(c, s, SvcL(i, Go)).None? && (!v.pc.Up? ==> Next(c, s, SvcL(i, Fail)).None?) && Next(c, s, SvcL(i, Cut)).None?;
    if sp.toolchain.Some? {
      ToolchainsRest(c, s, sp.toolchain.value);
    }
    forall j | 0 <= j < |s.svcs|
      ensures !s.svcs[j].pc.InWorkspace?
    {
      assert Next(c, s, SvcL(j, Go)).None?;
    }
  }

  /** At rest a provision has closed its done channel or waits in its `after`. */
  lemma ProvRests(c: Config, s: World, p: nat)
    requires WellFormed(c) && Inv(c, s) && Quiescent(c, s) && p < |s.provs|
    ensures ProvClosed(s.provs[p]) || (s.provs[p].pc.PWaiting? && s.provs[p].pc.k < |c.provisions[p].after|)
  {
    var sp, v := c.provisions[p], s.provs[p];
    assert ProvShape(sp, v);
    assert Next(c, s, ProvL(p, Go)).None? && Next(c, s, ProvL(p, Fail)).None? && Next(c, s, ProvL(p, Cut)).None?;
    if sp.toolchain.Some? {
      ToolchainsRest(c, s, sp.toolchain.value);
    }
    if v.pc.Bins? && v.pc.k < |sp.bins| {
      ToolchainsRest(c, s, sp.bins[v.pc.k]);
    }
    if v.pc.EnvBins? && v.pc.k < |sp.envBins| {
      ToolchainsRest(c, s, sp.envBins[v.pc.k]);
    }
  }

  /** The ref a goroutine is parked on, if it is parked on one. */
  ghost predicate ParkedOn(c: Config, s: World, a: Phase, r: Ref)
    requires Sized(c, s)
  {
    match a
    case Runtime(i) =>
      && i < |s.svcs| && s.svcs[i].pc.Waiting? && !s.svcs[i].pc.early
      && s.svcs[i].pc.k < |c.services[i].after| && c.services[i].after[s.svcs[i].pc.k] == r
    case Provision(p) =>
      && p < |s.provs| && s.provs[p].pc.PWaiting?
      && s.provs[p].pc.k < |c.provisions[p].after| && c.provisions[p].after[s.provs[p].pc.k] == r
    case _ => false
  }

  /** A goroutine is parked at rest only on a barrier that exists and has neither fired nor failed. */
  lemma ParkedIsBlocked(c: Config, s: World, a: Phase, r: Ref)
    requires Inv(c, s) && Quiescent(c, s) && ParkedOn(c, s, a, r)
    ensures Names(s, r) && !HasFired(s, r) && !HasFailed(s, r.phase) && !s.shutdown
    ensures if a.Runtime? then !s.svcs[a.n].stop else !s.provs[a.n].stop
  {
    if a.Runtime? {
      assert SvcEvidence(s, c.services[a.n], s.svcs[a.n]);
      assert Next(c, s, SvcL(a.n, Go)).None? && Next(c, s, SvcL(a.n, Fail)).None? && Next(c, s, SvcL(a.n, Cut)).None?;
    } else {
      assert ProvEvidence(s, c.provisions[a.n], s.provs[a.n]);
      assert Next(c, s, ProvL(a.n, Go)).None? && Next(c, s, ProvL(a.n, Fail)).None? && Next(c, s, ProvL(a.n, Cut)).None?;
    }
  }

  /** From anywhere, alpha's own steps alone come to rest: taking any of them while there is one ends
      within the budget, whatever the outside world does not do. */
  lemma {:induction false} ComesToRest(c: Config, s: World) returns (run: seq<Label>, t: World)
    requires Inv(c, s)
    ensures Exec(c, s, run) == Some(t) && Inv(c, t) && Quiescent(c, t) && Grows(s, t)
    ensures |run| <= Budget(c, s)
    decreases Budget(c, s)
  {
    if l :| OwnStep(s, l) && Next(c, s, l).Some? {
      var u := Next(c, s, l).value;
      InvKept(c, s, l, u);
      StepSpends(c, s, l, u);
      SpendingLowersBudget(c, s, u);
      var rest, last := ComesToRest(c, u);
      run, t := [l] + rest, last;
      assert run[1..] == rest;
      RunInv(c, s, run);
    } else {
      run, t := [], s;
      RunInv(c, s, run);
    }
  }

  // ---- drain ----

  /** A supervisor asked to stop, or any supervisor after a shutdown, ends up exited: for every
      `after` graph, cycles and latent refs included. */
  lemma StoppedSvcExits(c: Config, s: World, i: nat)
    requires WellFormed(c) && Reachable(c, s) && Quiescent(c, s)
    requires Sized(c, s) && i < |s.svcs| && (s.shutdown || s.svcs[i].stop)
    ensures s.svcs[i].pc.Exited?
  {
    ReachableInv(c, s);
    SvcRests(c, s, i);
    if s.svcs[i].pc.Waiting? {
      ParkedIsBlocked(c, s, Runtime(i), c.services[i].after[s.svcs[i].pc.k]);
    } else {
      assert Next(c, s, SvcL(i, Cut)).None?;
    }
  }

  lemma StoppedProvCloses(c: Config, s: World, p: nat)
    requires WellFormed(c) && Reachable(c, s) && Quiescent(c, s)
    requires Sized(c, s) && p < |s.provs| && (s.shutdown || s.provs[p].stop)
    ensures ProvClosed(s.provs[p])
  {
    ReachableInv(c, s);
    ProvRests(c, s, p);
    if s.provs[p].pc.PWaiting? {
      ParkedIsBlocked(c, s, Provision(p), c.provisions[p].after[s.provs[p].pc.k]);
    }
  }

  /** Shutdown always drains: once it is requested, a run that comes to rest has every done channel
      closed, shutdownAll returned, and the configure handler gone. */
  lemma ShutdownDrains(c: Config, s: World)
    requires WellFormed(c) && Reachable(c, s) && Quiescent(c, s) && s.shutdown
    ensures forall i :: 0 <= i < |s.svcs| ==> s.svcs[i].pc.Exited?
    ensures forall p :: 0 <= p < |s.provs| ==> ProvClosed(s.provs[p])
    ensures s.sweeper == Swept && s.handler == HandlerEnd
  {
    ReachableInv(c, s);
    forall i | 0 <= i < |s.svcs|
      ensures s.svcs[i].pc.Exited?
    {
      StoppedSvcExits(c, s, i);
    }
    forall p | 0 <= p < |s.provs|
      ensures ProvClosed(s.provs[p])
    {
      StoppedProvCloses(c, s, p);
    }
    assert Next(c, s, SweeperL).None?;
    assert Next(c, s, HandlerL(Go)).None? && Next(c, s, HandlerL(Cut)).None?;
  }

  /** So a shutdown requested at any moment of any run does get drained. */
  lemma ShutdownReachesDrained(c: Config, s: World) returns (run: seq<Label>, t: World)
    requires WellFormed(c) && Reachable(c, s) && s.shutdown
    ensures Exec(c, s, run) == Some(t) && t.sweeper == Swept && t.handler == HandlerEnd
    ensures forall i :: 0 <= i < |t.svcs| ==> t.svcs[i].pc.Exited?
    ensures forall p :: 0 <= p < |t.provs| ==> ProvClosed(t.provs[p])
  {
    ReachableInv(c, s);
    run, t := ComesToRest(c, s);
    var before :| Exec(c, Init(c), before) == Some(s);
    ExecJoin(c, Init(c), before, run);
    assert Reachable(c, t);
    ShutdownDrains(c, t);
  }

  // ---- no stuck bringup ----

  /** Whether the ref is sure to fire once its phase succeeds: not `stopped`, not a failure state, and
      not a latent provision's. A ref that does not resolve fails its waiter and is fine here. */
  predicate Prompt(c: Config, r: Ref) {
    && r.state != Stopped && r.state != Bad(KindOf(r.phase))
    && !(r.phase.Provision? && r.phase.n < |c.provisions| && c.provisions[r.phase.n].latent)
  }

  predicate AllPrompt(c: Config) {
    && (forall i, r :: 0 <= i < |c.services| && r in c.services[i].after ==> Prompt(c, r))
    && (forall p, r :: 0 <= p < |c.provisions| && r in c.provisions[p].after ==> Prompt(c, r))
  }

  /** A wait that can block on another goroutine's own waits: builds and toolchains always finish,
      and `scheduled` fires before anything is waited for. */
  predicate Blocks(r: Ref) {
    (r.phase.Runtime? || r.phase.Provision?) && r.state != Scheduled
  }

  /** Who waits for whom, phase by phase. */
  ghost function Waits(c: Config): set<(Phase, Phase)> {
    (set i, r | 0 <= i < |c.services| && r in c.services[i].after && Blocks(r) :: (Runtime(i), r.phase))
    + (set p, r | 0 <= p < |c.provisions| && r in c.provisions[p].after && Blocks(r) :: (Provision(p), r.phase))
  }

  /** The phases that are supposed to settle. */
  predicate Configured(c: Config, p: Phase) {
    match p
    case Toolchain(n) => n < c.toolchains
    case Build(n) => n < |c.services|
    case Runtime(n) => n < |c.services|
    case Provision(n) => n < |c.provisions| && !c.provisions[n].latent
  }

  ghost function Unsettled(c: Config, s: World): set<Phase> {
    (set i | 0 <= i < |c.services| && !Settled(s, Runtime(i)) :: Runtime(i))
    + (set p | 0 <= p < |c.provisions| && !c.provisions[p].latent && !Settled(s, Provision(p)) :: Provision(p))
  }

  lemma BuildsRest(c: Config, s: World, i: nat)
    requires WellFormed(c) && Inv(c, s) && Quiescent(c, s) && i < |s.svcs|
    ensures Settled(s, Build(i))
  {
    SvcRests(c, s, i);
    assert SvcShape(c.services[i], s.svcs[i]);
  }

  /** A succeeded phase has fired everything a prompt ref can name. */
  lemma SuccessFires(c: Config, s: World, r: Ref)
    requires Inv(c, s) && Quiescent(c, s) && Names(s, r) && Prompt(c, r) && Succeeded(s, r.phase)
    ensures HasFired(s, r)
  {
    OutcomesRest(c, s, r.phase);
    if r.phase.Toolchain? {
      assert TcShape(s.tcs[r.phase.n]);
    } else if r.phase.Provision? {
      assert ProvShape(c.provisions[r.phase.n], s.provs[r.phase.n]);
    } else {
      assert SvcShape(c.services[r.phase.n], s.svcs[r.phase.n]);
    }
  }

  /** At rest, whatever has not settled is parked. */
  lemma UnsettledIsParked(c: Config, s: World, a: Phase) returns (r: Ref)
    requires WellFormed(c) && Inv(c, s) && Quiescent(c, s) && a in Unsettled(c, s)
    ensures ParkedOn(c, s, a, r)
  {
    if a.Runtime? {
      SvcRests(c, s, a.n);
      assert SvcShape(c.services[a.n], s.svcs[a.n]);
      r := c.services[a.n].after[s.svcs[a.n].pc.k];
    } else {
      ProvRests(c, s, a.n);
      assert ProvShape(c.provisions[a.n], s.provs[a.n]);
      r := c.provisions[a.n].after[s.provs[a.n].pc.k];
    }
  }

  /** A barrier that can stay unfired at rest is not a build's, a toolchain's or `scheduled`. */
  lemma UnfiredBlocks(c: Config, s: World, r: Ref)
    requires WellFormed(c) && Inv(c, s) && Quiescent(c, s) && Names(s, r) && Prompt(c, r)
    requires !HasFired(s, r) && !Settled(s, r.phase)
    ensures Blocks(r)
  {
    if r.phase.Toolchain? {
      ToolchainsRest(c, s, r.phase.n);
    } else if r.phase.Build? {
      BuildsRest(c, s, r.phase.n);
    } else if r.phase.Runtime? {
      SvcRests(c, s, r.phase.n);
      assert SvcShape(c.services[r.phase.n], s.svcs[r.phase.n]);
    } else {
      ProvRests(c, s, r.phase.n);
      assert ProvShape(c.provisions[r.phase.n], s.provs[r.phase.n]);
    }
  }

  lemma ParkedWaits(c: Config, s: World, a: Phase, r: Ref)
    requires WellFormed(c) && AllPrompt(c) && Inv(c, s) && Quiescent(c, s) && ParkedOn(c, s, a, r)
    ensures (a, r.phase) in Waits(c) && !Settled(s, r.phase)
  {
    ParkedIsBlocked(c, s, a, r);
    assert Prompt(c, r);
    if Succeeded(s, r.phase) {
      SuccessFires(c, s, r);
    }
    UnfiredBlocks(c, s, r);
  }

  /** At rest, whatever has not settled waits on something else that has not. */
  lemma UnsettledWaitsOnUnsettled(c: Config, s: World, a: Phase) returns (b: Phase)
    requires WellFormed(c) && AllPrompt(c) && Inv(c, s) && Quiescent(c, s) && a in Unsettled(c, s)
    ensures b in Unsettled(c, s) && (a, b) in Waits(c)
  {
    var r := UnsettledIsParked(c, s, a);
    ParkedWaits(c, s, a, r);
    ParkedIsBlocked(c, s, a, r);
    assert Prompt(c, r);
    b := r.phase;
    assert b.Runtime? || b.Provision?;
  }

  /** The only way to get stuck is a cycle of waits among runtimes and provisions. */
  lemma StuckLeadsToCycle(c: Config, s: World, a: Phase)
    requires WellFormed(c) && AllPrompt(c) && Reachable(c, s) && Quiescent(c, s)
    requires Configured(c, a) && !Settled(s, a)
    ensures a in Unsettled(c, s) && LeadsToCycle(Waits(c), a)
  {
    ReachableInv(c, s);
    if a.Toolchain? {
      ToolchainsRest(c, s, a.n);
    } else if a.Build? {
      BuildsRest(c, s, a.n);
    }
    var stuck := Unsettled(c, s);
    forall x | x in stuck
      ensures HasNext(Waits(c), stuck, x)
    {
      var y := UnsettledWaitsOnUnsettled(c, s, x);
    }
    EndlessLeadsToCycle(Waits(c), stuck, a);
  }

  /** No stuck bringup: with an acyclic wait graph, a run that comes to rest has settled every
      toolchain, build, runtime and started provision, and the handler has given its verdict. */
  lemma BringupSettles(c: Config, s: World)
    requires WellFormed(c) && AllPrompt(c) && Acyclic(Waits(c)) && Reachable(c, s) && Quiescent(c, s)
    ensures forall p :: Configured(c, p) ==> Settled(s, p) && TrackOf(s, p).value.done
    ensures s.handler == HandlerEnd && (s.shutdown || |s.events| == 1)
  {
    ReachableInv(c, s);
    forall p | Configured(c, p)
      ensures Settled(s, p) && TrackOf(s, p).value.done
    {
      if !Settled(s, p) {
        StuckLeadsToCycle(c, s, p);
      }
      OutcomesRest(c, s, p);
    }
    forall i | 0 <= i < |s.svcs|
      ensures s.svcs[i].run.done
    {
      assert Configured(c, Runtime(i));
    }
    forall p | 0 <= p < |s.provs| && Awaited(c.provisions[p])
      ensures s.provs[p].run.done
    {
      assert Configured(c, Provision(p));
    }
    HandlerRests(c, s);
  }

  lemma UpIsNotBroken(c: Config, s: World)
    requires Reachable(c, s) && Sized(c, s) && StackUp(c, s)
    ensures !StackBroken(c, s)
  {
    if StackBroken(c, s) {
      if i :| 0 <= i < |s.svcs| && HasFailed(s, Runtime(i)) {
        OutcomesExclude(c, s, Runtime(i));
      } else {
        var p :| 0 <= p < |s.provs| && Awaited(c.provisions[p]) && HasFailed(s, Provision(p));
        OutcomesExclude(c, s, Provision(p));
      }
    }
  }

  /** A bringup without a cycle of waits ends in one of two ways: a shutdown, or a success report for a
      stack that is up. Under failfast, any failure of what is awaited ends it in a shutdown. */
  lemma RestIsSuccessOrShutdown(c: Config, s: World)
    requires WellFormed(c) && AllPrompt(c) && Acyclic(Waits(c)) && Reachable(c, s) && Quiescent(c, s)
    ensures Sized(c, s) && (s.shutdown || (s.events == [DoneEvent] && s.released && StackUp(c, s)))
    ensures StackBroken(c, s) ==> s.shutdown
  {
    BringupSettles(c, s);
    ReachableInv(c, s);
    if !s.shutdown {
      UpIsNotBroken(c, s);
    }
  }

  lemma HandlerRests(c: Config, s: World)
    requires Inv(c, s) && Quiescent(c, s)
    requires forall i :: 0 <= i < |s.svcs| ==> s.svcs[i].run.done
    requires forall p :: 0 <= p < |s.provs| && Awaited(c.provisions[p]) ==> s.provs[p].run.done
    ensures s.handler == HandlerEnd && (s.shutdown || |s.events| == 1)
  {
    assert Next(c, s, HandlerL(Go)).None? && Next(c, s, HandlerL(Cut)).None?;
  }
}
