/** Safety of whole configure runs: outcomes, dependencies and the verdict. */
module BringupTheorems {
  import opened Paths
  import opened EntityLifecycles
  import opened Wrappers
  import opened BringupModel
  import opened BringupSafety

  /** No service is ever both ready and failed, no build or provision both succeeded and failed. */
  lemma OutcomesExclude(c: Config, s: World, p: Phase)
    requires Reachable(c, s)
    ensures !(Succeeded(s, p) && HasFailed(s, p))
  {
    ReachableInv(c, s);
    if TrackOf(s, p).Some? {
      if p.Toolchain? {
        assert TcShape(s.tcs[p.n]);
      } else if p.Provision? {
        ProvExcludes(c.provisions[p.n], s.provs[p.n]);
      } else {
        SvcExcludes(c.services[p.n], s.svcs[p.n]);
      }
    }
  }

  lemma SvcExcludes(sp: SvcSpec, v: Svc)
    requires SvcShape(sp, v)
    ensures !(Success in v.build.fired && Failure in v.build.fired) && !(Ready in v.run.fired && Failed in v.run.fired)
  {
  }

  lemma ProvExcludes(sp: ProvSpec, v: Prov)
    requires ProvShape(sp, v)
    ensures !(Success in v.run.fired && Failure in v.run.fired)
  {
  }

  /** A supervisor that has closed its done channel has fired exactly one outcome of each of its
      phases; a latent provision, which has none, has fired nothing at all. */
  lemma OutcomesAreTotal(c: Config, s: World)
    requires Reachable(c, s)
    ensures forall i :: 0 <= i < |s.svcs| && s.svcs[i].pc.Exited? ==>
                          && (Succeeded(s, Build(i)) <==> !HasFailed(s, Build(i)))
                          && (Succeeded(s, Runtime(i)) <==> !HasFailed(s, Runtime(i)))
    ensures Sized(c, s) && forall p :: 0 <= p < |s.provs| && ProvClosed(s.provs[p]) ==>
                             if c.provisions[p].latent then s.provs[p].run.fired == {}
                             else Succeeded(s, Provision(p)) <==> !HasFailed(s, Provision(p))
  {
    ReachableInv(c, s);
    forall i | 0 <= i < |s.svcs| && s.svcs[i].pc.Exited?
      ensures (Succeeded(s, Build(i)) <==> !HasFailed(s, Build(i))) && (Succeeded(s, Runtime(i)) <==> !HasFailed(s, Runtime(i)))
    {
      ExitedIsOver(c, s, i);
    }
    forall p | 0 <= p < |s.provs| && ProvClosed(s.provs[p])
      ensures if c.provisions[p].latent then s.provs[p].run.fired == {}
              else Succeeded(s, Provision(p)) <==> !HasFailed(s, Provision(p))
    {
      ClosedIsOver(c, s, p);
    }
  }

  lemma ExitedIsOver(c: Config, s: World, i: nat)
    requires Inv(c, s) && i < |s.svcs| && s.svcs[i].pc.Exited?
    ensures Succeeded(s, Build(i)) <==> !HasFailed(s, Build(i))
    ensures Succeeded(s, Runtime(i)) <==> !HasFailed(s, Runtime(i))
  {
    assert SvcShape(c.services[i], s.svcs[i]);
  }

  lemma ClosedIsOver(c: Config, s: World, p: nat)
    requires Inv(c, s) && p < |s.provs| && ProvClosed(s.provs[p])
    ensures if c.provisions[p].latent then s.provs[p].run.fired == {}
            else Succeeded(s, Provision(p)) <==> !HasFailed(s, Provision(p))
  {
    assert ProvShape(c.provisions[p], s.provs[p]);
  }

  // ---- dependencies ----

  /** The checkout and build, the process, or a shell of the phase has been started. */
  predicate Started(s: World, p: Phase) {
    match p
    case Toolchain(n) => n < |s.tcs| && !s.tcs[n].pc.TcStart?
    case Build(n) => n < |s.svcs| && s.svcs[n].prepared
    case Runtime(n) => n < |s.svcs| && s.svcs[n].spawned
    case Provision(n) => n < |s.provs| && s.provs[n].ran
  }

  /** A ref that fires only once its phase has succeeded. */
  predicate Demands(r: Ref) {
    r.state == Good(KindOf(r.phase)) || (r.phase.Runtime? && r.state == Stopped)
  }

  /** What must succeed before a phase starts: the toolchain before the build, the build before the
      process, the toolchain before a provision's shells, and every awaited success. */
  ghost function Needs(c: Config): set<(Phase, Phase)> {
    (set i | 0 <= i < |c.services| && c.services[i].toolchain.Some? :: (Build(i), Toolchain(c.services[i].toolchain.value)))
    + (set i | 0 <= i < |c.services| :: (Runtime(i), Build(i)))
    + (set i, r | 0 <= i < |c.services| && r in c.services[i].after && Demands(r) :: (Runtime(i), r.phase))
    + (set p | 0 <= p < |c.provisions| && c.provisions[p].toolchain.Some? ::
         (Provision(p), Toolchain(c.provisions[p].toolchain.value)))
    + (set p, r | 0 <= p < |c.provisions| && r in c.provisions[p].after && Demands(r) :: (Provision(p), r.phase))
  }

  lemma DemandMet(c: Config, s: World, r: Ref)
    requires Inv(c, s) && Demands(r) && HasFired(s, r)
    ensures Succeeded(s, r.phase)
  {
    if r.state == Stopped {
      assert SvcShape(c.services[r.phase.n], s.svcs[r.phase.n]);
    }
  }

  lemma StartedNeedsOne(c: Config, s: World, a: Phase, b: Phase)
    requires Inv(c, s) && Started(s, a) && (a, b) in Needs(c)
    ensures Succeeded(s, b)
  {
    if a.Build? {
      assert SvcEvidence(s, c.services[a.n], s.svcs[a.n]);
    } else if a.Runtime? {
      RuntimeNeeds(c, s, a.n, b);
    } else if a.Provision? {
      ProvisionNeeds(c, s, a.n, b);
    }
  }

  lemma RuntimeNeeds(c: Config, s: World, n: nat, b: Phase)
    requires Inv(c, s) && Started(s, Runtime(n)) && (Runtime(n), b) in Needs(c)
    ensures Succeeded(s, b)
  {
    if b == Build(n) {
      SpawnedIsBuilt(c, s, n);
    } else {
      var r := AwaitedRef(c, n, b);
      RuntimeAwaited(c, s, n, r);
    }
  }

  lemma SpawnedIsBuilt(c: Config, s: World, n: nat)
    requires Inv(c, s) && Started(s, Runtime(n))
    ensures Succeeded(s, Build(n))
  {
    assert SvcShape(c.services[n], s.svcs[n]);
  }

  lemma AwaitedRef(c: Config, n: nat, b: Phase) returns (r: Ref)
    requires n < |c.services| && (Runtime(n), b) in Needs(c) && b != Build(n)
    ensures r in c.services[n].after && Demands(r) && r.phase == b
  {
    r :| r in c.services[n].after && Demands(r) && r.phase == b;
  }

  lemma RuntimeAwaited(c: Config, s: World, n: nat, r: Ref)
    requires Inv(c, s) && Started(s, Runtime(n)) && r in c.services[n].after && Demands(r)
    ensures Succeeded(s, r.phase)
  {
    assert SvcEvidence(s, c.services[n], s.svcs[n]);
    DemandMet(c, s, r);
  }

  lemma ProvisionNeeds(c: Config, s: World, n: nat, b: Phase)
    requires Inv(c, s) && Started(s, Provision(n)) && (Provision(n), b) in Needs(c)
    ensures Succeeded(s, b)
  {
    if r :| r in c.provisions[n].after && Demands(r) && r.phase == b {
      ProvisionAwaited(c, s, n, r);
    } else {
      assert ProvEvidence(s, c.provisions[n], s.provs[n]);
    }
  }

  lemma ProvisionAwaited(c: Config, s: World, n: nat, r: Ref)
    requires Inv(c, s) && Started(s, Provision(n)) && r in c.provisions[n].after && Demands(r)
    ensures Succeeded(s, r.phase)
  {
    assert ProvEvidence(s, c.provisions[n], s.provs[n]);
    DemandMet(c, s, r);
  }

  lemma SucceededStarted(c: Config, s: World, a: Phase)
    requires Inv(c, s) && Succeeded(s, a)
    ensures Started(s, a)
  {
    match a
    case Toolchain(n) => assert TcShape(s.tcs[n]);
    case Build(n) => assert SvcShape(c.services[n], s.svcs[n]);
    case Runtime(n) => assert SvcShape(c.services[n], s.svcs[n]);
    case Provision(n) => assert ProvShape(c.provisions[n], s.provs[n]);
  }

  /** Nothing starts before everything it needs, however indirectly, has succeeded. */
  lemma StartsOnlyOnSuccess(c: Config, s: World, a: Phase, b: Phase)
    requires Reachable(c, s) && Started(s, a) && Reaches(Needs(c), a, b)
    ensures Succeeded(s, b)
  {
    ReachableInv(c, s);
    var first := FirstStep(Needs(c), a, b);
    StartedNeedsOne(c, s, a, first);
    var up := set e | e in Needs(c) && Succeeded(s, e.1) :: e.1;
    forall x, y | x in up && (x, y) in Needs(c)
      ensures y in up
    {
      SucceededStarted(c, s, x);
      StartedNeedsOne(c, s, x, y);
    }
    assert (a, first) in Needs(c);
    if first != b {
      StaysInside(Needs(c), up, first, b);
    }
  }

  lemma {:induction false} ExecJoin(c: Config, s: World, run: seq<Label>, more: seq<Label>)
    requires Exec(c, s, run).Some?
    ensures Exec(c, s, run + more) == Exec(c, Exec(c, s, run).value, more)
    decreases run
  {
    if run == [] {
      assert run + more == more;
    } else {
      var both := run + more;
      assert both[0] == run[0] && both[1..] == run[1..] + more;
      ExecJoin(c, Next(c, s, run[0]).value, run[1..], more);
    }
  }

  /** Once a phase has failed, nothing that needs it, however indirectly, starts for the rest of the
      run, whatever happens in between. */
  lemma FailureBlocksDependents(c: Config, s: World, rest: seq<Label>, a: Phase, b: Phase)
    requires Reachable(c, s) && HasFailed(s, b) && Reaches(Needs(c), a, b)
    requires Exec(c, s, rest).Some?
    ensures !Started(Exec(c, s, rest).value, a)
  {
    var t := Exec(c, s, rest).value;
    ReachableInv(c, s);
    RunInv(c, s, rest);
    FiredGrows(s, t, Ref(b, Bad(KindOf(b))));
    var run :| Exec(c, Init(c), run) == Some(s);
    ExecJoin(c, Init(c), run, rest);
    assert Reachable(c, t);
    OutcomesExclude(c, t, b);
    if Started(t, a) {
      StartsOnlyOnSuccess(c, t, a, b);
    }
  }

  // ---- the verdict ----

  /** The handler reports at most once. A success report means that every service and every provision
      that is neither detached nor latent had its outcome, a good one under failfast, and that the
      lifeline was released first; an error report means failfast and a failure among them. Only a
      shutdown ends the handler without a report. */
  lemma VerdictIsSound(c: Config, s: World)
    requires Reachable(c, s)
    ensures Sized(c, s) && |s.events| <= 1
    ensures DoneEvent in s.events ==>
              && s.released
              && (forall i :: 0 <= i < |s.svcs| ==> s.svcs[i].run.done && (c.failfast ==> HasFired(s, Ref(Runtime(i), Ready))))
              && (forall p :: 0 <= p < |s.provs| && !c.provisions[p].detached && !c.provisions[p].latent ==>
                    s.provs[p].run.done && (c.failfast ==> HasFired(s, Ref(Provision(p), Success))))
    ensures ErrorEvent in s.events ==>
              && c.failfast
              && (|| (exists i :: 0 <= i < |s.svcs| && HasFired(s, Ref(Runtime(i), Failed)))
                  || (exists p :: 0 <= p < |s.provs| && !c.provisions[p].detached && !c.provisions[p].latent
                                  && HasFired(s, Ref(Provision(p), Failure))))
    ensures s.handler == HandlerEnd && (s.events == [] || ErrorEvent in s.events) ==> s.shutdown
  {
    ReachableInv(c, s);
    assert DoneEvent in s.events ==> StackUp(c, s);
    if ErrorEvent in s.events {
      assert StackBroken(c, s);
      if i :| 0 <= i < |s.svcs| && HasFailed(s, Runtime(i)) {
        assert HasFired(s, Ref(Runtime(i), Failed));
      } else {
        var p :| 0 <= p < |s.provs| && Awaited(c.provisions[p]) && HasFailed(s, Provision(p));
        assert HasFired(s, Ref(Provision(p), Failure));
      }
    }
  }
}
