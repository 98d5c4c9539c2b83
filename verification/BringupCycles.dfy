/** The exact condition for a stuck bringup: some run gets stuck on a phase precisely when the phase
    leads to a cycle of waits. The run that gets stuck is the one in which nothing goes wrong. */
module BringupCycles {
  import opened Paths
  import opened EntityLifecycles
  import opened Wrappers
  import opened BringupModel
  import opened BringupSafety
  import opened BringupProgress
  import opened BringupRest

  /** The ref names a configured phase and a state that phase has. */
  predicate Known(c: Config, r: Ref) {
    && (r.state == Done || r.state in States(KindOf(r.phase)))
    && match r.phase
       case Toolchain(n) => n < c.toolchains
       case Build(n) => n < |c.services|
       case Runtime(n) => n < |c.services|
       case Provision(n) => n < |c.provisions|
  }

  predicate AllKnown(c: Config) {
    && (forall i, r :: 0 <= i < |c.services| && r in c.services[i].after ==> Known(c, r))
    && (forall p, r :: 0 <= p < |c.provisions| && r in c.provisions[p].after ==> Known(c, r))
    && (forall p :: 0 <= p < |c.provisions| && c.provisions[p].template.Some? ==>
                      c.provisions[p].template.value < |c.provisions|)
  }

  // ---- runs in which nothing goes wrong ----

  predicate SunnySvc(v: Svc) {
    !v.stop && !v.removed && !v.pc.Killing? && !v.pc.Unwinding? && !v.pc.Exited?
  }

  predicate SunnyProv(v: Prov) {
    && !v.stop && !v.removed && Failure !in v.run.fired
    && (v.pc.PUnwinding? ==> forall a :: a in v.pc.todo ==> a == ReachRun(Success))
  }

  ghost predicate Sunny(c: Config, s: World) {
    && Sized(c, s) && !s.shutdown && s.sweeper == Idle && s.handler != Complain
    && (forall i :: 0 <= i < |s.svcs| ==> SunnySvc(s.svcs[i]))
    && (forall p :: 0 <= p < |s.provs| ==> SunnyProv(s.provs[p]))
    && (forall k :: 0 <= k < |s.tcs| ==> Failed !in s.tcs[k].run.fired)
  }

  predicate SunnyLabel(l: Label) {
    match l
    case SvcL(_, ch) => ch == Go
    case ProvL(_, ch) => ch == Go
    case TcL(_, ch) => ch == Go
    case AnyL(_) => true
    case HandlerL(ch) => ch == Go
    case _ => false
  }

  lemma SunnyKept(c: Config, s: World, l: Label, t: World)
    requires Inv(c, s) && Sunny(c, s) && SunnyLabel(l) && Next(c, s, l) == Some(t)
    ensures Sunny(c, t)
  {
    if l.SvcL? {
      SunnySvcKept(c, s, l.n);
    } else if l.ProvL? {
      SunnyProvKept(c, s, l.n);
    } else if l.HandlerL? {
      SunnyHandlerKept(c, s, t);
    } else if l.AnyL? {
      SunnyAnyKept(c, s, l.phase, t);
    }
  }

  lemma SunnyAnyKept(c: Config, s: World, p: Phase, t: World)
    requires Sunny(c, s) && AnyStep(s, p) == Some(t)
    ensures Sunny(c, t)
  {
    AnyOnlyDone(s, p, t);
  }

  lemma SunnySvcKept(c: Config, s: World, i: nat)
    requires Sunny(c, s) && i < |s.svcs| && SvcStep(c, s, i, Go).Some?
    ensures SunnySvc(SvcStep(c, s, i, Go).value.local) && !SvcStep(c, s, i, Go).value.ask
  {
  }

  lemma SunnyProvKept(c: Config, s: World, p: nat)
    requires Inv(c, s) && Sunny(c, s) && p < |s.provs| && ProvStep(c, s, p, Go).Some?
    ensures SunnyProv(ProvStep(c, s, p, Go).value.local) && !ProvStep(c, s, p, Go).value.ask
  {
    var v, w := s.provs[p], ProvStep(c, s, p, Go).value.local;
    if v.pc.PUnwinding? && v.pc.todo != [] {
      Popped(v.pc.todo);
      assert v.pc.todo[0] in v.pc.todo;
    } else if w.pc.PUnwinding? {
      assert w.pc.todo == [ReachRun(Success)];
    }
  }

  lemma SunnyHandlerKept(c: Config, s: World, t: World)
    requires Inv(c, s) && Sunny(c, s) && HandlerStep(c, s, Go) == Some(t)
    ensures Sunny(c, t)
  {
    HandlerOnly(c, s, Go, t);
    if s.handler.CheckSvc? && s.handler.n < |s.svcs| {
      assert SvcShape(c.services[s.handler.n], s.svcs[s.handler.n]);
    } else if s.handler.CheckProv? && s.handler.n < |s.provs| {
      assert ProvShape(c.provisions[s.handler.n], s.provs[s.handler.n]);
    }
  }

  /** While all is well, a goroutine that could fail could also succeed. */
  lemma SunnyRest(c: Config, s: World)
    requires WellFormed(c) && AllKnown(c) && Inv(c, s) && Sunny(c, s)
    requires forall l :: SunnyLabel(l) ==> Next(c, s, l).None?
    ensures Quiescent(c, s)
  {
    forall l | OwnStep(s, l)
      ensures Next(c, s, l).None?
    {
      if l.SvcL? && l.n < |s.svcs| {
        SunnySvcRests(c, s, l.n, l.ch);
      } else if l.ProvL? && l.n < |s.provs| {
        SunnyProvRests(c, s, l.n, l.ch);
      } else if l.TcL? && l.n < |s.tcs| {
        assert Next(c, s, TcL(l.n, Go)).None?;
      } else if l.HandlerL? {
        assert Next(c, s, HandlerL(Go)).None?;
      }
    }
  }

  lemma NothingFailed(c: Config, s: World, p: Phase)
    requires Inv(c, s) && Sunny(c, s)
    ensures !HasFailed(s, p)
  {
    if (p.Build? || p.Runtime?) && p.n < |s.svcs| {
      assert SvcShape(c.services[p.n], s.svcs[p.n]);
    }
  }

  lemma SunnySvcRests(c: Config, s: World, i: nat, ch: Choice)
    requires WellFormed(c) && AllKnown(c) && Inv(c, s) && Sunny(c, s) && i < |s.svcs|
    requires forall l :: SunnyLabel(l) ==> Next(c, s, l).None?
    requires OwnStep(s, SvcL(i, ch))
    ensures Next(c, s, SvcL(i, ch)).None?
  {
    assert Next(c, s, SvcL(i, Go)).None?;
    var sp, v := c.services[i], s.svcs[i];
    if sp.toolchain.Some? {
      NothingFailed(c, s, Toolchain(sp.toolchain.value));
    }
    if v.pc.Waiting? && v.pc.k < |WaitRefs(sp, v.pc.early)| {
      var r := WaitRefs(sp, v.pc.early)[v.pc.k];
      NothingFailed(c, s, r.phase);
      assert Known(c, r);
      assert Resolves(s, r);
    }
  }

  lemma SunnyProvRests(c: Config, s: World, p: nat, ch: Choice)
    requires WellFormed(c) && AllKnown(c) && Inv(c, s) && Sunny(c, s) && p < |s.provs|
    requires forall l :: SunnyLabel(l) ==> Next(c, s, l).None?
    ensures Next(c, s, ProvL(p, ch)).None?
  {
    assert Next(c, s, ProvL(p, Go)).None?;
    var sp, v := c.provisions[p], s.provs[p];
    if sp.toolchain.Some? {
      NothingFailed(c, s, Toolchain(sp.toolchain.value));
    }
    if v.pc.PWaiting? && v.pc.k < |sp.after| {
      var r := sp.after[v.pc.k];
      NothingFailed(c, s, r.phase);
      assert Known(c, r);
      assert Resolves(s, r);
    }
  }

  // ---- goroutines that wait for each other stay where they are ----

  /** Not past the last wait of its `after`. */
  predicate Early(s: World, a: Phase) {
    match a
    case Runtime(i) =>
      i < |s.svcs| && var pc := s.svcs[i].pc; pc.Waiting? || pc.Locking? || pc.InWorkspace? || pc.Building? || pc.Gate?
    case Provision(p) =>
      p < |s.provs| && var pc := s.provs[p].pc; pc.Dormant? || pc.Begin? || pc.FindTemplate? || pc.PWaiting?
    case _ => false
  }

  /** Each member waits, in a way that blocks, for a member. */
  ghost predicate Knot(c: Config, knot: set<Phase>) {
    forall a {:trigger HasNext(Waits(c), knot, a)} :: a in knot ==> HasNext(Waits(c), knot, a)
  }

  lemma EarlyHasNotFired(c: Config, s: World, r: Ref)
    requires Inv(c, s) && Early(s, r.phase) && Blocks(r)
    ensures !HasFired(s, r)
  {
    if r.phase.Runtime? {
      assert SvcShape(c.services[r.phase.n], s.svcs[r.phase.n]);
    } else {
      assert ProvShape(c.provisions[r.phase.n], s.provs[r.phase.n]);
    }
  }

  lemma KnotStays(c: Config, s: World, l: Label, t: World, knot: set<Phase>, a: Phase)
    requires Inv(c, s) && Sunny(c, s) && SunnyLabel(l) && Next(c, s, l) == Some(t) && AllKnown(c)
    requires Knot(c, knot) && a in knot && forall b :: b in knot ==> Early(s, b)
    ensures Early(t, a)
  {
    assert HasNext(Waits(c), knot, a);
    var b :| b in knot && (a, b) in Waits(c);
    if a.Runtime? {
      var r :| r in c.services[a.n].after && Blocks(r) && r.phase == b;
      EarlyHasNotFired(c, s, r);
      SvcStays(c, s, l, t, a.n, r);
    } else {
      var r :| r in c.provisions[a.n].after && Blocks(r) && r.phase == b;
      EarlyHasNotFired(c, s, r);
      ProvStays(c, s, l, t, a.n, r);
    }
  }

  lemma SvcStays(c: Config, s: World, l: Label, t: World, i: nat, r: Ref)
    requires Inv(c, s) && Sunny(c, s) && SunnyLabel(l) && Next(c, s, l) == Some(t)
    requires Early(s, Runtime(i)) && r in c.services[i].after && !HasFired(s, r)
    ensures Early(t, Runtime(i))
  {
    if l == SvcL(i, Go) {
      assert SvcEvidence(s, c.services[i], s.svcs[i]);
    } else if l.AnyL? {
      AnyOnlyDone(s, l.phase, t);
    } else if l.HandlerL? {
      HandlerOnly(c, s, l.ch, t);
    }
  }

  lemma ProvStays(c: Config, s: World, l: Label, t: World, p: nat, r: Ref)
    requires Inv(c, s) && Sunny(c, s) && SunnyLabel(l) && Next(c, s, l) == Some(t)
    requires Early(s, Provision(p)) && r in c.provisions[p].after && !HasFired(s, r)
    requires AllKnown(c)
    ensures Early(t, Provision(p))
  {
    if l == ProvL(p, Go) {
      assert ProvEvidence(s, c.provisions[p], s.provs[p]);
    } else if l.AnyL? {
      AnyOnlyDone(s, l.phase, t);
    } else if l.HandlerL? {
      HandlerOnly(c, s, l.ch, t);
    }
  }

  /** Keep taking sunny steps; the budget runs out, and the knot has not moved. */
  lemma {:induction false} SunnyRun(c: Config, s: World, knot: set<Phase>) returns (run: seq<Label>, t: World)
    requires WellFormed(c) && AllKnown(c) && Inv(c, s) && Sunny(c, s)
    requires Knot(c, knot) && forall a :: a in knot ==> Early(s, a)
    ensures Exec(c, s, run) == Some(t) && Inv(c, t) && Quiescent(c, t)
    ensures forall a :: a in knot ==> Early(t, a)
    decreases Budget(c, s)
  {
    if l :| SunnyLabel(l) && Next(c, s, l).Some? {
      var u := Next(c, s, l).value;
      InvKept(c, s, l, u);
      SunnyKept(c, s, l, u);
      StepSpends(c, s, l, u);
      SpendingLowersBudget(c, s, u);
      forall a | a in knot
        ensures Early(u, a)
      {
        KnotStays(c, s, l, u, knot, a);
      }
      var rest, last := SunnyRun(c, u, knot);
      run, t := [l] + rest, last;
      assert run[1..] == rest;
    } else {
      SunnyRest(c, s);
      run, t := [], s;
    }
  }

  /** The phases that lead to a cycle of waits wait for each other. */
  ghost function Tangled(c: Config): set<Phase> {
    set e | e in Waits(c) && LeadsToCycle(Waits(c), e.0) :: e.0
  }

  lemma LeadsOn<T(!new)>(edges: set<(T, T)>, a: T) returns (b: T)
    requires LeadsToCycle(edges, a)
    ensures (a, b) in edges && LeadsToCycle(edges, b)
  {
    var c :| (c == a || Reaches(edges, a, c)) && Reaches(edges, c, c);
    b := FirstStep(edges, a, c);
  }

  lemma TangledIsKnot(c: Config)
    ensures Knot(c, Tangled(c))
    ensures forall a :: LeadsToCycle(Waits(c), a) ==> a in Tangled(c)
  {
    forall a | LeadsToCycle(Waits(c), a)
      ensures a in Tangled(c) && HasNext(Waits(c), Tangled(c), a)
    {
      var b := LeadsOn(Waits(c), a);
      assert (a, b) in Waits(c);
      var d := LeadsOn(Waits(c), b);
      assert (b, d) in Waits(c);
    }
  }

  /** Some run comes to rest with `a` unsettled exactly when `a` leads to a cycle of waits. */
  lemma StuckIffLeadsToCycle(c: Config, a: Phase)
    requires WellFormed(c) && AllKnown(c) && AllPrompt(c) && Configured(c, a)
    ensures (exists s :: Reachable(c, s) && Quiescent(c, s) && !Settled(s, a)) <==> LeadsToCycle(Waits(c), a)
  {
    if s :| Reachable(c, s) && Quiescent(c, s) && !Settled(s, a) {
      StuckLeadsToCycle(c, s, a);
    }
    if LeadsToCycle(Waits(c), a) {
      var t := TangledGetsStuck(c, a);
    }
  }

  lemma TangledGetsStuck(c: Config, a: Phase) returns (t: World)
    requires WellFormed(c) && AllKnown(c) && LeadsToCycle(Waits(c), a)
    ensures Reachable(c, t) && Quiescent(c, t) && !Settled(t, a)
  {
    TangledIsKnot(c);
    InitInv(c);
    AllStartEarly(c);
    var run;
    run, t := SunnyRun(c, Init(c), Tangled(c));
    EarlyIsUnsettled(c, t, a);
  }

  lemma AllStartEarly(c: Config)
    ensures forall a :: a in Tangled(c) ==> Early(Init(c), a)
  {
  }

  lemma EarlyIsUnsettled(c: Config, s: World, a: Phase)
    requires Inv(c, s) && Early(s, a)
    ensures !Settled(s, a)
  {
    if a.Runtime? {
      assert SvcShape(c.services[a.n], s.svcs[a.n]);
    } else {
      assert ProvShape(c.provisions[a.n], s.provs[a.n]);
    }
  }
}
