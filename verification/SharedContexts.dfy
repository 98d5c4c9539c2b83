/** Services on one context. alpha keeps contexts by display name, so services that differ in toolchain
    only run their supervisors on one (cmd/alpha/main.go). What is proved of a configure run holds
    exactly if no two services share. */
module SharedContexts {
  import opened EntityLifecycles
  import opened Wrappers
  import opened BringupModel
  import opened BringupSafety
  import opened BringupTheorems
  import opened BringupRest

  /** The context of each service. */
  type Contexts = seq<nat>

  predicate OnItsOwn(ctx: Contexts) {
    forall i, j :: 0 <= i < j < |ctx| ==> ctx[i] != ctx[j]
  }

  /** alpha while it runs, or once it has closed a closed channel. */
  datatype Alpha = Alive(w: World) | Panicked(w: World)

  /** Barriers and flags are the context's; where a supervisor is, and what it started, is its own. */
  function OnContextOf(v: Svc, w: Svc): Svc {
    v.(build := w.build, run := w.run, stop := w.stop, removed := w.removed)
  }

  function Share(ctx: Contexts, s: World, i: nat): World
    requires |s.svcs| == |ctx| && i < |ctx|
  {
    s.(svcs := seq(|s.svcs|, j requires 0 <= j < |s.svcs| =>
      if ctx[j] == ctx[i] then OnContextOf(s.svcs[j], s.svcs[i]) else s.svcs[j]))
  }

  /** The service whose context a step writes to. */
  function Writes(s: World, l: Label): Option<nat> {
    match l
    case SvcL(i, _) => Some(i)
    case AnyL(p) => if p.Build? || p.Runtime? then Some(p.n) else None
    case StopSvc(i) => Some(i)
    case RemoveSvc(i) => Some(i)
    case SweeperL => if s.sweeper.Stopping? && s.sweeper.n < |s.svcs| then Some(s.sweeper.n) else None
    case _ => None
  }

  /** Some supervisor on the context of `i` has returned, so its done channel is closed. */
  predicate DoneClosed(ctx: Contexts, s: World, i: nat)
    requires |s.svcs| == |ctx| && i < |ctx|
  {
    exists j :: 0 <= j < |ctx| && ctx[j] == ctx[i] && s.svcs[j].pc.Exited?
  }

  function Step(c: Config, ctx: Contexts, s: World, l: Label): Option<World>
    requires |ctx| == |c.services| && Sized(c, s)
  {
    if l.SweeperL? && s.sweeper.Reaping? && s.sweeper.n < |s.svcs| then
      if DoneClosed(ctx, s, s.sweeper.n) then Some(s.(sweeper := Reaping(s.sweeper.n + 1))) else None
    else BringupModel.Next(c, s, l)
  }

  function Next(c: Config, ctx: Contexts, x: Alpha, l: Label): Option<Alpha>
    requires |ctx| == |c.services|
  {
    if x.Panicked? || !Sized(c, x.w) then None
    else match Step(c, ctx, x.w, l)
      case None => None
      case Some(t) =>
        if l.SvcL? && l.n < |ctx| && |t.svcs| == |ctx| && t.svcs[l.n].pc.Exited? && DoneClosed(ctx, x.w, l.n) then Some(Panicked(x.w))
        else match Writes(x.w, l)
          case None => Some(Alive(t))
          case Some(i) => if i < |ctx| && |t.svcs| == |ctx| then Some(Alive(Share(ctx, t, i))) else None
  }

  function Exec(c: Config, ctx: Contexts, x: Alpha, run: seq<Label>): Option<Alpha>
    requires |ctx| == |c.services|
    decreases run
  {
    if run == [] then Some(x)
    else match Next(c, ctx, x, run[0])
      case None => None
      case Some(y) => Exec(c, ctx, y, run[1..])
  }

  ghost predicate Reachable(c: Config, ctx: Contexts, x: Alpha)
    requires |ctx| == |c.services|
  {
    Leads(c, ctx, Alive(Init(c)), x)
  }

  ghost predicate Leads(c: Config, ctx: Contexts, x: Alpha, y: Alpha)
    requires |ctx| == |c.services|
  {
    exists run :: Exec(c, ctx, x, run) == Some(y)
  }

  ghost predicate Quiescent(c: Config, ctx: Contexts, x: Alpha)
    requires |ctx| == |c.services|
  {
    forall l :: OwnStep(x.w, l) ==> Next(c, ctx, x, l).None?
  }

  // ---- contexts of their own: the transition system of a configure run ----

  function Lift(w: Option<World>): Option<Alpha> {
    match w
    case None => None
    case Some(t) => Some(Alive(t))
  }

  lemma ShareAlone(ctx: Contexts, s: World, i: nat)
    requires OnItsOwn(ctx) && |s.svcs| == |ctx| && i < |ctx|
    ensures Share(ctx, s, i) == s
  {
    assert Share(ctx, s, i).svcs == s.svcs;
  }

  lemma StepKeepsSize(c: Config, s: World, l: Label, t: World)
    requires Sized(c, s) && BringupModel.Next(c, s, l) == Some(t)
    ensures Sized(c, t)
  {
    if l.HandlerL? {
      HandlerOnly(c, s, l.ch, t);
    } else if l.AnyL? {
      AnyKeepsSize(s, l.phase, t);
    } else if !l.SvcL? && !l.ProvL? && !l.TcL? {
      OnlyFlags(c, s, l, t);
    }
  }

  lemma AnyKeepsSize(s: World, p: Phase, t: World)
    requires AnyStep(s, p) == Some(t)
    ensures |t.svcs| == |s.svcs| && |t.provs| == |s.provs| && |t.tcs| == |s.tcs|
  {
  }

  lemma WritesInside(c: Config, s: World, l: Label)
    requires Sized(c, s) && BringupModel.Next(c, s, l).Some? && Writes(s, l).Some?
    ensures Writes(s, l).value < |s.svcs|
  {
  }

  lemma ExitedRests(c: Config, s: World, i: nat, ch: Choice)
    requires Sized(c, s) && BringupModel.Next(c, s, SvcL(i, ch)).Some?
    ensures i < |s.svcs| && !s.svcs[i].pc.Exited?
  {
  }

  lemma StepAlone(c: Config, ctx: Contexts, s: World, l: Label)
    requires OnItsOwn(ctx) && |ctx| == |c.services|
    ensures Next(c, ctx, Alive(s), l) == Lift(BringupModel.Next(c, s, l))
  {
    if Sized(c, s) {
      if l.SweeperL? && s.sweeper.Reaping? && s.sweeper.n < |s.svcs| {
        assert DoneClosed(ctx, s, s.sweeper.n) <==> s.svcs[s.sweeper.n].pc.Exited?;
      } else if BringupModel.Next(c, s, l).Some? {
        var t := BringupModel.Next(c, s, l).value;
        StepKeepsSize(c, s, l, t);
        if l.SvcL? {
          ExitedRests(c, s, l.n, l.ch);
        }
        if Writes(s, l).Some? {
          WritesInside(c, s, l);
          ShareAlone(ctx, t, Writes(s, l).value);
        }
      }
    }
  }

  lemma {:induction false} ExecAlone(c: Config, ctx: Contexts, s: World, run: seq<Label>)
    requires OnItsOwn(ctx) && |ctx| == |c.services|
    ensures Exec(c, ctx, Alive(s), run) == Lift(BringupModel.Exec(c, s, run))
    decreases run
  {
    if run != [] {
      StepAlone(c, ctx, s, run[0]);
      if BringupModel.Next(c, s, run[0]).Some? {
        ExecAlone(c, ctx, BringupModel.Next(c, s, run[0]).value, run[1..]);
      }
    }
  }

  lemma ReachableAlone(c: Config, ctx: Contexts, x: Alpha)
    requires OnItsOwn(ctx) && |ctx| == |c.services| && Reachable(c, ctx, x)
    ensures x.Alive? && BringupModel.Reachable(c, x.w)
  {
    var run :| Exec(c, ctx, Alive(Init(c)), run) == Some(x);
    ExecAlone(c, ctx, Init(c), run);
  }

  lemma QuiescentAlone(c: Config, ctx: Contexts, s: World)
    requires OnItsOwn(ctx) && |ctx| == |c.services| && Quiescent(c, ctx, Alive(s))
    ensures BringupModel.Quiescent(c, s)
  {
    forall l | OwnStep(s, l)
      ensures BringupModel.Next(c, s, l).None?
    {
      StepAlone(c, ctx, s, l);
      assert Next(c, ctx, Alive(s), l).None?;
    }
  }

  // ---- a shared context: one run with both outcomes, and a panic at its end ----

  predicate Alike(v: Svc, w: Svc) {
    v.build == w.build && v.run == w.run && v.stop == w.stop && v.removed == w.removed
  }

  predicate InStep(ctx: Contexts, s: World)
    requires |s.svcs| == |ctx|
  {
    forall i, j :: 0 <= i < |ctx| && 0 <= j < |ctx| && ctx[i] == ctx[j] ==> Alike(s.svcs[i], s.svcs[j])
  }

  ghost predicate Steady(c: Config, ctx: Contexts, s: World) {
    |ctx| == |c.services| && Sized(c, s) && InStep(ctx, s)
  }

  /** Only the supervisor `i` has moved; contexts have fired more, and shutdown may have been asked for. */
  ghost predicate Moved(ctx: Contexts, s: World, t: World, i: nat) {
    && |t.svcs| == |s.svcs| == |ctx| && t == s.(svcs := t.svcs, shutdown := t.shutdown)
    && (s.shutdown ==> t.shutdown)
    && (forall j :: 0 <= j < |ctx| && j != i ==> t.svcs[j].pc == s.svcs[j].pc)
    && (forall j :: 0 <= j < |ctx| ==> s.svcs[j].build.fired <= t.svcs[j].build.fired)
  }

  lemma MovedOn(ctx: Contexts, s: World, t: World, u: World, i: nat)
    requires Moved(ctx, s, t, i) && Moved(ctx, t, u, i)
    ensures Moved(ctx, s, u, i)
  {
  }

  lemma {:induction false} ExecJoin(c: Config, ctx: Contexts, x: Alpha, run: seq<Label>, more: seq<Label>)
    requires |ctx| == |c.services| && Exec(c, ctx, x, run).Some?
    ensures Exec(c, ctx, x, run + more) == Exec(c, ctx, Exec(c, ctx, x, run).value, more)
    decreases run
  {
    if run == [] {
      assert run + more == more;
    } else {
      var y := Next(c, ctx, x, run[0]).value;
      assert (run + more)[0] == run[0] && (run + more)[1..] == run[1..] + more;
      ExecJoin(c, ctx, y, run[1..], more);
    }
  }

  lemma LeadsOn(c: Config, ctx: Contexts, x: Alpha, y: Alpha, z: Alpha)
    requires |ctx| == |c.services| && Leads(c, ctx, x, y) && Leads(c, ctx, y, z)
    ensures Leads(c, ctx, x, z)
  {
    var run :| Exec(c, ctx, x, run) == Some(y);
    var more :| Exec(c, ctx, y, more) == Some(z);
    ExecJoin(c, ctx, x, run, more);
  }

  lemma StaysPut(c: Config, ctx: Contexts, x: Alpha)
    requires |ctx| == |c.services|
    ensures Leads(c, ctx, x, x)
  {
    assert Exec(c, ctx, x, []) == Some(x);
  }

  lemma StepLeads(c: Config, ctx: Contexts, x: Alpha, l: Label, y: Alpha)
    requires |ctx| == |c.services| && Next(c, ctx, x, l) == Some(y)
    ensures Leads(c, ctx, x, y)
  {
    assert [l][1..] == [] && Exec(c, ctx, y, []) == Some(y);
    assert Exec(c, ctx, x, [l]) == Some(y);
  }

  lemma SharedInStep(ctx: Contexts, s: World, i: nat, v: Svc)
    requires |s.svcs| == |ctx| && InStep(ctx, s) && i < |ctx|
    ensures var t := Share(ctx, s.(svcs := s.svcs[i := v]), i);
            && InStep(ctx, t) && t.svcs[i] == v && t == s.(svcs := t.svcs)
            && (forall j :: 0 <= j < |ctx| && j != i ==> t.svcs[j].pc == s.svcs[j].pc)
            && (s.svcs[i].build.fired <= v.build.fired ==> forall j :: 0 <= j < |ctx| ==> s.svcs[j].build.fired <= t.svcs[j].build.fired)
  {
    var u := s.(svcs := s.svcs[i := v]);
    var t := Share(ctx, u, i);
    forall j | 0 <= j < |ctx|
      ensures t.svcs[j] == if j == i then v else if ctx[j] == ctx[i] then OnContextOf(s.svcs[j], v) else s.svcs[j]
      ensures ctx[j] == ctx[i] ==> Alike(s.svcs[j], s.svcs[i])
    {
    }
  }

  /** What a step of one supervisor leads to, when it does not return. */
  lemma OneStep(c: Config, ctx: Contexts, s: World, i: nat, ch: Choice) returns (t: World)
    requires Steady(c, ctx, s) && i < |s.svcs| && SvcStep(c, s, i, ch).Some? && !SvcStep(c, s, i, ch).value.local.pc.Exited?
    requires s.svcs[i].build.fired <= SvcStep(c, s, i, ch).value.local.build.fired
    ensures Leads(c, ctx, Alive(s), Alive(t)) && Steady(c, ctx, t) && Moved(ctx, s, t, i)
    ensures var m := SvcStep(c, s, i, ch).value; t.svcs[i] == m.local && t.shutdown == (s.shutdown || m.ask)
  {
    var m := SvcStep(c, s, i, ch).value;
    var wide := s.(shutdown := s.shutdown || m.ask);
    SharedInStep(ctx, wide, i, m.local);
    t := Share(ctx, wide.(svcs := wide.svcs[i := m.local]), i);
    assert BringupModel.Next(c, s, SvcL(i, ch)) == Some(wide.(svcs := wide.svcs[i := m.local]));
    StepLeads(c, ctx, Alive(s), SvcL(i, ch), Alive(t));
  }

  /** Another step of the supervisor that has been moving. */
  lemma Again(c: Config, ctx: Contexts, s: World, t: World, i: nat, ch: Choice) returns (u: World)
    requires Steady(c, ctx, t) && Leads(c, ctx, Alive(s), Alive(t)) && Moved(ctx, s, t, i)
    requires i < |t.svcs| && SvcStep(c, t, i, ch).Some? && !SvcStep(c, t, i, ch).value.local.pc.Exited?
    requires t.svcs[i].build.fired <= SvcStep(c, t, i, ch).value.local.build.fired
    ensures Leads(c, ctx, Alive(s), Alive(u)) && Steady(c, ctx, u) && Moved(ctx, s, u, i)
    ensures var m := SvcStep(c, t, i, ch).value; u.svcs[i] == m.local && u.shutdown == (t.shutdown || m.ask)
  {
    u := OneStep(c, ctx, t, i, ch);
    LeadsOn(c, ctx, Alive(s), Alive(t), Alive(u));
    MovedOn(ctx, s, t, u, i);
  }

  ghost predicate NoneInWorkspace(s: World) {
    forall j :: 0 <= j < |s.svcs| ==> !s.svcs[j].pc.InWorkspace?
  }

  /** A supervisor whose toolchain is ready gets past waiting for it. */
  lemma PastToolchain(c: Config, ctx: Contexts, s: World, i: nat) returns (t: World)
    requires WellFormed(c) && Steady(c, ctx, s) && i < |s.svcs| && s.svcs[i].pc == Waiting(true, 0, false)
    requires OwnReady(s, c.services[i].toolchain)
    ensures Leads(c, ctx, Alive(s), Alive(t)) && Steady(c, ctx, t) && Moved(ctx, s, t, i)
    ensures t.svcs[i].pc == Waiting(true, |WaitRefs(c.services[i], true)|, false)
  {
    StaysPut(c, ctx, Alive(s));
    if c.services[i].toolchain.None? {
      t := s;
    } else {
      var held := Again(c, ctx, s, s, i, Go);
      t := Again(c, ctx, s, held, i, Go);
    }
  }

  lemma ToWorkspace(c: Config, ctx: Contexts, s: World, i: nat) returns (t: World)
    requires WellFormed(c) && Steady(c, ctx, s) && i < |s.svcs| && s.svcs[i].pc == Waiting(true, 0, false)
    requires OwnReady(s, c.services[i].toolchain) && NoneInWorkspace(s)
    ensures Leads(c, ctx, Alive(s), Alive(t)) && Steady(c, ctx, t) && Moved(ctx, s, t, i)
    ensures t.svcs[i].pc.InWorkspace?
  {
    var past := PastToolchain(c, ctx, s, i);
    t := Again(c, ctx, s, past, i, Go);
    if t.svcs[i].pc.Locking? {
      assert forall j :: 0 <= j < |t.svcs| && j != i ==> t.svcs[j].pc == s.svcs[j].pc;
      t := Again(c, ctx, s, t, i, Go);
    }
  }

  /** A build that succeeds. */
  lemma Builds(c: Config, ctx: Contexts, s: World, i: nat) returns (t: World)
    requires WellFormed(c) && Steady(c, ctx, s) && i < |s.svcs| && s.svcs[i].pc == Waiting(true, 0, false)
    requires OwnReady(s, c.services[i].toolchain) && NoneInWorkspace(s)
    ensures Leads(c, ctx, Alive(s), Alive(t)) && Steady(c, ctx, t) && Moved(ctx, s, t, i)
    ensures t.svcs[i].pc.Gate? && Success in t.svcs[i].build.fired
  {
    t := ToWorkspace(c, ctx, s, i);
    t := Again(c, ctx, s, t, i, Go);
    ReadyStays(c, ctx, s, t, i, i);
    BuildMarks(c, t, i);
    t := Again(c, ctx, s, t, i, Go);
  }

  lemma ReadyStays(c: Config, ctx: Contexts, s: World, t: World, i: nat, j: nat)
    requires |ctx| == |c.services| && Moved(ctx, s, t, i) && j < |ctx| && OwnReady(s, c.services[j].toolchain)
    ensures OwnReady(t, c.services[j].toolchain)
  {
  }

  lemma BuildMarks(c: Config, s: World, i: nat)
    requires Sized(c, s) && i < |s.svcs| && s.svcs[i].pc.Building? && OwnReady(s, c.services[i].toolchain)
    ensures var m := SvcStep(c, s, i, Go);
            m.Some? && m.value.local.pc.Gate? && s.svcs[i].build.fired <= m.value.local.build.fired && Success in m.value.local.build.fired
  {
    assert Success in Down(BuildKind, Success);
  }

  /** A checkout that fails, up to where the failure has been marked. */
  lemma Breaks(c: Config, ctx: Contexts, s: World, i: nat) returns (t: World)
    requires WellFormed(c) && Steady(c, ctx, s) && i < |s.svcs| && s.svcs[i].pc == Waiting(true, 0, false)
    requires OwnReady(s, c.services[i].toolchain) && NoneInWorkspace(s)
    ensures Leads(c, ctx, Alive(s), Alive(t)) && Steady(c, ctx, t) && Moved(ctx, s, t, i)
    ensures t.svcs[i].pc.Unwinding? && Failure in t.svcs[i].build.fired
  {
    t := ToWorkspace(c, ctx, s, i);
    t := Again(c, ctx, s, t, i, Fail);
    FailureMarks(c, t, i);
    t := Again(c, ctx, s, t, i, Go);
  }

  lemma FailureMarks(c: Config, s: World, i: nat)
    requires Sized(c, s) && i < |s.svcs| && s.svcs[i].pc == Unwinding(PrepareFail(c))
    ensures var m := SvcStep(c, s, i, Go);
            m.Some? && m.value.local.pc.Unwinding? && s.svcs[i].build.fired <= m.value.local.build.fired && Failure in m.value.local.build.fired
  {
    assert PrepareFail(c)[0] == ReachBuild(Failure);
    assert Failure in Down(BuildKind, Failure);
  }

  /** Everything a supervisor on its way out still has to do. */
  lemma {:induction false} Unwinds(c: Config, ctx: Contexts, s: World, i: nat) returns (t: World)
    requires Steady(c, ctx, s) && i < |s.svcs| && s.svcs[i].pc.Unwinding?
    ensures Leads(c, ctx, Alive(s), Alive(t)) && Steady(c, ctx, t) && Moved(ctx, s, t, i)
    ensures t.svcs[i].pc == Unwinding([])
    decreases |s.svcs[i].pc.todo|
  {
    StaysPut(c, ctx, Alive(s));
    if s.svcs[i].pc.todo == [] {
      t := s;
    } else {
      var u := OneStep(c, ctx, s, i, Go);
      t := Unwinds(c, ctx, u, i);
      LeadsOn(c, ctx, Alive(s), Alive(u), Alive(t));
      MovedOn(ctx, s, u, t, i);
    }
  }

  lemma Returns(c: Config, ctx: Contexts, s: World, i: nat) returns (t: World)
    requires Steady(c, ctx, s) && i < |s.svcs| && s.svcs[i].pc == Unwinding([]) && !DoneClosed(ctx, s, i)
    ensures Leads(c, ctx, Alive(s), Alive(t)) && Steady(c, ctx, t) && Moved(ctx, s, t, i) && t.svcs[i].pc.Exited?
  {
    var v := s.svcs[i].(pc := Exited);
    SharedInStep(ctx, s, i, v);
    t := Share(ctx, s.(svcs := s.svcs[i := v]), i);
    assert BringupModel.Next(c, s, SvcL(i, Go)) == Some(s.(svcs := s.svcs[i := v]));
    StepLeads(c, ctx, Alive(s), SvcL(i, Go), Alive(t));
  }

  /** Closing what is closed. */
  lemma ReturnsAgain(c: Config, ctx: Contexts, s: World, i: nat)
    requires Steady(c, ctx, s) && i < |s.svcs| && s.svcs[i].pc == Unwinding([]) && DoneClosed(ctx, s, i)
    ensures Leads(c, ctx, Alive(s), Panicked(s))
  {
    var v := s.svcs[i].(pc := Exited);
    assert BringupModel.Next(c, s, SvcL(i, Go)) == Some(s.(svcs := s.svcs[i := v]));
    StepLeads(c, ctx, Alive(s), SvcL(i, Go), Panicked(s));
  }

  lemma Interrupts(c: Config, ctx: Contexts, s: World) returns (t: World)
    requires Steady(c, ctx, s)
    ensures Leads(c, ctx, Alive(s), Alive(t)) && Steady(c, ctx, t) && t == s.(shutdown := true)
  {
    t := s.(shutdown := true);
    if s.shutdown {
      StaysPut(c, ctx, Alive(s));
      assert t == s;
    } else {
      StepLeads(c, ctx, Alive(s), Interrupt, Alive(t));
    }
  }

  // ---- toolchains first ----

  predicate FreshOrReady(t: Tc) {
    t == Tc(TcStart, Track({}, false)) || Ready in t.run.fired
  }

  lemma TcSteps(c: Config, ctx: Contexts, s: World, k: nat) returns (t: World)
    requires Steady(c, ctx, s) && k < |s.tcs| && TcStep(s.tcs[k], Go).Some?
    ensures Leads(c, ctx, Alive(s), Alive(t)) && Steady(c, ctx, t) && t == s.(tcs := s.tcs[k := TcStep(s.tcs[k], Go).value])
  {
    t := s.(tcs := s.tcs[k := TcStep(s.tcs[k], Go).value]);
    StepLeads(c, ctx, Alive(s), TcL(k, Go), Alive(t));
  }

  lemma Installs(c: Config, ctx: Contexts, s: World, tc: Option<nat>) returns (t: World)
    requires Steady(c, ctx, s) && (tc.Some? ==> tc.value < |s.tcs|) && forall k :: 0 <= k < |s.tcs| ==> FreshOrReady(s.tcs[k])
    ensures Leads(c, ctx, Alive(s), Alive(t)) && Steady(c, ctx, t) && t == s.(tcs := t.tcs) && OwnReady(t, tc)
    ensures forall k :: 0 <= k < |s.tcs| ==> FreshOrReady(t.tcs[k]) && (Ready in s.tcs[k].run.fired ==> Ready in t.tcs[k].run.fired)
  {
    StaysPut(c, ctx, Alive(s));
    t := s;
    if tc.Some? && Ready !in s.tcs[tc.value].run.fired {
      var u := TcSteps(c, ctx, s, tc.value);
      t := TcSteps(c, ctx, u, tc.value);
      LeadsOn(c, ctx, Alive(s), Alive(u), Alive(t));
      assert Ready in Down(ToolchainKind, Ready);
    }
  }

  lemma InstallsBoth(c: Config, ctx: Contexts, i: nat, j: nat) returns (t: World)
    requires WellFormed(c) && |ctx| == |c.services| && i < |ctx| && j < |ctx|
    ensures Leads(c, ctx, Alive(Init(c)), Alive(t)) && Steady(c, ctx, t) && t.svcs == Init(c).svcs
    ensures OwnReady(t, c.services[i].toolchain) && OwnReady(t, c.services[j].toolchain)
  {
    var u := Installs(c, ctx, Init(c), c.services[i].toolchain);
    t := Installs(c, ctx, u, c.services[j].toolchain);
    LeadsOn(c, ctx, Alive(Init(c)), Alive(u), Alive(t));
  }

  // ---- the run ----

  /** One build succeeds, the other fails, and the second has returned. */
  lemma BothOutcomes(c: Config, ctx: Contexts, i: nat, j: nat) returns (t: World)
    requires WellFormed(c) && |ctx| == |c.services| && i < |ctx| && j < |ctx| && i != j && ctx[i] == ctx[j]
    ensures Leads(c, ctx, Alive(Init(c)), Alive(t)) && Steady(c, ctx, t)
    ensures t.svcs[i].pc.Gate? && t.svcs[j].pc.Exited?
    ensures Succeeded(t, Build(j)) && HasFailed(t, Build(j))
  {
    var s := InstallsBoth(c, ctx, i, j);
    var built := Builds(c, ctx, s, i);
    ReadyStays(c, ctx, s, built, i, j);
    assert NoneInWorkspace(built);
    t := Breaks(c, ctx, built, j);
    LeadsOn(c, ctx, Alive(s), Alive(built), Alive(t));
    var u := Unwinds(c, ctx, t, j);
    MovedOn(ctx, built, t, u, j);
    LeadsOn(c, ctx, Alive(s), Alive(t), Alive(u));
    assert Alike(u.svcs[i], u.svcs[j]);
    t := Returns(c, ctx, u, j);
    LeadsOn(c, ctx, Alive(s), Alive(u), Alive(t));
    LeadsOn(c, ctx, Alive(Init(c)), Alive(s), Alive(t));
  }

  lemma EndsInPanic(c: Config, ctx: Contexts, s: World, i: nat, j: nat) returns (t: World)
    requires Steady(c, ctx, s) && i < |ctx| && j < |ctx| && i != j && ctx[i] == ctx[j]
    requires s.svcs[i].pc.Gate? && s.svcs[j].pc.Exited?
    ensures Leads(c, ctx, Alive(s), Panicked(t)) && t.shutdown
  {
    var u := Interrupts(c, ctx, s);
    t := OneStep(c, ctx, u, i, Cut);
    LeadsOn(c, ctx, Alive(s), Alive(u), Alive(t));
    u := t;
    t := Unwinds(c, ctx, u, i);
    LeadsOn(c, ctx, Alive(s), Alive(u), Alive(t));
    assert t.svcs[j].pc.Exited?;
    ReturnsAgain(c, ctx, t, i);
    LeadsOn(c, ctx, Alive(s), Alive(t), Panicked(t));
  }

  // ---- exactly when the guarantees hold ----

  lemma SharedPair(ctx: Contexts) returns (i: nat, j: nat)
    requires !OnItsOwn(ctx)
    ensures i < |ctx| && j < |ctx| && i != j && ctx[i] == ctx[j]
  {
    i, j :| 0 <= i < j < |ctx| && ctx[i] == ctx[j];
  }

  /** No phase both succeeds and fails, in any run, exactly if every service has a context of its own. */
  lemma OutcomesExcludeIff(c: Config, ctx: Contexts)
    requires WellFormed(c) && |ctx| == |c.services|
    ensures (forall w, p :: Reachable(c, ctx, Alive(w)) ==> !(Succeeded(w, p) && HasFailed(w, p))) <==> OnItsOwn(ctx)
  {
    if OnItsOwn(ctx) {
      forall w, p | Reachable(c, ctx, Alive(w))
        ensures !(Succeeded(w, p) && HasFailed(w, p))
      {
        ReachableAlone(c, ctx, Alive(w));
        OutcomesExclude(c, w, p);
      }
    } else {
      var i, j := SharedPair(ctx);
      var t := BothOutcomes(c, ctx, i, j);
      assert Reachable(c, ctx, Alive(t));
    }
  }

  ghost predicate OneOutcomeEach(w: World) {
    forall i :: 0 <= i < |w.svcs| && w.svcs[i].pc.Exited? ==>
      (Succeeded(w, Build(i)) <==> !HasFailed(w, Build(i))) && (Succeeded(w, Runtime(i)) <==> !HasFailed(w, Runtime(i)))
  }

  lemma OutcomesAreTotalIff(c: Config, ctx: Contexts)
    requires WellFormed(c) && |ctx| == |c.services|
    ensures (forall w :: Reachable(c, ctx, Alive(w)) ==> OneOutcomeEach(w)) <==> OnItsOwn(ctx)
  {
    if OnItsOwn(ctx) {
      forall w | Reachable(c, ctx, Alive(w))
        ensures OneOutcomeEach(w)
      {
        ReachableAlone(c, ctx, Alive(w));
        OutcomesAreTotal(c, w);
      }
    } else {
      var i, j := SharedPair(ctx);
      var t := BothOutcomes(c, ctx, i, j);
      assert Reachable(c, ctx, Alive(t)) && !OneOutcomeEach(t);
    }
  }

  lemma SharingPanics(c: Config, ctx: Contexts) returns (t: World)
    requires WellFormed(c) && |ctx| == |c.services| && !OnItsOwn(ctx)
    ensures Reachable(c, ctx, Panicked(t)) && t.shutdown
  {
    var i, j := SharedPair(ctx);
    var s := BothOutcomes(c, ctx, i, j);
    t := EndsInPanic(c, ctx, s, i, j);
    LeadsOn(c, ctx, Alive(Init(c)), Alive(s), Panicked(t));
  }

  /** No done channel is ever closed twice, exactly if every service has a context of its own. */
  lemma NeverPanicsIff(c: Config, ctx: Contexts)
    requires WellFormed(c) && |ctx| == |c.services|
    ensures (forall w :: !Reachable(c, ctx, Panicked(w))) <==> OnItsOwn(ctx)
  {
    if OnItsOwn(ctx) {
      forall w
        ensures !Reachable(c, ctx, Panicked(w))
      {
        if Reachable(c, ctx, Panicked(w)) {
          ReachableAlone(c, ctx, Panicked(w));
        }
      }
    } else {
      var t := SharingPanics(c, ctx);
    }
  }

  ghost predicate Drained(x: Alpha) {
    && x.Alive? && x.w.sweeper == Swept && x.w.handler == HandlerEnd
    && (forall i :: 0 <= i < |x.w.svcs| ==> x.w.svcs[i].pc.Exited?)
    && (forall p :: 0 <= p < |x.w.provs| ==> ProvClosed(x.w.provs[p]))
  }

  /** A requested shutdown drains everything, in every run, exactly if every service has a context of its
      own. */
  lemma ShutdownDrainsIff(c: Config, ctx: Contexts)
    requires WellFormed(c) && |ctx| == |c.services|
    ensures (forall x :: Reachable(c, ctx, x) && Quiescent(c, ctx, x) && x.w.shutdown ==> Drained(x)) <==> OnItsOwn(ctx)
  {
    if OnItsOwn(ctx) {
      forall x | Reachable(c, ctx, x) && Quiescent(c, ctx, x) && x.w.shutdown
        ensures Drained(x)
      {
        ReachableAlone(c, ctx, x);
        QuiescentAlone(c, ctx, x.w);
        ShutdownDrains(c, x.w);
      }
    } else {
      var t := SharingPanics(c, ctx);
      assert Quiescent(c, ctx, Panicked(t)) && !Drained(Panicked(t));
    }
  }

  lemma PanicIsTheEnd(c: Config, ctx: Contexts, w: World, y: Alpha)
    requires |ctx| == |c.services| && Leads(c, ctx, Panicked(w), y)
    ensures y == Panicked(w)
  {
    assert forall l :: Next(c, ctx, Panicked(w), l) == None;
    var run :| Exec(c, ctx, Panicked(w), run) == Some(y);
    assert run == [];
  }

  /** And exactly then every run in which shutdown has been requested can be brought to its end. */
  lemma ShutdownReachesDrainedIff(c: Config, ctx: Contexts)
    requires WellFormed(c) && |ctx| == |c.services|
    ensures (forall x :: Reachable(c, ctx, x) && x.w.shutdown ==> exists y :: Leads(c, ctx, x, y) && Drained(y)) <==> OnItsOwn(ctx)
  {
    if OnItsOwn(ctx) {
      forall x | Reachable(c, ctx, x) && x.w.shutdown
        ensures exists y :: Leads(c, ctx, x, y) && Drained(y)
      {
        ReachableAlone(c, ctx, x);
        var run, t := ShutdownReachesDrained(c, x.w);
        ExecAlone(c, ctx, x.w, run);
        assert Leads(c, ctx, x, Alive(t)) && Drained(Alive(t));
      }
    } else {
      var t := SharingPanics(c, ctx);
      if y :| Leads(c, ctx, Panicked(t), y) && Drained(y) {
        PanicIsTheEnd(c, ctx, t, y);
      }
    }
  }
}
