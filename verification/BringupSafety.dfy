/** What every reachable world of a configure run satisfies. */
module BringupSafety {
  import opened EntityLifecycles
  import opened Wrappers
  import opened BringupModel

  // ---- time only adds ----

  ghost predicate TrackGrows(t: Track, u: Track) {
    t.fired <= u.fired && (t.done ==> u.done)
  }

  ghost predicate SvcGrows(v: Svc, w: Svc) {
    && TrackGrows(v.build, w.build) && TrackGrows(v.run, w.run)
    && (v.prepared ==> w.prepared) && (v.spawned ==> w.spawned) && (v.stop ==> w.stop)
  }

  ghost predicate ProvGrows(v: Prov, w: Prov) {
    TrackGrows(v.run, w.run) && (v.ran ==> w.ran) && (v.stop ==> w.stop)
  }

  /** Barriers stay fired, flags stay set, and what was started stays started. */
  ghost predicate Grows(s: World, t: World) {
    && |s.svcs| == |t.svcs| && |s.provs| == |t.provs| && |s.tcs| == |t.tcs|
    && (s.shutdown ==> t.shutdown)
    && (forall i :: 0 <= i < |s.svcs| ==> SvcGrows(s.svcs[i], t.svcs[i]))
    && (forall p :: 0 <= p < |s.provs| ==> ProvGrows(s.provs[p], t.provs[p]))
    && (forall k :: 0 <= k < |s.tcs| ==> TrackGrows(s.tcs[k].run, t.tcs[k].run))
  }

  lemma FiredGrows(s: World, t: World, r: Ref)
    requires Grows(s, t) && HasFired(s, r)
    ensures HasFired(t, r)
  {
  }

  // ---- what one goroutine has fired, by program counter ----

  const BUILT: set<State> := {Scheduled, Running, Success}
  const BROKEN: set<State> := {Scheduled, Running, Failure}
  const FAILED: set<State> := {Scheduled, Running, Failed}
  const STOPPED: set<State> := {Scheduled, Running, Ready, Stopped}

  function AfterBuild(fired: set<State>, todo: seq<Act>): set<State> {
    fired + if ReachBuild(Failure) in todo then BROKEN else {}
  }

  function AfterRun(fired: set<State>, todo: seq<Act>): set<State> {
    fired + (if ReachRun(Failed) in todo then FAILED else {}) + if ReachRun(Stopped) in todo then STOPPED else {}
  }

  lemma DownSets()
    ensures Down(BuildKind, Success) == Down(ProvisionKind, Success) == BUILT
    ensures Down(BuildKind, Failure) == Down(ProvisionKind, Failure) == BROKEN
    ensures Down(ServiceKind, Failed) == FAILED && Down(ServiceKind, Stopped) == STOPPED
  {
  }

  predicate SvcActs(todo: seq<Act>) {
    forall a :: a in todo ==> a in {ReachBuild(Failure), ReachRun(Failed), ReachRun(Stopped), AskShutdown}
  }

  /** A supervisor that is done: exactly one outcome for the build, exactly one for the runtime. */
  predicate SvcOver(build: set<State>, run: set<State>, v: Svc) {
    && (build == BUILT || build == BROKEN)
    && (run == FAILED || (run == STOPPED && v.spawned))
    && (build == BUILT ==> v.prepared)
    && (v.spawned ==> build == BUILT)
  }

  /** No state is fired without what precedes it. */
  predicate Closed(fired: set<State>) {
    && (Running in fired ==> Scheduled in fired)
    && (Ready in fired || Failed in fired || Success in fired || Failure in fired ==> Running in fired)
    && (Stopped in fired ==> Ready in fired)
  }

  predicate SvcShape(sp: SvcSpec, v: Svc) {
    var build, run := v.build.fired, v.run.fired;
    && Closed(build) && Closed(run)
    && (v.build.done ==> Success in build || Failure in build)
    && (v.run.done ==> Ready in run || Failed in run)
    && match v.pc
       case Waiting(early, k, held) =>
         && k <= |WaitRefs(sp, early)| && (held ==> k < |WaitRefs(sp, early)|) && run == {Scheduled} && !v.spawned
         && v.prepared == !early && build == if early then {Scheduled} else BUILT
       case Locking => build == {Scheduled, Running} && run == {Scheduled} && v.prepared && !v.spawned
       case InWorkspace => build == {Scheduled, Running} && run == {Scheduled} && v.prepared && !v.spawned
       case Building => build == {Scheduled, Running} && run == {Scheduled} && v.prepared && !v.spawned
       case Gate => build == BUILT && run == {Scheduled} && v.prepared && !v.spawned
       case Starting => build == BUILT && run == {Scheduled} && v.prepared && !v.spawned
       case Probing => build == BUILT && run == {Scheduled, Running} && v.prepared && v.spawned
       case Up => build == BUILT && run == {Scheduled, Running, Ready} && v.prepared && v.spawned
       case Killing(wasReady) =>
         && build == BUILT && v.prepared && v.spawned
         && run == {Scheduled, Running} + if wasReady then {Ready} else {}
       case Unwinding(todo) => SvcActs(todo) && SvcOver(AfterBuild(build, todo), AfterRun(run, todo), v)
       case Exited => SvcOver(build, run, v)
  }

  function ProvAfter(fired: set<State>, todo: seq<Act>): set<State> {
    fired + (if ReachRun(Success) in todo then BUILT else {}) + if ReachRun(Failure) in todo then BROKEN else {}
  }

  predicate ProvOver(run: set<State>, v: Prov) {
    run == BROKEN || (run == BUILT && v.ran)
  }

  predicate ProvShape(sp: ProvSpec, v: Prov) {
    var run := v.run.fired;
    && Closed(run)
    && (v.run.done ==> Success in run || Failure in run)
    && (v.pc.Dormant? <==> sp.latent)
    && match v.pc
       case Begin => run == {} && !v.ran
       case FindTemplate => run == {Scheduled} && !v.ran
       case PWaiting(k, held) => k <= |sp.after| && (held ==> k < |sp.after|) && run == {Scheduled} && !v.ran
       case Bins(k) => run == {Scheduled, Running} && !v.ran
       case OwnToolchain => run == {Scheduled, Running} && !v.ran
       case EnvBins(k) => run == {Scheduled, Running} && !v.ran
       case CwdCheck => run == {Scheduled, Running} && !v.ran
       case CheckCmd => run == {Scheduled, Running} && v.ran
       case RunCmd => run == {Scheduled, Running} && v.ran
       case VerifyCmd => run == {Scheduled, Running} && v.ran
       case PUnwinding(todo) =>
         && (forall a :: a in todo ==> a in {ReachRun(Success), ReachRun(Failure), AskShutdown})
         && ProvOver(ProvAfter(run, todo), v)
       case PExited => ProvOver(run, v)
       case Dormant => run == {} && !v.ran
  }

  predicate TcShape(t: Tc) {
    && (t.run.done ==> Ready in t.run.fired || Failed in t.run.fired)
    && match t.pc
       case TcStart => t.run.fired == {}
       case TcInstall => t.run.fired == {EntityLifecycles.Installing}
       case TcEnd => t.run.fired == {EntityLifecycles.Installing, Ready} || t.run.fired == {EntityLifecycles.Installing, Failed}
  }

  ghost predicate Shapes(c: Config, s: World)
    requires Sized(c, s)
  {
    && (forall i :: 0 <= i < |s.svcs| ==> SvcShape(c.services[i], s.svcs[i]))
    && (forall p :: 0 <= p < |s.provs| ==> ProvShape(c.provisions[p], s.provs[p]))
    && (forall k :: 0 <= k < |s.tcs| ==> TcShape(s.tcs[k]))
  }

  ghost predicate SvcMoves(c: Config, s: World, i: nat, w: Svc)
    requires Sized(c, s) && i < |s.svcs|
  {
    SvcShape(c.services[i], w) && SvcGrows(s.svcs[i], w) && w.removed == s.svcs[i].removed && w.stop == s.svcs[i].stop
  }

  ghost predicate ProvMoves(c: Config, s: World, p: nat, w: Prov)
    requires Sized(c, s) && p < |s.provs|
  {
    ProvShape(c.provisions[p], w) && ProvGrows(s.provs[p], w) && w.removed == s.provs[p].removed && w.stop == s.provs[p].stop
  }

  lemma Popped(todo: seq<Act>)
    requires todo != []
    ensures forall a :: a in todo <==> a == todo[0] || a in todo[1..]
  {
    assert todo == [todo[0]] + todo[1..];
  }

  /** Carrying out the first queued act changes what is fired, not what will have been. */
  lemma PopKeepsOutcome(build: set<State>, run: set<State>, todo: seq<Act>)
    requires todo != [] && SvcActs(todo)
    ensures SvcActs(todo[1..])
    ensures AfterBuild(build, todo) ==
            AfterBuild(build + (if todo[0].ReachBuild? then Down(BuildKind, todo[0].s) else {}), todo[1..])
    ensures AfterRun(run, todo) ==
            AfterRun(run + (if todo[0].ReachRun? then Down(ServiceKind, todo[0].s) else {}), todo[1..])
  {
    Popped(todo);
    DownSets();
    assert todo[0] in todo;
  }

  lemma ProvPopKeepsOutcome(run: set<State>, todo: seq<Act>)
    requires todo != [] && forall a :: a in todo ==> a in {ReachRun(Success), ReachRun(Failure), AskShutdown}
    ensures ProvAfter(run, todo) ==
            ProvAfter(run + (if todo[0].ReachRun? then Down(ProvisionKind, todo[0].s) else {}), todo[1..])
  {
    Popped(todo);
    DownSets();
    assert todo[0] in todo;
  }

  lemma WaitStepKept(c: Config, s: World, i: nat, ch: Choice)
    requires Sized(c, s) && i < |s.svcs| && SvcShape(c.services[i], s.svcs[i])
    requires s.svcs[i].pc.Waiting? && SvcStep(c, s, i, ch).Some?
    ensures SvcMoves(c, s, i, SvcStep(c, s, i, ch).value.local)
  {
    var w := SvcStep(c, s, i, ch).value.local;
    if w.pc.Unwinding? {
      UnwindingStarts(c, c.services[i], s.svcs[i], w);
    }
  }

  lemma PrepareStepKept(c: Config, s: World, i: nat, ch: Choice)
    requires Sized(c, s) && i < |s.svcs| && SvcShape(c.services[i], s.svcs[i])
    requires s.svcs[i].pc.Locking? || s.svcs[i].pc.InWorkspace? || s.svcs[i].pc.Building? || s.svcs[i].pc.Gate?
    requires SvcStep(c, s, i, ch).Some?
    ensures SvcMoves(c, s, i, SvcStep(c, s, i, ch).value.local)
  {
    var w := SvcStep(c, s, i, ch).value.local;
    if w.pc.Unwinding? {
      UnwindingStarts(c, c.services[i], s.svcs[i], w);
    }
  }

  lemma ProcessStepKept(c: Config, s: World, i: nat, ch: Choice)
    requires Sized(c, s) && i < |s.svcs| && SvcShape(c.services[i], s.svcs[i])
    requires s.svcs[i].pc.Starting? || s.svcs[i].pc.Probing? || s.svcs[i].pc.Up?
    requires SvcStep(c, s, i, ch).Some?
    ensures SvcMoves(c, s, i, SvcStep(c, s, i, ch).value.local)
  {
    var w := SvcStep(c, s, i, ch).value.local;
    if w.pc.Unwinding? {
      UnwindingStarts(c, c.services[i], s.svcs[i], w);
    }
  }

  lemma KillStepKept(c: Config, s: World, i: nat, ch: Choice)
    requires Sized(c, s) && i < |s.svcs| && SvcShape(c.services[i], s.svcs[i])
    requires s.svcs[i].pc.Killing? && SvcStep(c, s, i, ch).Some?
    ensures SvcMoves(c, s, i, SvcStep(c, s, i, ch).value.local)
  {
    var w := SvcStep(c, s, i, ch).value.local;
    assert w.pc.todo[0] == ReachRun(if s.svcs[i].pc.wasReady then Stopped else Failed);
  }

  lemma UnwindStepKept(c: Config, s: World, i: nat, ch: Choice)
    requires Sized(c, s) && i < |s.svcs| && SvcShape(c.services[i], s.svcs[i])
    requires s.svcs[i].pc.Unwinding? && SvcStep(c, s, i, ch).Some?
    ensures SvcMoves(c, s, i, SvcStep(c, s, i, ch).value.local)
  {
    var v := s.svcs[i];
    var todo := v.pc.todo;
    if todo == [] {
      assert AfterBuild(v.build.fired, todo) == v.build.fired && AfterRun(v.run.fired, todo) == v.run.fired;
    } else {
      PopShape(c.services[i], v, todo, SvcStep(c, s, i, ch).value.local);
    }
  }

  lemma PopShape(sp: SvcSpec, v: Svc, todo: seq<Act>, w: Svc)
    requires SvcShape(sp, v) && v.pc == Unwinding(todo) && todo != []
    requires w == v.(pc := Unwinding(todo[1..]),
                     build := if todo[0].ReachBuild? then Reach(BuildKind, v.build, todo[0].s) else v.build,
                     run := if todo[0].ReachRun? then Reach(ServiceKind, v.run, todo[0].s) else v.run)
    ensures SvcShape(sp, w)
  {
    PopKeepsOutcome(v.build.fired, v.run.fired, todo);
    PopStaysClosed(v.build.fired, v.run.fired, todo);
    assert SvcOver(AfterBuild(w.build.fired, todo[1..]), AfterRun(w.run.fired, todo[1..]), w);
  }

  lemma PopStaysClosed(build: set<State>, run: set<State>, todo: seq<Act>)
    requires Closed(build) && Closed(run) && todo != [] && SvcActs(todo)
    ensures todo[0].ReachBuild? ==> Closed(build + Down(BuildKind, todo[0].s))
    ensures todo[0].ReachRun? ==> Closed(run + Down(ServiceKind, todo[0].s))
  {
    DownSets();
    assert todo[0] in todo;
  }

  lemma SvcStepKept(c: Config, s: World, i: nat, ch: Choice)
    requires Sized(c, s) && i < |s.svcs| && SvcShape(c.services[i], s.svcs[i])
    requires SvcStep(c, s, i, ch).Some?
    ensures SvcMoves(c, s, i, SvcStep(c, s, i, ch).value.local)
  {
    match s.svcs[i].pc
    case Waiting(_, _, _) => WaitStepKept(c, s, i, ch);
    case Killing(_) => KillStepKept(c, s, i, ch);
    case Unwinding(_) => UnwindStepKept(c, s, i, ch);
    case Starting => ProcessStepKept(c, s, i, ch);
    case Probing => ProcessStepKept(c, s, i, ch);
    case Up => ProcessStepKept(c, s, i, ch);
    case Exited =>
    case _ => PrepareStepKept(c, s, i, ch);
  }

  /** Every way out of bringup but the kill queues one of these. */
  lemma UnwindingStarts(c: Config, sp: SvcSpec, v: Svc, w: Svc)
    requires SvcShape(sp, v) && !v.pc.Unwinding? && !v.pc.Killing? && !v.pc.Exited?
    requires w.pc.Unwinding? && w == v.(pc := w.pc)
    requires || (v.pc.Waiting? && (w.pc.todo == FailWait(v) || w.pc.todo == FailWait(v) + AskIf(c.failfast)))
             || ((v.pc.InWorkspace? || v.pc.Building?) && w.pc.todo == PrepareFail(c))
             || ((v.pc.Gate? || v.pc.Starting?) && w.pc.todo == [ReachRun(Failed)])
             || (v.pc.Probing? && w.pc.todo == [ReachRun(Failed)] + AskIf(c.failfast))
             || (v.pc.Up? && w.pc.todo == [ReachRun(Stopped)] + AskIf(c.failfast))
    ensures SvcShape(sp, w)
  {
    var todo := w.pc.todo;
    assert todo[0] == if v.pc.InWorkspace? || v.pc.Building? then ReachBuild(Failure)
                      else if v.pc.Up? then ReachRun(Stopped) else ReachRun(Failed);
    assert v.pc.Waiting? && v.pc.early ==> todo[1] == ReachBuild(Failure);
    assert v.pc.InWorkspace? || v.pc.Building? ==> todo[1] == ReachRun(Failed);
  }

  lemma ProvStepKept(c: Config, s: World, p: nat, ch: Choice)
    requires Sized(c, s) && p < |s.provs| && ProvShape(c.provisions[p], s.provs[p])
    requires ProvStep(c, s, p, ch).Some?
    ensures ProvMoves(c, s, p, ProvStep(c, s, p, ch).value.local)
  {
    var pc := s.provs[p].pc;
    if pc.PUnwinding? {
      ProvUnwindStepKept(c, s, p, ch);
    } else if pc.CwdCheck? || pc.CheckCmd? || pc.RunCmd? || pc.VerifyCmd? {
      ProvShellStepKept(c, s, p, ch);
    } else {
      ProvWaitStepKept(c, s, p, ch);
    }
  }

  lemma ProvWaitStepKept(c: Config, s: World, p: nat, ch: Choice)
    requires Sized(c, s) && p < |s.provs| && ProvShape(c.provisions[p], s.provs[p])
    requires var pc := s.provs[p].pc;
             pc.Begin? || pc.FindTemplate? || pc.PWaiting? || pc.Bins? || pc.OwnToolchain? || pc.EnvBins? || pc.PExited? || pc.Dormant?
    requires ProvStep(c, s, p, ch).Some?
    ensures ProvMoves(c, s, p, ProvStep(c, s, p, ch).value.local)
  {
    var v, w := s.provs[p], ProvStep(c, s, p, ch).value.local;
    if w.pc.PUnwinding? {
      ProvUnwindingStarts(c, c.provisions[p], v, w);
    }
  }

  lemma ProvShellStepKept(c: Config, s: World, p: nat, ch: Choice)
    requires Sized(c, s) && p < |s.provs| && ProvShape(c.provisions[p], s.provs[p])
    requires var pc := s.provs[p].pc; pc.CwdCheck? || pc.CheckCmd? || pc.RunCmd? || pc.VerifyCmd?
    requires ProvStep(c, s, p, ch).Some?
    ensures ProvMoves(c, s, p, ProvStep(c, s, p, ch).value.local)
  {
    var v, w := s.provs[p], ProvStep(c, s, p, ch).value.local;
    if w.pc.PUnwinding? {
      ProvUnwindingStarts(c, c.provisions[p], v, w);
    }
  }

  lemma ProvUnwindStepKept(c: Config, s: World, p: nat, ch: Choice)
    requires Sized(c, s) && p < |s.provs| && ProvShape(c.provisions[p], s.provs[p])
    requires s.provs[p].pc.PUnwinding? && ProvStep(c, s, p, ch).Some?
    ensures ProvMoves(c, s, p, ProvStep(c, s, p, ch).value.local)
  {
    var v := s.provs[p];
    if v.pc.todo == [] {
      assert ProvAfter(v.run.fired, []) == v.run.fired;
    } else {
      ProvPopShape(c.provisions[p], v, v.pc.todo, ProvStep(c, s, p, ch).value.local);
    }
  }

  lemma ProvPopShape(sp: ProvSpec, v: Prov, todo: seq<Act>, w: Prov)
    requires ProvShape(sp, v) && v.pc == PUnwinding(todo) && todo != []
    requires w == v.(pc := PUnwinding(todo[1..]), run := if todo[0].ReachRun? then Reach(ProvisionKind, v.run, todo[0].s) else v.run)
    ensures ProvShape(sp, w)
  {
    Popped(todo);
    ProvPopKeepsOutcome(v.run.fired, todo);
    if todo[0].ReachRun? {
      assert todo[0] in todo;
      ClosedGrows(v.run.fired, todo[0].s);
    }
  }

  lemma ClosedGrows(fired: set<State>, st: State)
    requires Closed(fired) && (st == Success || st == Failure)
    ensures Closed(fired + Down(ProvisionKind, st))
  {
    DownSets();
  }

  lemma ProvUnwindingStarts(c: Config, sp: ProvSpec, v: Prov, w: Prov)
    requires ProvShape(sp, v) && !v.pc.PUnwinding? && !v.pc.PExited? && !v.pc.Dormant? && !v.pc.Begin?
    requires w.pc.PUnwinding? && w == v.(pc := w.pc)
    requires || w.pc.todo == ProvFail(c, sp)
             || w.pc.todo == [ReachRun(Failure)]
             || (w.pc.todo == [ReachRun(Success)] && v.ran)
    ensures ProvShape(sp, w)
  {
    assert w.pc.todo[0] in {ReachRun(Success), ReachRun(Failure)};
    assert |w.pc.todo| > 1 ==> w.pc.todo[1] == AskShutdown;
  }

  lemma FlagsKeepShape(c: Config, s: World, t: World)
    requires Sized(c, s) && Shapes(c, s) && OnlyFlagsMove(s, t)
    ensures Sized(c, t) && Shapes(c, t) && Grows(s, t)
  {
    forall i | 0 <= i < |t.svcs|
      ensures SvcShape(c.services[i], t.svcs[i])
    {
      assert SvcShape(c.services[i], s.svcs[i]);
    }
    forall p | 0 <= p < |t.provs|
      ensures ProvShape(c.provisions[p], t.provs[p])
    {
      assert ProvShape(c.provisions[p], s.provs[p]);
    }
  }

  lemma AnyKeepsShape(c: Config, s: World, p: Phase, t: World)
    requires Sized(c, s) && Shapes(c, s) && AnyStep(s, p) == Some(t)
    ensures Sized(c, t) && Shapes(c, t) && Grows(s, t)
  {
    if p.Toolchain? {
      assert TcShape(s.tcs[p.n]) && TcShape(t.tcs[p.n]);
    } else if p.Provision? {
      ProvDoneShape(c.provisions[p.n], s.provs[p.n]);
    } else {
      SvcDoneShape(c.services[p.n], s.svcs[p.n]);
    }
  }

  lemma ProvDoneShape(sp: ProvSpec, v: Prov)
    requires ProvShape(sp, v) && (Success in v.run.fired || Failure in v.run.fired)
    ensures ProvShape(sp, v.(run := v.run.(done := true)))
  {
  }

  lemma SvcDoneShape(sp: SvcSpec, v: Svc)
    requires SvcShape(sp, v)
    ensures Success in v.build.fired || Failure in v.build.fired ==> SvcShape(sp, v.(build := v.build.(done := true)))
    ensures Ready in v.run.fired || Failed in v.run.fired ==> SvcShape(sp, v.(run := v.run.(done := true)))
  {
  }

  lemma StepKept(c: Config, s: World, l: Label, t: World)
    requires Sized(c, s) && Shapes(c, s) && Next(c, s, l) == Some(t)
    ensures Sized(c, t) && Shapes(c, t) && Grows(s, t)
  {
    if l.SvcL? {
      SvcStepKept(c, s, l.n, l.ch);
    } else if l.ProvL? {
      ProvStepKept(c, s, l.n, l.ch);
    } else if l.TcL? {
      TcStepKept(c, s, l.n, l.ch, t);
    } else if l.AnyL? {
      AnyKeepsShape(c, s, l.phase, t);
    } else if l.HandlerL? {
      HandlerOnly(c, s, l.ch, t);
    } else {
      OutsideStepKept(c, s, l, t);
    }
  }

  lemma TcStepKept(c: Config, s: World, k: nat, ch: Choice, t: World)
    requires Sized(c, s) && Shapes(c, s) && Next(c, s, TcL(k, ch)) == Some(t)
    ensures Shapes(c, t) && Grows(s, t)
  {
    assert TcShape(s.tcs[k]);
    assert TcShape(TcStep(s.tcs[k], ch).value);
  }

  lemma OutsideStepKept(c: Config, s: World, l: Label, t: World)
    requires l.SweeperL? || l.Interrupt? || l.StopSvc? || l.StopProv? || l.RemoveSvc? || l.RemoveProv?
    requires Sized(c, s) && Shapes(c, s) && Next(c, s, l) == Some(t)
    ensures Shapes(c, t) && Grows(s, t)
  {
    OnlyFlags(c, s, l, t);
    FlagsKeepShape(c, s, t);
  }

  /** The outside world and the sweeper touch flags only. */
  ghost predicate OnlyFlagsMove(s: World, t: World) {
    && |t.svcs| == |s.svcs| && |t.provs| == |s.provs| && t.tcs == s.tcs
    && t.handler == s.handler && t.events == s.events && t.released == s.released
    && (s.shutdown ==> t.shutdown)
    && (forall i :: 0 <= i < |s.svcs| ==>
                      && t.svcs[i] == s.svcs[i].(stop := t.svcs[i].stop, removed := t.svcs[i].removed)
                      && (s.svcs[i].stop ==> t.svcs[i].stop))
    && (forall p :: 0 <= p < |s.provs| ==>
                      && t.provs[p] == s.provs[p].(stop := t.provs[p].stop, removed := t.provs[p].removed)
                      && (s.provs[p].stop ==> t.provs[p].stop))
  }

  lemma SweeperOnlyFlags(s: World, t: World)
    requires SweeperStep(s) == Some(t)
    ensures OnlyFlagsMove(s, t)
  {
    if s.sweeper.Stopping? && s.sweeper.n < |s.svcs| {
      assert t.svcs[s.sweeper.n] == s.svcs[s.sweeper.n].(stop := true);
    }
  }

  lemma OnlyFlags(c: Config, s: World, l: Label, t: World)
    requires l.SweeperL? || l.Interrupt? || l.StopSvc? || l.StopProv? || l.RemoveSvc? || l.RemoveProv?
    requires Sized(c, s) && Next(c, s, l) == Some(t)
    ensures OnlyFlagsMove(s, t)
  {
    if l.SweeperL? {
      SweeperOnlyFlags(s, t);
    }
  }

  lemma HandlerOnly(c: Config, s: World, ch: Choice, t: World)
    requires Sized(c, s) && HandlerStep(c, s, ch) == Some(t)
    ensures && t == s.(handler := t.handler, events := t.events, released := t.released, shutdown := t.shutdown)
            && (s.shutdown ==> t.shutdown)
  {
  }

  // ---- what had fired before a goroutine got where it is ----

  ghost predicate FiredUpTo(s: World, refs: seq<Ref>, k: nat) {
    k <= |refs| && forall j :: 0 <= j < k ==> HasFired(s, refs[j])
  }

  /** The barriers a goroutine has in hand exist, whether their entity is still registered or not. */
  ghost predicate Holds(s: World, refs: seq<Ref>, k: nat) {
    k < |refs| && Names(s, refs[k])
  }

  ghost predicate SvcEvidence(s: World, sp: SvcSpec, v: Svc) {
    && (v.prepared ==> OwnReady(s, sp.toolchain))
    && (v.spawned || v.pc.Starting? ==> FiredUpTo(s, sp.after, |sp.after|))
    && (v.pc.Waiting? ==> FiredUpTo(s, WaitRefs(sp, v.pc.early), v.pc.k) && (v.pc.held ==> Holds(s, WaitRefs(sp, v.pc.early), v.pc.k)))
  }

  ghost predicate ProvEvidence(s: World, sp: ProvSpec, v: Prov) {
    && (v.pc.PWaiting? ==> FiredUpTo(s, sp.after, v.pc.k) && (v.pc.held ==> Holds(s, sp.after, v.pc.k)))
    && (v.ran || v.pc.Bins? || v.pc.OwnToolchain? || v.pc.EnvBins? || v.pc.CwdCheck? ==> FiredUpTo(s, sp.after, |sp.after|))
    && (v.ran || v.pc.EnvBins? || v.pc.CwdCheck? ==> OwnReady(s, sp.toolchain))
  }

  ghost predicate Evidence(c: Config, s: World)
    requires Sized(c, s)
  {
    && (forall i :: 0 <= i < |s.svcs| ==> SvcEvidence(s, c.services[i], s.svcs[i]))
    && (forall p :: 0 <= p < |s.provs| ==> ProvEvidence(s, c.provisions[p], s.provs[p]))
  }

  lemma EvidenceGrows(s: World, t: World)
    requires Grows(s, t)
    ensures forall sp, v :: SvcEvidence(s, sp, v) ==> SvcEvidence(t, sp, v)
    ensures forall sp, v :: ProvEvidence(s, sp, v) ==> ProvEvidence(t, sp, v)
  {
    forall r | HasFired(s, r)
      ensures HasFired(t, r)
    {
      FiredGrows(s, t, r);
    }
    forall r | Names(s, r)
      ensures Names(t, r)
    {
    }
  }

  /** A goroutine passes a wait only on a fired barrier. */
  lemma SvcStepEvidence(c: Config, s: World, i: nat, ch: Choice)
    requires Sized(c, s) && i < |s.svcs| && SvcShape(c.services[i], s.svcs[i])
    requires SvcEvidence(s, c.services[i], s.svcs[i]) && SvcStep(c, s, i, ch).Some?
    ensures SvcEvidence(s, c.services[i], SvcStep(c, s, i, ch).value.local)
  {
    var sp, v, w := c.services[i], s.svcs[i], SvcStep(c, s, i, ch).value.local;
    if v.pc.Waiting? && v.pc.early && v.pc.k == |WaitRefs(sp, true)| && ch == Go {
      if sp.toolchain.Some? {
        assert HasFired(s, WaitRefs(sp, true)[0]);
      }
    }
  }

  lemma ProvStepEvidence(c: Config, s: World, p: nat, ch: Choice)
    requires Sized(c, s) && p < |s.provs| && ProvShape(c.provisions[p], s.provs[p])
    requires ProvEvidence(s, c.provisions[p], s.provs[p]) && ProvStep(c, s, p, ch).Some?
    ensures ProvEvidence(s, c.provisions[p], ProvStep(c, s, p, ch).value.local)
  {
  }

  lemma EvidenceKept(c: Config, s: World, l: Label, t: World)
    requires Sized(c, s) && Shapes(c, s) && Evidence(c, s) && Next(c, s, l) == Some(t)
    ensures Sized(c, t) && Evidence(c, t)
  {
    StepKept(c, s, l, t);
    EvidenceGrows(s, t);
    if l.SvcL? {
      SvcStepEvidence(c, s, l.n, l.ch);
    } else if l.ProvL? {
      ProvStepEvidence(c, s, l.n, l.ch);
    } else if l.AnyL? {
      AnyOnlyDone(s, l.phase, t);
    } else if l.HandlerL? {
      HandlerOnly(c, s, l.ch, t);
    } else if !l.TcL? {
      OnlyFlags(c, s, l, t);
    }
  }

  lemma AnyOnlyDone(s: World, p: Phase, t: World)
    requires AnyStep(s, p) == Some(t)
    ensures |t.svcs| == |s.svcs| && |t.provs| == |s.provs|
    ensures forall i :: 0 <= i < |s.svcs| ==> t.svcs[i] == s.svcs[i].(build := t.svcs[i].build, run := t.svcs[i].run)
    ensures forall q :: 0 <= q < |s.provs| ==> t.provs[q] == s.provs[q].(run := t.provs[q].run)
  {
  }

  // ---- the configure handler ----

  ghost predicate SvcsDone(s: World, n: nat) {
    n <= |s.svcs| && forall i :: 0 <= i < n ==> s.svcs[i].run.done
  }

  ghost predicate SvcsReady(s: World, n: nat) {
    n <= |s.svcs| && forall i :: 0 <= i < n ==> Ready in s.svcs[i].run.fired
  }

  ghost predicate ProvsDone(c: Config, s: World, n: nat)
    requires Sized(c, s)
  {
    n <= |s.provs| && forall p :: 0 <= p < n && Awaited(c.provisions[p]) ==> s.provs[p].run.done
  }

  ghost predicate ProvsSucceeded(c: Config, s: World, n: nat)
    requires Sized(c, s)
  {
    n <= |s.provs| && forall p :: 0 <= p < n && Awaited(c.provisions[p]) ==> Success in s.provs[p].run.fired
  }

  /** Every service and every awaited provision has its outcome; under failfast, a good one. */
  ghost predicate StackUp(c: Config, s: World)
    requires Sized(c, s)
  {
    && SvcsDone(s, |s.svcs|) && ProvsDone(c, s, |s.provs|)
    && (c.failfast ==> SvcsReady(s, |s.svcs|) && ProvsSucceeded(c, s, |s.provs|))
  }

  ghost predicate StackBroken(c: Config, s: World)
    requires Sized(c, s)
  {
    && c.failfast
    && (|| (exists i :: 0 <= i < |s.svcs| && HasFailed(s, Runtime(i)))
        || (exists p :: 0 <= p < |s.provs| && Awaited(c.provisions[p]) && HasFailed(s, Provision(p))))
  }

  ghost predicate HandlerShape(c: Config, s: World)
    requires Sized(c, s)
  {
    match s.handler
    case AwaitSvc(n) => s.events == [] && SvcsDone(s, n)
    case CheckSvc(n) => s.events == [] && SvcsDone(s, |s.svcs|) && (c.failfast ==> SvcsReady(s, n)) && n <= |s.svcs|
    case AwaitProv(n) =>
      s.events == [] && SvcsDone(s, |s.svcs|) && (c.failfast ==> SvcsReady(s, |s.svcs|)) && ProvsDone(c, s, n)
    case CheckProv(n) =>
      && s.events == [] && SvcsDone(s, |s.svcs|) && (c.failfast ==> SvcsReady(s, |s.svcs|))
      && ProvsDone(c, s, |s.provs|) && (c.failfast ==> ProvsSucceeded(c, s, n)) && n <= |s.provs|
    case Complain => s.events == [ErrorEvent] && StackBroken(c, s)
    case Release => s.events == [] && StackUp(c, s)
    case Announce => s.events == [] && StackUp(c, s) && s.released
    case HandlerEnd =>
      || (s.events == [] && s.shutdown)
      || (s.events == [ErrorEvent] && StackBroken(c, s) && s.shutdown)
      || (s.events == [DoneEvent] && StackUp(c, s) && s.released)
  }

  lemma HandlerGrows(c: Config, s: World, t: World)
    requires Sized(c, s) && Sized(c, t) && Grows(s, t) && HandlerShape(c, s)
    requires t.handler == s.handler && t.events == s.events && (s.released ==> t.released)
    ensures HandlerShape(c, t)
  {
    assert StackBroken(c, s) ==> StackBroken(c, t) by {
      forall r | HasFired(s, r)
        ensures HasFired(t, r)
      {
        FiredGrows(s, t, r);
      }
    }
  }

  lemma HandlerComplains(c: Config, s: World, t: World)
    requires Sized(c, s) && StackBroken(c, s) && t == s.(handler := HandlerEnd, shutdown := true)
    ensures Sized(c, t) && StackBroken(c, t)
  {
    if i :| 0 <= i < |s.svcs| && HasFailed(s, Runtime(i)) {
      assert HasFailed(t, Runtime(i));
    } else {
      var p :| 0 <= p < |s.provs| && Awaited(c.provisions[p]) && HasFailed(s, Provision(p));
      assert HasFailed(t, Provision(p));
    }
  }

  lemma HandlerAwaitKept(c: Config, s: World, ch: Choice, t: World)
    requires Sized(c, s) && HandlerShape(c, s) && HandlerStep(c, s, ch) == Some(t)
    requires s.handler.AwaitSvc? || s.handler.AwaitProv?
    ensures Sized(c, t) && HandlerShape(c, t)
  {
  }

  lemma HandlerCheckKept(c: Config, s: World, ch: Choice, t: World)
    requires Sized(c, s) && HandlerShape(c, s) && HandlerStep(c, s, ch) == Some(t)
    requires s.handler.CheckSvc? || s.handler.CheckProv?
    requires !t.handler.Complain?
    ensures Sized(c, t) && HandlerShape(c, t)
  {
  }

  lemma HandlerStepKept(c: Config, s: World, ch: Choice, t: World)
    requires Sized(c, s) && Shapes(c, s) && HandlerShape(c, s) && HandlerStep(c, s, ch) == Some(t)
    ensures Sized(c, t) && HandlerShape(c, t)
  {
    if t.handler.Complain? {
      HandlerNoticesFailure(c, s, ch, t);
    } else if s.handler.Complain? {
      HandlerComplains(c, s, t);
    } else if s.handler.AwaitSvc? || s.handler.AwaitProv? {
      HandlerAwaitKept(c, s, ch, t);
    } else if s.handler.CheckSvc? || s.handler.CheckProv? {
      HandlerCheckKept(c, s, ch, t);
    }
  }

  lemma HandlerNoticesFailure(c: Config, s: World, ch: Choice, t: World)
    requires Sized(c, s) && Shapes(c, s) && HandlerShape(c, s)
    requires HandlerStep(c, s, ch) == Some(t) && t.handler.Complain?
    ensures Sized(c, t) && t.events == [ErrorEvent] && StackBroken(c, t)
  {
    var n := s.handler.n;
    if s.handler.CheckSvc? {
      assert SvcShape(c.services[n], s.svcs[n]);
      assert HasFailed(t, Runtime(n));
    } else {
      assert ProvShape(c.provisions[n], s.provs[n]);
      assert HasFailed(t, Provision(n));
    }
  }

  // ---- the invariant of every run ----

  ghost predicate Inv(c: Config, s: World) {
    Sized(c, s) && Shapes(c, s) && Evidence(c, s) && HandlerShape(c, s)
  }

  lemma InitInv(c: Config)
    ensures Inv(c, Init(c))
  {
  }

  lemma InvKept(c: Config, s: World, l: Label, t: World)
    requires Inv(c, s) && Next(c, s, l) == Some(t)
    ensures Inv(c, t)
  {
    StepKept(c, s, l, t);
    EvidenceKept(c, s, l, t);
    if l.HandlerL? {
      HandlerStepKept(c, s, l.ch, t);
    } else {
      HandlerGrows(c, s, t);
    }
  }

  lemma {:induction false} RunInv(c: Config, s: World, run: seq<Label>)
    requires Inv(c, s) && Exec(c, s, run).Some?
    ensures Inv(c, Exec(c, s, run).value) && Grows(s, Exec(c, s, run).value)
    decreases run
  {
    if run != [] {
      var t := Next(c, s, run[0]).value;
      InvKept(c, s, run[0], t);
      StepKept(c, s, run[0], t);
      RunInv(c, t, run[1..]);
    }
  }

  lemma ReachableInv(c: Config, s: World)
    requires Reachable(c, s)
    ensures Inv(c, s)
  {
    var run :| Exec(c, Init(c), run) == Some(s);
    InitInv(c);
    RunInv(c, Init(c), run);
  }
}
