/** What the outcome of external work does: each barrier fires exactly because of what happened in the
    run, told by the labels taken and where each goroutine was. */
module BringupLaws {
  import opened EntityLifecycles
  import opened Wrappers
  import opened BringupModel
  import opened BringupSafety
  import opened BringupTheorems

  // ---- events ----

  /** What can happen to a service, a provision or a toolchain. */
  datatype Happening =
    | BuildSucceeds(n: nat) | BuildFails(n: nat)
    | ServiceReady(n: nat) | ServiceStops(n: nat) | ServiceFails(n: nat) | ServiceComplains(n: nat)
    | CheckPasses(n: nat) | CheckRefuses(n: nat) | CommandSucceeds(n: nat)
    | ProvisionSucceeds(n: nat) | ProvisionFails(n: nat) | ProvisionComplains(n: nat)
    | ToolchainReady(n: nat) | ToolchainFails(n: nat)

  predicate SvcDoes(pc: SvcPc, ch: Choice, e: Happening) {
    match e
    case BuildSucceeds(_) => pc.Building? && ch.Go?
    case BuildFails(_) => ((pc.InWorkspace? || pc.Building?) && ch.Fail?) || (pc.Waiting? && pc.early && !ch.Go?)
    case ServiceReady(_) => pc.Probing? && ch.Go?
    case ServiceStops(_) => (pc.Up? && ch.Fail?) || (pc.Killing? && pc.wasReady && ch.Go?)
    case ServiceFails(_) =>
      || ((pc.InWorkspace? || pc.Building? || pc.Starting? || pc.Probing?) && ch.Fail?)
      || (pc.Waiting? && !ch.Go?) || (pc.Gate? && ch.Cut?)
      || (pc.Killing? && !pc.wasReady)
    case ServiceComplains(_) =>
      ch.Fail? && (pc.Waiting? || pc.InWorkspace? || pc.Building? || pc.Probing? || pc.Up? || pc.Killing?)
    case _ => false
  }

  predicate ProvDoes(sp: ProvSpec, pc: ProvPc, ch: Choice, e: Happening) {
    match e
    case CheckPasses(_) => pc.CheckCmd? && ch.Go?
    case CheckRefuses(_) => pc.CheckCmd? && ch.Fail?
    case CommandSucceeds(_) => pc.RunCmd? && ch.Go?
    case ProvisionSucceeds(_) => ch.Go? && (pc.CheckCmd? || (pc.RunCmd? && !sp.hasVerify) || pc.VerifyCmd?)
    case ProvisionFails(_) =>
      || ((pc.FindTemplate? || pc.CwdCheck? || pc.RunCmd?) && ch.Fail?)
      || (pc.PWaiting? && !ch.Go?) || (pc.OwnToolchain? && ch.Cut?)
    case ProvisionComplains(_) => ((pc.FindTemplate? || pc.CwdCheck? || pc.RunCmd?) && ch.Fail?) || (pc.OwnToolchain? && ch.Cut?)
    case _ => false
  }

  predicate TcDoes(pc: TcPc, ch: Choice, e: Happening) {
    match e
    case ToolchainReady(_) => pc.TcInstall? && ch.Go?
    case ToolchainFails(_) => pc.TcInstall? && ch.Fail?
    case _ => false
  }

  /** Taking the step `l` in the world `w` is the event. Complaints are made under failfast only, and
      never by a detached provision. */
  predicate Is(c: Config, w: World, l: Label, e: Happening)
    requires Sized(c, w)
  {
    match l
    case SvcL(i, ch) => i == e.n && i < |w.svcs| && SvcDoes(w.svcs[i].pc, ch, e) && (e.ServiceComplains? ==> c.failfast)
    case ProvL(p, ch) =>
      p == e.n && p < |w.provs| && ProvDoes(c.provisions[p], w.provs[p].pc, ch, e) && (e.ProvisionComplains? ==> c.failfast && !c.provisions[p].detached)
    case TcL(k, ch) => k == e.n && k < |w.tcs| && TcDoes(w.tcs[k].pc, ch, e)
    case _ => false
  }

  /** At step `k` of the run from the start, the event happened. */
  ghost predicate At(c: Config, run: seq<Label>, k: int, e: Happening) {
    && 0 <= k < |run| && Exec(c, Init(c), run[..k]).Some? && Sized(c, Exec(c, Init(c), run[..k]).value)
    && Is(c, Exec(c, Init(c), run[..k]).value, run[k], e)
  }

  ghost predicate Happened(c: Config, run: seq<Label>, e: Happening) {
    exists k :: At(c, run, k, e)
  }

  // ---- what an event leads to ----

  predicate Owes(v: Svc, a: Act) {
    v.pc.Unwinding? && a in v.pc.todo
  }

  predicate ProvOwes(v: Prov, a: Act) {
    v.pc.PUnwinding? && a in v.pc.todo
  }

  predicate SvcBound(v: Svc, e: Happening) {
    match e
    case BuildSucceeds(_) => Success in v.build.fired
    case BuildFails(_) => Failure in v.build.fired || Owes(v, ReachBuild(Failure))
    case ServiceReady(_) => Ready in v.run.fired || Owes(v, ReachRun(Stopped))
    case ServiceStops(_) => Stopped in v.run.fired || Owes(v, ReachRun(Stopped))
    case ServiceFails(_) => Failed in v.run.fired || Owes(v, ReachRun(Failed))
    case ServiceComplains(_) => Owes(v, AskShutdown)
    case _ => false
  }

  predicate ProvBound(v: Prov, e: Happening) {
    match e
    case ProvisionSucceeds(_) => Success in v.run.fired || ProvOwes(v, ReachRun(Success))
    case ProvisionFails(_) => Failure in v.run.fired || ProvOwes(v, ReachRun(Failure))
    case ProvisionComplains(_) => ProvOwes(v, AskShutdown)
    case _ => false
  }

  /** What a step of one supervisor changes about what it is bound to. */
  ghost predicate SvcTurns(c: Config, s: World, i: nat, ch: Choice, e: Happening)
    requires Sized(c, s) && i < |s.svcs| && SvcStep(c, s, i, ch).Some?
  {
    var v, m := s.svcs[i], SvcStep(c, s, i, ch).value;
    var does := SvcDoes(v.pc, ch, e) && (e.ServiceComplains? ==> c.failfast);
    && (SvcBound(m.local, e) ==> SvcBound(v, e) || does)
    && (SvcBound(v, e) ==> SvcBound(m.local, e) || (e.ServiceComplains? && m.ask))
    && (does ==> SvcBound(m.local, e))
    && (m.ask ==> Owes(v, AskShutdown))
  }

  lemma WaitTurns(c: Config, s: World, i: nat, ch: Choice, e: Happening)
    requires Sized(c, s) && i < |s.svcs| && SvcShape(c.services[i], s.svcs[i]) && SvcStep(c, s, i, ch).Some?
    requires s.svcs[i].pc.Waiting?
    ensures SvcTurns(c, s, i, ch, e)
  {
  }

  lemma PrepareTurns(c: Config, s: World, i: nat, ch: Choice, e: Happening)
    requires Sized(c, s) && i < |s.svcs| && SvcShape(c.services[i], s.svcs[i]) && SvcStep(c, s, i, ch).Some?
    requires s.svcs[i].pc.Locking? || s.svcs[i].pc.InWorkspace? || s.svcs[i].pc.Building? || s.svcs[i].pc.Gate?
    ensures SvcTurns(c, s, i, ch, e)
  {
  }

  lemma ProcessTurns(c: Config, s: World, i: nat, ch: Choice, e: Happening)
    requires Sized(c, s) && i < |s.svcs| && SvcShape(c.services[i], s.svcs[i]) && SvcStep(c, s, i, ch).Some?
    requires s.svcs[i].pc.Starting? || s.svcs[i].pc.Probing? || s.svcs[i].pc.Up? || s.svcs[i].pc.Killing?
    ensures SvcTurns(c, s, i, ch, e)
  {
  }

  lemma UnwindTurns(c: Config, s: World, i: nat, ch: Choice, e: Happening)
    requires Sized(c, s) && i < |s.svcs| && SvcShape(c.services[i], s.svcs[i]) && SvcStep(c, s, i, ch).Some?
    requires s.svcs[i].pc.Unwinding?
    ensures SvcTurns(c, s, i, ch, e)
  {
    var v, m := s.svcs[i], SvcStep(c, s, i, ch).value;
    UnwindMoves(c, s, i, ch);
    assert !SvcDoes(v.pc, ch, e);
    if v.pc.todo == [] {
      EndKeepsBound(v, m.local, e);
    } else {
      PopKeepsBound(c.services[i], v, v.pc.todo, m.local, e);
    }
  }

  lemma UnwindMoves(c: Config, s: World, i: nat, ch: Choice)
    requires Sized(c, s) && i < |s.svcs| && s.svcs[i].pc.Unwinding? && SvcStep(c, s, i, ch).Some?
    ensures var v, m := s.svcs[i], SvcStep(c, s, i, ch).value;
            var todo := v.pc.todo;
            if todo == [] then m == Move(v.(pc := Exited), false)
            else && m.ask == todo[0].AskShutdown?
                 && m.local == v.(pc := Unwinding(todo[1..]),
                                  build := if todo[0].ReachBuild? then Reach(BuildKind, v.build, todo[0].s) else v.build,
                                  run := if todo[0].ReachRun? then Reach(ServiceKind, v.run, todo[0].s) else v.run)
  {
  }

  lemma EndKeepsBound(v: Svc, w: Svc, e: Happening)
    requires v.pc == Unwinding([]) && w == v.(pc := Exited)
    ensures SvcBound(w, e) == SvcBound(v, e)
  {
  }

  /** Carrying out an act leaves a supervisor bound as it was. */
  lemma PopKeepsBound(sp: SvcSpec, v: Svc, todo: seq<Act>, w: Svc, e: Happening)
    requires SvcShape(sp, v) && v.pc == Unwinding(todo) && todo != []
    requires w == v.(pc := Unwinding(todo[1..]),
                     build := if todo[0].ReachBuild? then Reach(BuildKind, v.build, todo[0].s) else v.build,
                     run := if todo[0].ReachRun? then Reach(ServiceKind, v.run, todo[0].s) else v.run)
    ensures SvcBound(w, e) ==> SvcBound(v, e)
    ensures SvcBound(v, e) ==> SvcBound(w, e) || (e.ServiceComplains? && todo[0].AskShutdown?)
    ensures todo[0].AskShutdown? ==> Owes(v, AskShutdown)
  {
    Popped(todo);
    DownSets();
    assert todo[0] in todo;
    assert forall a :: Owes(v, a) <==> a == todo[0] || Owes(w, a);
    if todo[0].ReachBuild? {
      assert w.run == v.run && w.build.fired == v.build.fired + BROKEN;
    } else if todo[0] == ReachRun(Failed) {
      assert w.build == v.build && w.run.fired == v.run.fired + FAILED;
    } else if todo[0] == ReachRun(Stopped) {
      assert w.build == v.build && w.run.fired == v.run.fired + STOPPED;
    } else {
      assert w.build == v.build && w.run == v.run;
    }
  }

  lemma SvcTurnsAs(c: Config, s: World, i: nat, ch: Choice, e: Happening)
    requires Sized(c, s) && i < |s.svcs| && SvcShape(c.services[i], s.svcs[i]) && SvcStep(c, s, i, ch).Some?
    ensures SvcTurns(c, s, i, ch, e)
  {
    var pc := s.svcs[i].pc;
    if pc.Waiting? {
      WaitTurns(c, s, i, ch, e);
    } else if pc.Unwinding? {
      UnwindTurns(c, s, i, ch, e);
    } else if pc.Starting? || pc.Probing? || pc.Up? || pc.Killing? {
      ProcessTurns(c, s, i, ch, e);
    } else if !pc.Exited? {
      PrepareTurns(c, s, i, ch, e);
    }
  }

  // ---- provisions and toolchains ----

  ghost predicate ProvTurns(c: Config, s: World, p: nat, ch: Choice, e: Happening)
    requires Sized(c, s) && p < |s.provs| && ProvStep(c, s, p, ch).Some?
  {
    var v, m := s.provs[p], ProvStep(c, s, p, ch).value;
    var does := ProvDoes(c.provisions[p], v.pc, ch, e) && (e.ProvisionComplains? ==> c.failfast && !c.provisions[p].detached);
    && (ProvBound(m.local, e) ==> ProvBound(v, e) || does)
    && (ProvBound(v, e) ==> ProvBound(m.local, e) || (e.ProvisionComplains? && m.ask))
    && (does && !e.CheckPasses? && !e.CheckRefuses? && !e.CommandSucceeds? ==> ProvBound(m.local, e))
    && (m.ask ==> ProvOwes(v, AskShutdown))
  }

  lemma ProvWaitTurns(c: Config, s: World, p: nat, ch: Choice, e: Happening)
    requires Sized(c, s) && p < |s.provs| && ProvShape(c.provisions[p], s.provs[p]) && ProvStep(c, s, p, ch).Some?
    requires var pc := s.provs[p].pc; pc.Begin? || pc.FindTemplate? || pc.PWaiting? || pc.Bins? || pc.OwnToolchain? || pc.EnvBins?
    ensures ProvTurns(c, s, p, ch, e)
  {
  }

  lemma ProvShellTurns(c: Config, s: World, p: nat, ch: Choice, e: Happening)
    requires Sized(c, s) && p < |s.provs| && ProvShape(c.provisions[p], s.provs[p]) && ProvStep(c, s, p, ch).Some?
    requires var pc := s.provs[p].pc; pc.CwdCheck? || pc.CheckCmd? || pc.RunCmd? || pc.VerifyCmd?
    ensures ProvTurns(c, s, p, ch, e)
  {
  }

  lemma ProvUnwindMoves(c: Config, s: World, p: nat, ch: Choice)
    requires Sized(c, s) && p < |s.provs| && s.provs[p].pc.PUnwinding? && ProvStep(c, s, p, ch).Some?
    ensures var v, m := s.provs[p], ProvStep(c, s, p, ch).value;
            var todo := v.pc.todo;
            if todo == [] then m == Move(v.(pc := PExited), false)
            else && m.ask == todo[0].AskShutdown?
                 && m.local == v.(pc := PUnwinding(todo[1..]), run := if todo[0].ReachRun? then Reach(ProvisionKind, v.run, todo[0].s) else v.run)
  {
  }

  lemma ProvPopKeepsBound(sp: ProvSpec, v: Prov, todo: seq<Act>, w: Prov, e: Happening)
    requires ProvShape(sp, v) && v.pc == PUnwinding(todo) && todo != []
    requires w == v.(pc := PUnwinding(todo[1..]), run := if todo[0].ReachRun? then Reach(ProvisionKind, v.run, todo[0].s) else v.run)
    ensures ProvBound(w, e) ==> ProvBound(v, e)
    ensures ProvBound(v, e) ==> ProvBound(w, e) || (e.ProvisionComplains? && todo[0].AskShutdown?)
    ensures todo[0].AskShutdown? ==> ProvOwes(v, AskShutdown)
  {
    Popped(todo);
    DownSets();
    assert todo[0] in todo;
    assert forall a :: ProvOwes(v, a) <==> a == todo[0] || ProvOwes(w, a);
  }

  lemma ProvUnwindTurns(c: Config, s: World, p: nat, ch: Choice, e: Happening)
    requires Sized(c, s) && p < |s.provs| && ProvShape(c.provisions[p], s.provs[p]) && ProvStep(c, s, p, ch).Some?
    requires s.provs[p].pc.PUnwinding?
    ensures ProvTurns(c, s, p, ch, e)
  {
    var v, m := s.provs[p], ProvStep(c, s, p, ch).value;
    ProvUnwindMoves(c, s, p, ch);
    assert !ProvDoes(c.provisions[p], v.pc, ch, e);
    if v.pc.todo == [] {
      ProvEndKeepsBound(v, m.local, e);
    } else {
      ProvPopKeepsBound(c.provisions[p], v, v.pc.todo, m.local, e);
    }
  }

  lemma ProvEndKeepsBound(v: Prov, w: Prov, e: Happening)
    requires v.pc == PUnwinding([]) && w == v.(pc := PExited)
    ensures ProvBound(w, e) == ProvBound(v, e)
  {
  }

  lemma ProvTurnsAs(c: Config, s: World, p: nat, ch: Choice, e: Happening)
    requires Sized(c, s) && p < |s.provs| && ProvShape(c.provisions[p], s.provs[p]) && ProvStep(c, s, p, ch).Some?
    ensures ProvTurns(c, s, p, ch, e)
  {
    var pc := s.provs[p].pc;
    if pc.PUnwinding? {
      ProvUnwindTurns(c, s, p, ch, e);
    } else if pc.CwdCheck? || pc.CheckCmd? || pc.RunCmd? || pc.VerifyCmd? {
      ProvShellTurns(c, s, p, ch, e);
    } else {
      ProvWaitTurns(c, s, p, ch, e);
    }
  }

  predicate TcBound(t: Tc, e: Happening) {
    match e
    case ToolchainReady(_) => Ready in t.run.fired
    case ToolchainFails(_) => Failed in t.run.fired
    case _ => false
  }

  lemma TcTurns(t: Tc, ch: Choice, e: Happening)
    requires TcShape(t) && TcStep(t, ch).Some?
    ensures TcBound(TcStep(t, ch).value, e) <==> TcBound(t, e) || TcDoes(t.pc, ch, e)
  {
  }

  // ---- the world ----

  /** Its outcome has fired, or is what the goroutine on its way out still has to fire. */
  predicate Bound(w: World, e: Happening) {
    match e
    case BuildSucceeds(i) => i < |w.svcs| && SvcBound(w.svcs[i], e)
    case BuildFails(i) => i < |w.svcs| && SvcBound(w.svcs[i], e)
    case ServiceReady(i) => i < |w.svcs| && SvcBound(w.svcs[i], e)
    case ServiceStops(i) => i < |w.svcs| && SvcBound(w.svcs[i], e)
    case ServiceFails(i) => i < |w.svcs| && SvcBound(w.svcs[i], e)
    case ServiceComplains(i) => i < |w.svcs| && SvcBound(w.svcs[i], e)
    case ToolchainReady(k) => k < |w.tcs| && TcBound(w.tcs[k], e)
    case ToolchainFails(k) => k < |w.tcs| && TcBound(w.tcs[k], e)
    case _ => e.n < |w.provs| && ProvBound(w.provs[e.n], e)
  }

  /** Events that say where a provision was, not how it ends. */
  predicate Passing(e: Happening) {
    e.CheckPasses? || e.CheckRefuses? || e.CommandSucceeds?
  }

  predicate Complaint(e: Happening) {
    e.ServiceComplains? || e.ProvisionComplains?
  }

  ghost predicate WorldTurns(c: Config, s: World, l: Label, t: World, e: Happening)
    requires Sized(c, s)
  {
    && (Bound(t, e) ==> Bound(s, e) || Is(c, s, l, e))
    && (Bound(s, e) ==> Bound(t, e) || (Complaint(e) && t.shutdown))
    && (Is(c, s, l, e) && !Passing(e) ==> Bound(t, e))
  }

  lemma StillBound(c: Config, s: World, l: Label, t: World, e: Happening)
    requires Sized(c, s) && !l.SvcL? && !l.ProvL? && !l.TcL? && Next(c, s, l) == Some(t)
    ensures Bound(t, e) == Bound(s, e)
  {
    if l.AnyL? {
      AnyKeepsFired(s, l.phase, t);
    } else if l.HandlerL? {
      HandlerOnly(c, s, l.ch, t);
    } else {
      OnlyFlags(c, s, l, t);
    }
  }

  lemma AnyKeepsFired(s: World, p: Phase, t: World)
    requires AnyStep(s, p) == Some(t)
    ensures |t.svcs| == |s.svcs| && |t.provs| == |s.provs| && |t.tcs| == |s.tcs|
    ensures forall i :: 0 <= i < |s.svcs| ==>
              t.svcs[i].pc == s.svcs[i].pc && t.svcs[i].build.fired == s.svcs[i].build.fired && t.svcs[i].run.fired == s.svcs[i].run.fired
    ensures forall q :: 0 <= q < |s.provs| ==> t.provs[q].pc == s.provs[q].pc && t.provs[q].run.fired == s.provs[q].run.fired
    ensures forall k :: 0 <= k < |s.tcs| ==> t.tcs[k].run.fired == s.tcs[k].run.fired
  {
  }

  lemma WorldTurnsAs(c: Config, s: World, l: Label, t: World, e: Happening)
    requires Inv(c, s) && Next(c, s, l) == Some(t)
    ensures WorldTurns(c, s, l, t, e)
  {
    if l.SvcL? {
      SvcTurnsWorld(c, s, l.n, l.ch, t, e);
    } else if l.ProvL? {
      ProvTurnsWorld(c, s, l.n, l.ch, t, e);
    } else if l.TcL? {
      TcTurnsWorld(c, s, l.n, l.ch, t, e);
    } else {
      StillBound(c, s, l, t, e);
    }
  }

  predicate OfService(e: Happening) {
    e.BuildSucceeds? || e.BuildFails? || e.ServiceReady? || e.ServiceStops? || e.ServiceFails? || e.ServiceComplains?
  }

  predicate OfToolchain(e: Happening) {
    e.ToolchainReady? || e.ToolchainFails?
  }

  lemma SvcTurnsWorld(c: Config, s: World, i: nat, ch: Choice, t: World, e: Happening)
    requires Inv(c, s) && Next(c, s, SvcL(i, ch)) == Some(t)
    ensures WorldTurns(c, s, SvcL(i, ch), t, e)
  {
    assert SvcShape(c.services[i], s.svcs[i]);
    if OfService(e) && e.n == i {
      SvcTurnsAs(c, s, i, ch, e);
    } else {
      assert Bound(t, e) == Bound(s, e);
    }
  }

  lemma ProvTurnsWorld(c: Config, s: World, p: nat, ch: Choice, t: World, e: Happening)
    requires Inv(c, s) && Next(c, s, ProvL(p, ch)) == Some(t)
    ensures WorldTurns(c, s, ProvL(p, ch), t, e)
  {
    assert ProvShape(c.provisions[p], s.provs[p]);
    if !OfService(e) && !OfToolchain(e) && e.n == p {
      ProvTurnsAs(c, s, p, ch, e);
    } else {
      assert Bound(t, e) == Bound(s, e);
    }
  }

  lemma TcTurnsWorld(c: Config, s: World, k: nat, ch: Choice, t: World, e: Happening)
    requires Inv(c, s) && Next(c, s, TcL(k, ch)) == Some(t)
    ensures WorldTurns(c, s, TcL(k, ch), t, e)
  {
    assert TcShape(s.tcs[k]);
    if OfToolchain(e) && e.n == k {
      TcTurns(s.tcs[k], ch, e);
    } else {
      assert Bound(t, e) == Bound(s, e);
    }
  }

  // ---- runs ----

  lemma ExecLast(c: Config, run: seq<Label>, s: World) returns (w: World)
    requires run != [] && Exec(c, Init(c), run) == Some(s)
    ensures var n := |run| - 1; Exec(c, Init(c), run[..n]) == Some(w) && Next(c, w, run[n]) == Some(s)
    ensures Inv(c, w)
  {
    var n := |run| - 1;
    ExecPrefix(c, Init(c), run, n);
    w := Exec(c, Init(c), run[..n]).value;
    assert run == run[..n] + [run[n]];
    ExecJoin(c, Init(c), run[..n], [run[n]]);
    assert [run[n]][1..] == [];
    InitInv(c);
    RunInv(c, Init(c), run[..n]);
  }

  lemma {:induction false} ExecPrefix(c: Config, s: World, run: seq<Label>, n: nat)
    requires n <= |run| && Exec(c, s, run).Some?
    ensures Exec(c, s, run[..n]).Some?
    decreases run
  {
    if n > 0 {
      assert run[..n][0] == run[0] && run[..n][1..] == run[1..][..n - 1];
      ExecPrefix(c, Next(c, s, run[0]).value, run[1..], n - 1);
    }
  }

  lemma HappenedLater(c: Config, run: seq<Label>, w: World, e: Happening)
    requires run != [] && Exec(c, Init(c), run[..|run| - 1]) == Some(w) && Sized(c, w)
    ensures Happened(c, run, e) <==> Happened(c, run[..|run| - 1], e) || Is(c, w, run[|run| - 1], e)
  {
    var n := |run| - 1;
    var before := run[..n];
    if Happened(c, run, e) {
      var k :| At(c, run, k, e);
      if k < n {
        AtEarlier(c, run, n, k, e);
      }
    }
    if Happened(c, before, e) {
      var k :| At(c, before, k, e);
      AtEarlier(c, run, n, k, e);
    }
    if Is(c, w, run[n], e) {
      assert At(c, run, n, e);
    }
  }

  lemma AtEarlier(c: Config, run: seq<Label>, n: nat, k: int, e: Happening)
    requires 0 <= k < n <= |run|
    ensures At(c, run, k, e) <==> At(c, run[..n], k, e)
  {
    assert run[..n][..k] == run[..k] && run[..n][k] == run[k];
  }

  /** Whatever a goroutine is bound to has happened in the run, and what has happened binds it. */
  lemma {:induction false} BoundIffHappened(c: Config, run: seq<Label>, s: World, e: Happening)
    requires Exec(c, Init(c), run) == Some(s)
    ensures Bound(s, e) ==> Happened(c, run, e)
    ensures Happened(c, run, e) && !Passing(e) ==> Bound(s, e) || (Complaint(e) && s.shutdown)
    decreases |run|
  {
    if run == [] {
      assert s == Init(c);
    } else {
      var n := |run| - 1;
      var w := ExecLast(c, run, s);
      BoundIffHappened(c, run[..n], w, e);
      WorldTurnsAs(c, w, run[n], s, e);
      HappenedLater(c, run, w, e);
      StepKept(c, w, run[n], s);
    }
  }
}
