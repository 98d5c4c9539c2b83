/** One configure run of alpha as a transition system: every toolchain, service and provision is a
    goroutine with a program counter, a set of fired barriers per phase, and the stop flags. External
    work (install, checkout, build, probe, shell command, process exit) is a free choice of outcome. */
module BringupModel {
  import opened EntityLifecycles
  import opened Wrappers

  /** What carries barriers. A service's build and its runtime are separate phases. */
  datatype Phase = Toolchain(n: nat) | Build(n: nat) | Runtime(n: nat) | Provision(n: nat)

  /** A decoded barrier ref; the phase may name nothing that is configured. */
  datatype Ref = Ref(phase: Phase, state: State)

  /** `toolchain` is the pinned toolchain the service runs under, if any; `primary` the source
      checkout it shares with other services. */
  datatype SvcSpec = SvcSpec(toolchain: Option<nat>, primary: Option<nat>, after: seq<Ref>)

  /** `bins` and `envBins` are the pinned toolchains named by fs::service::bin and fs::toolchain::bin
      in the snippets and in the env. With a `template`, the snippets are the template's. */
  datatype ProvSpec = ProvSpec(
    toolchain: Option<nat>, after: seq<Ref>, latent: bool, detached: bool, template: Option<nat>,
    bins: seq<nat>, envBins: seq<nat>, hasCheck: bool, hasVerify: bool)

  datatype Config = Config(toolchains: nat, services: seq<SvcSpec>, provisions: seq<ProvSpec>, failfast: bool)

  predicate WellFormed(c: Config) {
    && (forall i :: 0 <= i < |c.services| && c.services[i].toolchain.Some? ==>
                      c.services[i].toolchain.value < c.toolchains)
    && (forall p :: 0 <= p < |c.provisions| ==>
                      && (c.provisions[p].toolchain.Some? ==> c.provisions[p].toolchain.value < c.toolchains)
                      && (forall j :: 0 <= j < |c.provisions[p].bins| ==> c.provisions[p].bins[j] < c.toolchains)
                      && (forall j :: 0 <= j < |c.provisions[p].envBins| ==> c.provisions[p].envBins[j] < c.toolchains))
  }

  /** The barriers of one phase: the lifecycle states fired, and the composed `done` barrier, which a
      goroutine of its own fires some time after an outcome. */
  datatype Track = Track(fired: set<State>, done: bool)

  /** What a goroutine on its way out still has to do before it closes its done channel. */
  datatype Act = ReachBuild(s: State) | ReachRun(s: State) | AskShutdown

  datatype SvcPc =
    // In waitAfter, at ref k of the toolchain (early) or of runtime.after; `held` once the ref is resolved
    // and the goroutine selects on its barriers.
    | Waiting(early: bool, k: nat, held: bool)
    | Locking | InWorkspace | Building | Gate | Starting | Probing | Up
    | Killing(wasReady: bool)
    | Unwinding(todo: seq<Act>)
    | Exited

  /** `prepared` and `spawned` remember that the checkout and build, and the process, were started. */
  datatype Svc = Svc(pc: SvcPc, build: Track, run: Track, stop: bool, removed: bool, prepared: bool, spawned: bool)

  datatype ProvPc =
    | Begin | FindTemplate | PWaiting(k: nat, held: bool) | Bins(k: nat) | OwnToolchain | EnvBins(k: nat) | CwdCheck
    | CheckCmd | RunCmd | VerifyCmd
    | PUnwinding(todo: seq<Act>)
    | PExited
    | Dormant // latent: registered, never run, its done channel closed from the start

  /** `ran` remembers that a shell was started. */
  datatype Prov = Prov(pc: ProvPc, run: Track, stop: bool, removed: bool, ran: bool)

  datatype TcPc = TcStart | TcInstall | TcEnd
  datatype Tc = Tc(pc: TcPc, run: Track)

  /** handleConfigure after it has spawned everything. */
  datatype HandlerPc =
    | AwaitSvc(n: nat) | CheckSvc(n: nat) | AwaitProv(n: nat) | CheckProv(n: nat)
    | Complain | Release | Announce | HandlerEnd

  datatype Event = ErrorEvent | DoneEvent

  /** shutdownAll: forget every entity, ask each to stop, wait for each done channel. */
  datatype SweeperPc = Idle | Stopping(n: nat) | Reaping(n: nat) | Swept

  datatype World = World(
    svcs: seq<Svc>, provs: seq<Prov>, tcs: seq<Tc>, shutdown: bool,
    handler: HandlerPc, events: seq<Event>, released: bool, sweeper: SweeperPc)

  function Init(c: Config): World {
    World(
      seq(|c.services|, i => Svc(Waiting(true, 0, false), Track({Scheduled}, false), Track({Scheduled}, false), false, false, false, false)),
      seq(|c.provisions|, p requires 0 <= p < |c.provisions| =>
        Prov(if c.provisions[p].latent then Dormant else Begin, Track({}, false), false, false, false)),
      seq(c.toolchains, k => Tc(TcStart, Track({}, false))),
      false, AwaitSvc(0), [], false, Idle)
  }

  function KindOf(p: Phase): Kind {
    match p
    case Toolchain(_) => ToolchainKind
    case Build(_) => BuildKind
    case Runtime(_) => ServiceKind
    case Provision(_) => ProvisionKind
  }

  function TrackOf(s: World, p: Phase): Option<Track> {
    match p
    case Toolchain(n) => if n < |s.tcs| then Some(s.tcs[n].run) else None
    case Build(n) => if n < |s.svcs| then Some(s.svcs[n].build) else None
    case Runtime(n) => if n < |s.svcs| then Some(s.svcs[n].run) else None
    case Provision(n) => if n < |s.provs| then Some(s.provs[n].run) else None
  }

  predicate HasFired(s: World, r: Ref) {
    && TrackOf(s, r.phase).Some?
    && if r.state == Done then TrackOf(s, r.phase).value.done else r.state in TrackOf(s, r.phase).value.fired
  }

  predicate Succeeded(s: World, p: Phase) {
    HasFired(s, Ref(p, Good(KindOf(p))))
  }

  predicate HasFailed(s: World, p: Phase) {
    HasFired(s, Ref(p, Bad(KindOf(p))))
  }

  predicate Settled(s: World, p: Phase) {
    Succeeded(s, p) || HasFailed(s, p)
  }

  /** The ref names a barrier. */
  predicate Names(s: World, r: Ref) {
    TrackOf(s, r.phase).Some? && (r.state == Done || r.state in States(KindOf(r.phase)))
  }

  /** Whether resolveBarrier finds the ref: it names a barrier and the entity is still registered. */
  predicate Resolves(s: World, r: Ref) {
    && Names(s, r)
    && match r.phase
       case Toolchain(_) => true
       case Build(n) => !s.svcs[n].removed
       case Runtime(n) => !s.svcs[n].removed
       case Provision(n) => !s.provs[n].removed
  }

  function Reach(k: Kind, t: Track, st: State): Track {
    t.(fired := t.fired + Down(k, st))
  }

  function AskIf(b: bool): seq<Act> {
    if b then [AskShutdown] else []
  }

  /** The refs waitAfter is called with, before the build and before the spawn. */
  function WaitRefs(sp: SvcSpec, early: bool): seq<Ref> {
    if early then (if sp.toolchain.Some? then [Ref(Toolchain(sp.toolchain.value), Ready)] else [])
    else sp.after
  }

  /** toolchainEnv and toolchainBinPaths block until this holds. */
  predicate ToolchainOpen(s: World, k: nat) {
    Settled(s, Toolchain(k)) || s.shutdown
  }

  predicate OwnOpen(s: World, tc: Option<nat>) {
    tc.Some? ==> ToolchainOpen(s, tc.value)
  }

  predicate OwnReady(s: World, tc: Option<nat>) {
    tc.Some? ==> Succeeded(s, Toolchain(tc.value))
  }

  /** A failed wait marks the runtime, and the build unless it has already succeeded. */
  function FailWait(v: Svc): seq<Act> {
    [ReachRun(Failed)] + if Success in v.build.fired then [] else [ReachBuild(Failure)]
  }

  predicate WorkspaceFree(c: Config, s: World, i: nat)
    requires |s.svcs| == |c.services| && i < |s.svcs|
  {
    forall j :: 0 <= j < |s.svcs| && j != i && c.services[j].primary == c.services[i].primary ==> !s.svcs[j].pc.InWorkspace?
  }

  /** `Go`: the ref resolves, the wait is over, or the external work succeeded. `Fail`: it failed, or the ref does not
      resolve. `Cut`: a dependency failed, or a stop came first. */
  datatype Choice = Go | Fail | Cut

  datatype Move<T> = Move(local: T, ask: bool)

  function SvcStep(c: Config, s: World, i: nat, ch: Choice): Option<Move<Svc>>
    requires |s.svcs| == |c.services| && i < |s.svcs|
  {
    var sp, v := c.services[i], s.svcs[i];
    match v.pc
    case Waiting(early, k, held) =>
      if k < |WaitRefs(sp, early)| then
        var r := WaitRefs(sp, early)[k];
        match ch {
          case Go =>
            if held then (if HasFired(s, r) then Some(Move(v.(pc := Waiting(early, k + 1, false)), false)) else None)
            else if Resolves(s, r) then Some(Move(v.(pc := Waiting(early, k, true)), false))
            else None
          case Cut =>
            if held && (HasFailed(s, r.phase) || v.stop || s.shutdown)
            then Some(Move(v.(pc := Unwinding(FailWait(v))), false)) else None
          case Fail =>
            if !held && !Resolves(s, r) then Some(Move(v.(pc := Unwinding(FailWait(v) + AskIf(c.failfast))), false)) else None
        }
      else if ch != Go then None
      else if early then
        Some(Move(v.(pc := if sp.primary.Some? then Locking else InWorkspace,
                     build := Reach(BuildKind, v.build, Running), prepared := true), false))
      else Some(Move(v.(pc := Starting), false))
    case Locking =>
      if ch == Go && WorkspaceFree(c, s, i) then Some(Move(v.(pc := InWorkspace), false)) else None
    case InWorkspace =>
      match ch {
        case Go => Some(Move(v.(pc := Building), false))
        case Fail => Some(Move(v.(pc := Unwinding(PrepareFail(c))), false))
        case Cut => None
      }
    case Building =>
      match ch {
        case Go =>
          if OwnReady(s, sp.toolchain)
          then Some(Move(v.(pc := Gate, build := Reach(BuildKind, v.build, Success)), false)) else None
        case Fail => if OwnOpen(s, sp.toolchain) then Some(Move(v.(pc := Unwinding(PrepareFail(c))), false)) else None
        case Cut => None
      }
    case Gate =>
      match ch {
        case Go => if !v.stop && !s.shutdown then Some(Move(v.(pc := Waiting(false, 0, false)), false)) else None
        case Cut => if v.stop || s.shutdown then Some(Move(v.(pc := Unwinding([ReachRun(Failed)])), false)) else None
        case Fail => None
      }
    case Starting =>
      match ch {
        case Go =>
          if OwnReady(s, sp.toolchain)
          then Some(Move(v.(pc := Probing, run := Reach(ServiceKind, v.run, Running), spawned := true), false)) else None
        case Fail => if OwnOpen(s, sp.toolchain) then Some(Move(v.(pc := Unwinding([ReachRun(Failed)])), false)) else None
        case Cut => None
      }
    case Probing =>
      match ch {
        case Go => Some(Move(v.(pc := Up, run := Reach(ServiceKind, v.run, Ready)), false))
        case Fail => Some(Move(v.(pc := Unwinding([ReachRun(Failed)] + AskIf(c.failfast))), false)) // it exited
        case Cut => Some(Move(v.(pc := Killing(false)), false)) // the probe failed
      }
    case Up =>
      match ch {
        case Go => None
        case Fail => Some(Move(v.(pc := Unwinding([ReachRun(Stopped)] + AskIf(c.failfast))), false)) // it exited
        case Cut => if v.stop || s.shutdown then Some(Move(v.(pc := Killing(true)), false)) else None
      }
    case Killing(wasReady) =>
      // After a failed probe failfast asks for shutdown, unless a stop is what cancelled the probe;
      // the cancellation is asynchronous, so a stop leaves both outcomes open.
      match ch {
        case Go =>
          if wasReady || !c.failfast || v.stop || s.shutdown
          then Some(Move(v.(pc := Unwinding([ReachRun(if wasReady then Stopped else Failed)])), false)) else None
        case Fail =>
          if !wasReady && c.failfast then Some(Move(v.(pc := Unwinding([ReachRun(Failed), AskShutdown])), false)) else None
        case Cut => None
      }
    case Unwinding(todo) =>
      if ch != Go then None
      else if todo == [] then Some(Move(v.(pc := Exited), false))
      else
        var w := v.(pc := Unwinding(todo[1..]));
        match todo[0] {
          case ReachBuild(st) => Some(Move(w.(build := Reach(BuildKind, v.build, st)), false))
          case ReachRun(st) => Some(Move(w.(run := Reach(ServiceKind, v.run, st)), false))
          case AskShutdown => Some(Move(w, true))
        }
    case Exited => None
  }

  function PrepareFail(c: Config): seq<Act> {
    [ReachBuild(Failure), ReachRun(Failed)] + AskIf(c.failfast)
  }

  function ProvFail(c: Config, sp: ProvSpec): seq<Act> {
    [ReachRun(Failure)] + AskIf(c.failfast && !sp.detached)
  }

  function ProvStep(c: Config, s: World, p: nat, ch: Choice): Option<Move<Prov>>
    requires |s.provs| == |c.provisions| && p < |s.provs|
  {
    var sp, v := c.provisions[p], s.provs[p];
    match v.pc
    case Begin =>
      if ch == Go then Some(Move(v.(pc := FindTemplate, run := Reach(ProvisionKind, v.run, Scheduled)), false)) else None
    case FindTemplate =>
      var known := sp.template.Some? ==> sp.template.value < |s.provs| && !s.provs[sp.template.value].removed;
      if known && ch == Go then Some(Move(v.(pc := PWaiting(0, false)), false))
      else if !known && ch == Fail then Some(Move(v.(pc := PUnwinding(ProvFail(c, sp))), false))
      else None
    case PWaiting(k, held) =>
      if k < |sp.after| then
        var r := sp.after[k];
        match ch {
          case Go =>
            if held then (if HasFired(s, r) then Some(Move(v.(pc := PWaiting(k + 1, false)), false)) else None)
            else if Resolves(s, r) then Some(Move(v.(pc := PWaiting(k, true)), false))
            else None
          case Cut =>
            if held && (HasFailed(s, r.phase) || v.stop || s.shutdown)
            then Some(Move(v.(pc := PUnwinding([ReachRun(Failure)])), false)) else None
          case Fail =>
            if !held && !Resolves(s, r) then Some(Move(v.(pc := PUnwinding([ReachRun(Failure)])), false)) else None
        }
      else if ch == Go then Some(Move(v.(pc := Bins(0), run := Reach(ProvisionKind, v.run, Running)), false)) else None
    case Bins(k) =>
      if ch != Go then None
      else if k < |sp.bins| then (if ToolchainOpen(s, sp.bins[k]) then Some(Move(v.(pc := Bins(k + 1)), false)) else None)
      else Some(Move(v.(pc := OwnToolchain), false))
    case OwnToolchain =>
      match ch {
        case Go => if OwnReady(s, sp.toolchain) then Some(Move(v.(pc := EnvBins(0)), false)) else None
        case Cut =>
          if sp.toolchain.Some? && (HasFailed(s, Toolchain(sp.toolchain.value)) || s.shutdown)
          then Some(Move(v.(pc := PUnwinding(ProvFail(c, sp))), false)) else None
        case Fail => None
      }
    case EnvBins(k) =>
      if ch != Go then None
      else if k < |sp.envBins| then (if ToolchainOpen(s, sp.envBins[k]) then Some(Move(v.(pc := EnvBins(k + 1)), false)) else None)
      else Some(Move(v.(pc := CwdCheck), false))
    case CwdCheck =>
      match ch {
        case Go => Some(Move(v.(pc := if sp.hasCheck then CheckCmd else RunCmd, ran := true), false))
        case Fail => Some(Move(v.(pc := PUnwinding(ProvFail(c, sp))), false))
        case Cut => None
      }
    case CheckCmd =>
      match ch {
        case Go => Some(Move(v.(pc := PUnwinding([ReachRun(Success)])), false))
        case Fail => Some(Move(v.(pc := RunCmd), false))
        case Cut => None
      }
    case RunCmd =>
      match ch {
        case Go => Some(Move(v.(pc := if sp.hasVerify then VerifyCmd else PUnwinding([ReachRun(Success)])), false))
        case Fail => Some(Move(v.(pc := PUnwinding(ProvFail(c, sp))), false))
        case Cut => None
      }
    case VerifyCmd => // best effort: either outcome is a success
      if ch == Go then Some(Move(v.(pc := PUnwinding([ReachRun(Success)])), false)) else None
    case PUnwinding(todo) =>
      if ch != Go then None
      else if todo == [] then Some(Move(v.(pc := PExited), false))
      else
        var w := v.(pc := PUnwinding(todo[1..]));
        match todo[0] {
          case ReachBuild(_) => Some(Move(w, false))
          case ReachRun(st) => Some(Move(w.(run := Reach(ProvisionKind, v.run, st)), false))
          case AskShutdown => Some(Move(w, true))
        }
    case PExited => None
    case Dormant => None
  }

  function TcStep(t: Tc, ch: Choice): Option<Tc> {
    match (t.pc, ch)
    case (TcStart, Go) => Some(Tc(TcInstall, Reach(ToolchainKind, t.run, EntityLifecycles.Installing)))
    case (TcInstall, Go) => Some(Tc(TcEnd, Reach(ToolchainKind, t.run, Ready)))
    case (TcInstall, Fail) => Some(Tc(TcEnd, Reach(ToolchainKind, t.run, Failed)))
    case _ => None
  }

  /** A detached provision does not hold the configure up, and a latent one is never started. */
  predicate Awaited(sp: ProvSpec) {
    !sp.detached && !sp.latent
  }

  function HandlerStep(c: Config, s: World, ch: Choice): Option<World>
    requires |s.svcs| == |c.services| && |s.provs| == |c.provisions|
  {
    match s.handler
    case AwaitSvc(n) =>
      if n < |s.svcs| then
        if ch == Go && s.svcs[n].run.done then Some(s.(handler := AwaitSvc(n + 1)))
        else if ch == Cut && s.shutdown then Some(s.(handler := HandlerEnd))
        else None
      else if ch == Go then Some(s.(handler := CheckSvc(0))) else None
    case CheckSvc(n) =>
      if ch != Go then None
      else if n < |s.svcs| then
        if c.failfast && Ready !in s.svcs[n].run.fired
        then Some(s.(handler := Complain, events := s.events + [ErrorEvent]))
        else Some(s.(handler := CheckSvc(n + 1)))
      else Some(s.(handler := AwaitProv(0)))
    case AwaitProv(n) =>
      if n < |s.provs| then
        if ch == Go && (!Awaited(c.provisions[n]) || s.provs[n].run.done) then Some(s.(handler := AwaitProv(n + 1)))
        else if ch == Cut && Awaited(c.provisions[n]) && s.shutdown then Some(s.(handler := HandlerEnd))
        else None
      else if ch == Go then Some(s.(handler := CheckProv(0))) else None
    case CheckProv(n) =>
      if ch != Go then None
      else if n < |s.provs| then
        if c.failfast && Awaited(c.provisions[n]) && Success !in s.provs[n].run.fired
        then Some(s.(handler := Complain, events := s.events + [ErrorEvent]))
        else Some(s.(handler := CheckProv(n + 1)))
      else Some(s.(handler := Release))
    case Complain => if ch == Go then Some(s.(handler := HandlerEnd, shutdown := true)) else None
    case Release => if ch == Go then Some(s.(handler := Announce, released := true)) else None
    case Announce => if ch == Go then Some(s.(handler := HandlerEnd, events := s.events + [DoneEvent])) else None
    case HandlerEnd => None
  }

  function SweeperStep(s: World): Option<World> {
    match s.sweeper
    case Idle =>
      if s.shutdown then
        Some(s.(sweeper := Stopping(0),
                svcs := seq(|s.svcs|, i requires 0 <= i < |s.svcs| => s.svcs[i].(removed := true)),
                provs := seq(|s.provs|, p requires 0 <= p < |s.provs| => s.provs[p].(removed := true))))
      else None
    case Stopping(n) =>
      if n < |s.svcs| then Some(s.(sweeper := Stopping(n + 1), svcs := s.svcs[n := s.svcs[n].(stop := true)]))
      else if n - |s.svcs| < |s.provs| then
        var p := n - |s.svcs|;
        Some(s.(sweeper := Stopping(n + 1), provs := s.provs[p := s.provs[p].(stop := true)]))
      else Some(s.(sweeper := Reaping(0)))
    case Reaping(n) =>
      if n < |s.svcs| then (if s.svcs[n].pc.Exited? then Some(s.(sweeper := Reaping(n + 1))) else None)
      else if n - |s.svcs| < |s.provs| then
        (if ProvClosed(s.provs[n - |s.svcs|]) then Some(s.(sweeper := Reaping(n + 1))) else None)
      else Some(s.(sweeper := Swept))
    case Swept => None
  }

  predicate ProvClosed(v: Prov) {
    v.pc.PExited? || v.pc.Dormant?
  }

  /** barrier.Any: fires `done` once one of the two outcomes has fired. */
  function AnyStep(s: World, p: Phase): Option<World> {
    if TrackOf(s, p).None? || TrackOf(s, p).value.done || !Settled(s, p) then None
    else match p
      case Toolchain(n) => Some(s.(tcs := s.tcs[n := s.tcs[n].(run := s.tcs[n].run.(done := true))]))
      case Build(n) => Some(s.(svcs := s.svcs[n := s.svcs[n].(build := s.svcs[n].build.(done := true))]))
      case Runtime(n) => Some(s.(svcs := s.svcs[n := s.svcs[n].(run := s.svcs[n].run.(done := true))]))
      case Provision(n) => Some(s.(provs := s.provs[n := s.provs[n].(run := s.provs[n].run.(done := true))]))
  }

  datatype Label =
    | SvcL(n: nat, ch: Choice) | ProvL(n: nat, ch: Choice) | TcL(n: nat, ch: Choice)
    | AnyL(phase: Phase) | HandlerL(ch: Choice) | SweeperL
    // The outside world: a signal or control op, and a reconfigure replacing one entity.
    | Interrupt | StopSvc(n: nat) | StopProv(n: nat) | RemoveSvc(n: nat) | RemoveProv(n: nat)

  predicate Sized(c: Config, s: World) {
    |s.svcs| == |c.services| && |s.provs| == |c.provisions| && |s.tcs| == c.toolchains
  }

  /** The world after the step `l`, if that step can be taken now. A flag that is already set is not
      set again, so no step leaves the world as it was. */
  function Next(c: Config, s: World, l: Label): Option<World> {
    if Sized(c, s) then Step(c, s, l) else None
  }

  function Step(c: Config, s: World, l: Label): Option<World>
    requires Sized(c, s)
  {
    match l
    case SvcL(i, ch) =>
      if i >= |s.svcs| then None
      else match SvcStep(c, s, i, ch) {
        case None => None
        case Some(m) => Some(s.(svcs := s.svcs[i := m.local], shutdown := s.shutdown || m.ask))
      }
    case ProvL(p, ch) =>
      if p >= |s.provs| then None
      else match ProvStep(c, s, p, ch) {
        case None => None
        case Some(m) => Some(s.(provs := s.provs[p := m.local], shutdown := s.shutdown || m.ask))
      }
    case TcL(k, ch) =>
      if k >= |s.tcs| then None
      else match TcStep(s.tcs[k], ch) {
        case None => None
        case Some(t) => Some(s.(tcs := s.tcs[k := t]))
      }
    case AnyL(p) => AnyStep(s, p)
    case HandlerL(ch) => HandlerStep(c, s, ch)
    case SweeperL => SweeperStep(s)
    case Interrupt => if s.shutdown then None else Some(s.(shutdown := true))
    case StopSvc(i) =>
      if i < |s.svcs| && !s.svcs[i].stop then Some(s.(svcs := s.svcs[i := s.svcs[i].(stop := true)])) else None
    case StopProv(p) =>
      if p < |s.provs| && !s.provs[p].stop then Some(s.(provs := s.provs[p := s.provs[p].(stop := true)])) else None
    case RemoveSvc(i) =>
      if i < |s.svcs| && !s.svcs[i].removed then Some(s.(svcs := s.svcs[i := s.svcs[i].(removed := true)])) else None
    case RemoveProv(p) =>
      if p < |s.provs| && !s.provs[p].removed then Some(s.(provs := s.provs[p := s.provs[p].(removed := true)])) else None
  }

  /** The world after a run, if every step of it can be taken. */
  function Exec(c: Config, s: World, run: seq<Label>): Option<World>
    decreases run
  {
    if run == [] then Some(s)
    else match Next(c, s, run[0]) {
      case None => None
      case Some(t) => Exec(c, t, run[1..])
    }
  }

  ghost predicate Reachable(c: Config, s: World) {
    exists run :: Exec(c, Init(c), run) == Some(s)
  }

  /** Steps alpha takes by itself: everything but the outside world's requests, and a ready process
      deciding to exit. */
  predicate OwnStep(s: World, l: Label) {
    match l
    case SvcL(i, ch) => !(i < |s.svcs| && s.svcs[i].pc.Up? && ch == Fail)
    case ProvL(_, _) => true
    case TcL(_, _) => true
    case AnyL(_) => true
    case HandlerL(_) => true
    case SweeperL => true
    case _ => false
  }

  /** Nothing alpha does by itself can happen any more. */
  ghost predicate Quiescent(c: Config, s: World) {
    forall l :: OwnStep(s, l) ==> Next(c, s, l).None?
  }
}
