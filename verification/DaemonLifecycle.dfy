// codex-rs/app-server-daemon/src/lib.rs: lifecycle commands racing for one operation lock.
// Every command is a program over the points between its awaits; any process may be killed between
// two steps, servers may die, and an unmanaged server may come and go.

module DaemonLifecycle {
  import opened Sequences

  function One(b: bool): nat {
    if b then 1 else 0
  }

  /** A build of the managed binary, as `executable_identity` tells builds apart, and the version it reports. */
  datatype Binary = Binary(content: nat, version: nat)

  /** A managed app server: the flag it was started with, the version it reports, and its place among all spawns. */
  datatype Server = Server(remoteControl: bool, version: nat, serial: nat)

  /**
   * The live update loops by their place among all spawns, with the build each runs. `file` is the one that
   * the loop's pid file names, `spawned` one that the lock holder has spawned and not recorded yet.
   */
  datatype Loops = Loops(live: map<nat, Binary>, file: Option<nat>, spawned: Option<nat>)

  /**
   * `settings` is the saved remote-control flag and `installed` the build at the managed path.
   * `recorded` is the live server the pid file names, `spawned` one that the lock holder has spawned
   * and not recorded yet, `orphans` those whose starter ended before recording them.
   * `serial` counts the processes spawned so far.
   */
  datatype World = World(
    settings: bool, recorded: Option<Server>, spawned: Option<Server>, orphans: seq<Server>, unmanaged: bool,
    installed: Binary, loops: Loops, serial: nat)

  /** One turn of update loop `loop`: `pin` is the build it resolved, `forced` stands for its two modes. */
  datatype Plan = Plan(loop: nat, forced: bool, pin: Binary)

  /** `RestartIfRunning` is what a turn of an update loop runs. */
  datatype Command =
    | Start
    | Restart
    | Stop
    | SetRemoteControl(target: bool)
    | Bootstrap(target: bool)
    | EnsureRemoteControl
    | RestartIfRunning(plan: Plan)

  /** What follows once the server is recorded. */
  datatype Next = Finish | RunStart | StartUpdater | AfterUpdate(plan: Plan)

  /** Program points. All but `Waiting` and `Ended` are reached with the operation lock held. */
  datatype Pc =
    | Waiting(command: Command)
    | Begin(command: Command)
    | StartProbe(flag: bool) | StartCheck(flag: bool) | StartBin(flag: bool)
    | RestartProbe(flag: bool) | RestartOwned(flag: bool) | RestartBin(flag: bool) | RestartCheck(flag: bool)
    | StopCheck | StopProbe | StopOnly
    | EnsureCheck
    | SetLoad(target: bool, thenStart: bool) | SetCheck(flag: bool, target: bool, thenStart: bool)
    | SetProbe(flag: bool, target: bool, thenStart: bool)
    | SetDecide(flag: bool, target: bool, running: bool, thenStart: bool)
    | SetBin(flag: bool, thenStart: bool)
    | BootBin(target: bool) | BootProbe(target: bool) | BootOwned(target: bool) | BootSave(target: bool)
    | BootCheck(flag: bool) | StopLoop | StartLoop | PublishLoop
    | UpdateCheck(flag: bool, plan: Plan) | UpdateProbe(flag: bool, plan: Plan) | UpdateUnmanaged(plan: Plan)
    | StopThenStart(flag: bool, next: Next)
    | StartServer(flag: bool, next: Next)
    | Publish(next: Next)
    | AwaitReady(next: Next)
    | Ended(ok: bool)

  /**
   * What the environment decides at a step: whether it succeeds, whether a server of ours answers a
   * probe, and the version told by an answer that need not come from the recorded server.
   */
  datatype Choice = Choice(ok: bool, ready: bool, told: nat)

  datatype Decision = NotReady | AlreadyCurrent | DoRestart

  /** `restart_decision`, where `current` says the probed version is that of the resolved binary. */
  function RestartDecision(forced: bool, answered: bool, current: bool): Decision {
    if !forced && !answered then NotReady else if !forced && current then AlreadyCurrent else DoRestart
  }

  /** `is_starting_or_running`: the pid file names a live process. */
  predicate Running(w: World) {
    w.recorded.Some?
  }

  /** `client::probe` succeeds: an unmanaged server always answers, one of ours once it is ready. */
  predicate Answers(w: World, c: Choice) {
    w.unmanaged || ((Running(w) || w.orphans != []) && c.ready)
  }

  function ProbedVersion(w: World, c: Choice): nat {
    if w.unmanaged || w.orphans != [] || w.recorded.None? then c.told else w.recorded.value.version
  }

  /** The loop goes on as the build its turn resolved. */
  function Reexeced(w: World, plan: Plan): World {
    w.(loops := w.loops.(live := w.loops.live[plan.loop := plan.pin]))
  }

  function Continue(w: World, next: Next): (World, Pc) {
    match next
    case RunStart => (w, Begin(Start))
    case AfterUpdate(plan) => (if plan.forced then Reexeced(w, plan) else w, Ended(true))
    case _ => (w, Ended(true))
  }

  /** What follows a remote-control change: `ensure_remote_control_started` runs `start` after it. */
  function Then(thenStart: bool): Next {
    if thenStart then RunStart else Finish
  }

  /** Where a command goes on from, once it has loaded the settings. */
  function Loaded(w: World, command: Command): Pc
    requires !command.SetRemoteControl? && !command.Bootstrap?
  {
    match command
    case Start => StartProbe(w.settings)
    case Restart => RestartProbe(w.settings)
    case Stop => StopCheck
    case EnsureRemoteControl => EnsureCheck
    case RestartIfRunning(plan) => UpdateCheck(w.settings, plan)
  }

  predicate InStart(pc: Pc) {
    pc.StartProbe? || pc.StartCheck? || pc.StartBin?
  }

  /** `start`, after loading the settings. */
  function AdvanceStart(w: World, pc: Pc, c: Choice): Pc
    requires InStart(pc)
  {
    match pc
    case StartProbe(flag) => if Answers(w, c) then Ended(c.ok) else StartCheck(flag)
    case StartCheck(flag) => if !c.ok then Ended(false) else if Running(w) then AwaitReady(Finish) else StartBin(flag)
    case StartBin(flag) => if c.ok then StartServer(flag, Finish) else Ended(false)
  }

  predicate InRestart(pc: Pc) {
    pc.RestartProbe? || pc.RestartOwned? || pc.RestartBin? || pc.RestartCheck?
  }

  /** `restart`, after loading the settings. */
  function AdvanceRestart(w: World, pc: Pc, c: Choice): Pc
    requires InRestart(pc)
  {
    match pc
    case RestartProbe(flag) => if Answers(w, c) then RestartOwned(flag) else RestartBin(flag)
    case RestartOwned(flag) => if c.ok && Running(w) then RestartBin(flag) else Ended(false)
    case RestartBin(flag) => if c.ok then RestartCheck(flag) else Ended(false)
    case RestartCheck(flag) =>
      if !c.ok then Ended(false) else if Running(w) then StopThenStart(flag, Finish) else StartServer(flag, Finish)
  }

  predicate InStop(pc: Pc) {
    pc.StopCheck? || pc.StopProbe? || pc.StopOnly?
  }

  /** `stop`, after loading the settings. */
  function AdvanceStop(w: World, pc: Pc, c: Choice): (World, Pc)
    requires InStop(pc)
  {
    match pc
    case StopCheck => (w, if !c.ok then Ended(false) else if Running(w) then StopOnly else StopProbe)
    case StopProbe => (w, Ended(!Answers(w, c)))
    case StopOnly => (if c.ok then w.(recorded := None) else w, Ended(c.ok))
  }

  predicate InSet(pc: Pc) {
    pc.SetLoad? || pc.SetCheck? || pc.SetProbe? || pc.SetDecide? || pc.SetBin?
  }

  /** `set_remote_control_locked`. */
  function AdvanceSet(w: World, pc: Pc, c: Choice): (World, Pc)
    requires InSet(pc)
  {
    match pc
    case SetLoad(target, k) => (w, if c.ok then SetCheck(w.settings, target, k) else Ended(false))
    case SetCheck(flag, target, k) =>
      (w, if !c.ok then Ended(false)
          else if Running(w) then SetDecide(flag, target, true, k) else SetProbe(flag, target, k))
    case SetProbe(flag, target, k) => (w, if Answers(w, c) then Ended(false) else SetDecide(flag, target, false, k))
    case SetDecide(flag, target, running, k) =>
      if flag == target then if running then (w, AwaitReady(Then(k))) else Continue(w, Then(k))
      else if !c.ok then (w, Ended(false))
      else if running then (w.(settings := target), SetBin(target, k))
      else Continue(w.(settings := target), Then(k))
    case SetBin(flag, k) => (w, if c.ok then StopThenStart(flag, Then(k)) else Ended(false))
  }

  predicate InBoot(pc: Pc) {
    || pc.BootBin? || pc.BootProbe? || pc.BootOwned? || pc.BootSave? || pc.BootCheck?
    || pc.StopLoop? || pc.StartLoop? || pc.PublishLoop?
  }

  function WithoutLoop(ls: Loops, l: nat): Loops {
    var file := if ls.file == Some(l) then None else ls.file;
    Loops(ls.live - {l}, file, if ls.spawned == Some(l) then None else ls.spawned)
  }

  /** The loop that the pid file names is stopped, if there is one. */
  function Stopped(ls: Loops): Loops {
    if ls.file.Some? then WithoutLoop(ls, ls.file.value) else ls
  }

  function LoopSpawned(w: World): World {
    var live := w.loops.live[w.serial := w.installed];
    w.(loops := w.loops.(live := live, spawned := Some(w.serial)), serial := w.serial + 1)
  }

  /** The starter ended before the loop's pid file was written: the loop runs on, and nobody knows it. */
  function LoopAbandoned(w: World): World {
    w.(loops := w.loops.(spawned := None))
  }

  /** `bootstrap_locked`. */
  function AdvanceBoot(w: World, pc: Pc, c: Choice): (World, Pc)
    requires InBoot(pc)
  {
    match pc
    case BootBin(target) => (w, if c.ok then BootProbe(target) else Ended(false))
    case BootProbe(target) => (w, if Answers(w, c) then BootOwned(target) else BootSave(target))
    case BootOwned(target) => (w, if c.ok && Running(w) then BootSave(target) else Ended(false))
    case BootSave(target) => if c.ok then (w.(settings := target), BootCheck(target)) else (w, Ended(false))
    case BootCheck(flag) =>
      (w, if !c.ok then Ended(false)
          else if Running(w) then StopThenStart(flag, StartUpdater) else StartServer(flag, StartUpdater))
    case StopLoop => if c.ok then (w.(loops := Stopped(w.loops)), StartLoop) else (w, Ended(false))
    case StartLoop =>
      if !c.ok then (w, Ended(false))
      else if w.loops.file.Some? then (w, AwaitReady(Finish))
      else (LoopSpawned(w), PublishLoop)
    case PublishLoop =>
      if c.ok then (w.(loops := w.loops.(file := w.loops.spawned, spawned := None)), AwaitReady(Finish))
      else (LoopAbandoned(w), Ended(false))
  }

  predicate InUpdate(pc: Pc) {
    pc.UpdateCheck? || pc.UpdateProbe? || pc.UpdateUnmanaged?
  }

  /** `try_restart_if_running`, after loading the settings. */
  function AdvanceUpdate(w: World, pc: Pc, c: Choice): Pc
    requires InUpdate(pc)
  {
    match pc
    case UpdateCheck(flag, plan) =>
      if !c.ok then Ended(false) else if Running(w) then UpdateProbe(flag, plan) else UpdateUnmanaged(plan)
    case UpdateProbe(flag, plan) =>
      var answered := Answers(w, c);
      var current := answered && ProbedVersion(w, c) == plan.pin.version;
      if answered && !c.ok then Ended(false)
      else if RestartDecision(plan.forced, answered, current).DoRestart? then StopThenStart(flag, AfterUpdate(plan))
      else Ended(true)
    case UpdateUnmanaged(_) => Ended(!Answers(w, c))
  }

  predicate InBackend(pc: Pc) {
    pc.StopThenStart? || pc.StartServer? || pc.Publish? || pc.AwaitReady?
  }

  /** The build a start runs: an update turn its own, every other command the one at the managed path. */
  function BinaryFor(w: World, next: Next): Binary {
    if next.AfterUpdate? then next.plan.pin else w.installed
  }

  function Spawned(w: World, flag: bool, build: Binary): World {
    w.(spawned := Some(Server(flag, build.version, w.serial)), serial := w.serial + 1)
  }

  function Started(next: Next): Pc {
    if next.StartUpdater? then StopLoop else AwaitReady(next)
  }

  /** The starter ended before the pid file was written: nobody knows the server any more. */
  function Abandoned(w: World): World {
    w.(spawned := None, orphans := w.orphans + if w.spawned.Some? then [w.spawned.value] else [])
  }

  /**
   * `PidBackend::stop`, `PidBackend::start` and `wait_until_ready`. A start spawns a detached process
   * and records it afterwards; if that fails it only sends a signal, so the process may live on.
   */
  function AdvanceBackend(w: World, pc: Pc, c: Choice): (World, Pc)
    requires InBackend(pc)
  {
    if !c.ok then (if pc.Publish? then Abandoned(w) else w, Ended(false))
    else match pc
      case StopThenStart(flag, next) => (w.(recorded := None), StartServer(flag, next))
      case StartServer(flag, next) =>
        if Running(w) then (w, Started(next))
        else (Spawned(w, flag, BinaryFor(w, next)), Publish(next))
      case Publish(next) => (w.(recorded := w.spawned, spawned := None), Started(next))
      case AwaitReady(next) => Continue(w, next)
  }

  /** One step of a process that holds the lock. */
  function Advance(w: World, pc: Pc, c: Choice): (World, Pc) {
    if InBackend(pc) then AdvanceBackend(w, pc, c)
    else if InStart(pc) then (w, AdvanceStart(w, pc, c))
    else if InRestart(pc) then (w, AdvanceRestart(w, pc, c))
    else if InStop(pc) then AdvanceStop(w, pc, c)
    else if InSet(pc) then AdvanceSet(w, pc, c)
    else if InBoot(pc) then AdvanceBoot(w, pc, c)
    else if InUpdate(pc) then (w, AdvanceUpdate(w, pc, c))
    else if pc.EnsureCheck? then
      (w, if !c.ok then Ended(false) else if w.loops.file.Some? then SetLoad(true, true) else BootBin(true))
    else if pc.Begin? then
      (w, if pc.command.SetRemoteControl? then SetLoad(pc.command.target, false)
          else if pc.command.Bootstrap? then BootBin(pc.command.target)
          else if c.ok then Loaded(w, pc.command) else Ended(false))
    else (w, pc)
  }

  // ---- The system ----

  predicate Critical(pc: Pc) {
    !pc.Waiting? && !pc.Ended?
  }

  /** The turn of an update loop that the process is in, possibly retrying because the lock is busy. */
  function PlanOf(pc: Pc): Option<Plan> {
    if (pc.Waiting? || pc.Begin?) && pc.command.RestartIfRunning? then Some(pc.command.plan)
    else if InUpdate(pc) then Some(pc.plan)
    else if InBackend(pc) && pc.next.AfterUpdate? then Some(pc.next.plan)
    else None
  }

  predicate TurnOf(pc: Pc, l: nat) {
    PlanOf(pc).Some? && PlanOf(pc).value.loop == l
  }

  datatype System = System(world: World, lock: Option<nat>, procs: map<nat, Pc>)

  datatype Victim = TheRecorded | TheSpawned | AnOrphan(i: nat)

  datatype Action =
    | Launch(p: nat, command: Command)
    | LaunchUpdate(p: nat, loop: nat)
    | TryLock(p: nat)
    | GiveUp(p: nat)
    | Run(p: nat, choice: Choice)
    | Crash(p: nat)
    | Dies(victim: Victim)
    | UnmanagedChanges(up: bool)
    | BinaryInstalled(binary: Binary)
    | LoopEnds(loop: nat)

  predicate TurnInProgress(s: System, l: nat) {
    exists p :: p in s.procs && TurnOf(s.procs[p], l)
  }

  /** `update_modes_for_identities` on the resolved binary: both modes are set exactly when the builds differ. */
  function NewPlan(s: System, l: nat): Plan
    requires l in s.world.loops.live
  {
    Plan(l, s.world.loops.live[l] != s.world.installed, s.world.installed)
  }

  /** Without its loop a turn is over, too. */
  function WithoutTurns(procs: map<nat, Pc>, l: nat): map<nat, Pc> {
    map p | p in procs :: if TurnOf(procs[p], l) then Ended(false) else procs[p]
  }

  /** Moves process `p` on; the lock file closes when it ends. */
  function Moved(s: System, w: World, p: nat, pc: Pc): System {
    System(w, if s.lock == Some(p) && !Critical(pc) then None else s.lock, s.procs[p := pc])
  }

  function Ran(s: System, p: nat, c: Choice): System
    requires p in s.procs
  {
    var (w, pc) := Advance(s.world, s.procs[p], c);
    var t := Moved(s, w, p, pc);
    if s.procs[p].StopLoop? && c.ok && s.world.loops.file.Some?
    then t.(procs := WithoutTurns(t.procs, s.world.loops.file.value)) else t
  }

  /** A killed process: what it was spawning is abandoned, and an update turn takes its loop with it. */
  function Killed(w: World, pc: Pc): World {
    if pc.PublishLoop? then LoopAbandoned(w)
    else
      var w' := if pc.Publish? then Abandoned(w) else w;
      if PlanOf(pc).Some? then w'.(loops := WithoutLoop(w.loops, PlanOf(pc).value.loop)) else w'
  }

  function Bereft(w: World, v: Victim): World {
    match v
    case TheRecorded => w.(recorded := None)
    case TheSpawned => w.(spawned := None)
    case AnOrphan(i) => if i < |w.orphans| then w.(orphans := w.orphans[..i] + w.orphans[i + 1..]) else w
  }

  function HolderPc(s: System): Pc {
    if s.lock.Some? && s.lock.value in s.procs then s.procs[s.lock.value] else Ended(true)
  }

  function Do(s: System, a: Action): System {
    match a
    case Launch(p, command) =>
      if p in s.procs || command.RestartIfRunning? then s else s.(procs := s.procs[p := Waiting(command)])
    case LaunchUpdate(p, l) =>
      if p in s.procs || l !in s.world.loops.live || TurnInProgress(s, l) then s
      else s.(procs := s.procs[p := Waiting(RestartIfRunning(NewPlan(s, l)))])
    case TryLock(p) =>
      if p in s.procs && s.procs[p].Waiting? && s.lock.None?
      then s.(lock := Some(p), procs := s.procs[p := Begin(s.procs[p].command)]) else s
    case GiveUp(p) =>
      if p in s.procs && s.procs[p].Waiting? then s.(procs := s.procs[p := Ended(false)]) else s
    case Run(p, c) => if p in s.procs && Critical(s.procs[p]) then Ran(s, p, c) else s
    case Crash(p) =>
      if p in s.procs && !s.procs[p].Ended? then Moved(s, Killed(s.world, s.procs[p]), p, Ended(false)) else s
    case Dies(v) => s.(world := Bereft(s.world, v))
    case UnmanagedChanges(up) => s.(world := s.world.(unmanaged := up))
    case BinaryInstalled(b) => s.(world := s.world.(installed := b))
    case LoopEnds(l) =>
      if TurnOf(HolderPc(s), l) then s
      else s.(world := s.world.(loops := WithoutLoop(s.world.loops, l)), procs := WithoutTurns(s.procs, l))
  }

  function After(s: System, actions: seq<Action>): System {
    if actions == [] then s else Do(After(s, Init(actions)), Last(actions))
  }

  // ---- Mutual exclusion, and what a program point knows ----

  /** The lock is held by exactly the process in its critical section. */
  ghost predicate Exclusive(s: System) {
    && (forall p :: p in s.procs && Critical(s.procs[p]) ==> s.lock == Some(p))
    && (s.lock.Some? ==> s.lock.value in s.procs && Critical(s.procs[s.lock.value]))
  }

  predicate CarriesFlag(pc: Pc) {
    || InStart(pc) || InRestart(pc) || pc.SetCheck? || pc.SetProbe? || pc.SetDecide? || pc.SetBin? || pc.BootCheck?
    || pc.UpdateCheck? || pc.UpdateProbe? || pc.StopThenStart? || pc.StartServer?
  }

  /** Points reached only after the pid file was seen to name no live process. */
  predicate SawNone(pc: Pc) {
    || pc.StartServer? || pc.Publish? || pc.StartBin? || pc.StopProbe? || pc.SetProbe?
    || (pc.SetDecide? && !pc.running) || pc.UpdateUnmanaged?
  }

  /** What a program point knows about the world: the saved flag, and which servers there are. */
  predicate Knows(w: World, pc: Pc) {
    && (CarriesFlag(pc) ==> pc.flag == w.settings)
    && (SawNone(pc) ==> !Running(w))
    && (w.spawned.Some? ==> pc.Publish? && w.spawned.value.remoteControl == w.settings)
    && (pc.StartLoop? || pc.PublishLoop? ==> w.loops.file.None?)
    && (w.loops.spawned.Some? ==> pc.PublishLoop?)
  }

  ghost predicate Safe(s: System) {
    && Exclusive(s)
    && (forall p :: p in s.procs && Critical(s.procs[p]) ==> Knows(s.world, s.procs[p]))
    && (s.lock.None? ==> s.world.spawned.None? && s.world.loops.spawned.None?)
  }

  lemma StartKnows(w: World, pc: Pc, c: Choice)
    requires InStart(pc) && Knows(w, pc)
    ensures Knows(w, AdvanceStart(w, pc, c))
  {
  }

  lemma RestartKnows(w: World, pc: Pc, c: Choice)
    requires InRestart(pc) && Knows(w, pc)
    ensures Knows(w, AdvanceRestart(w, pc, c))
  {
  }

  lemma StopKnows(w: World, pc: Pc, c: Choice)
    requires InStop(pc) && Knows(w, pc)
    ensures var (w', pc') := AdvanceStop(w, pc, c); Knows(w', pc')
  {
  }

  lemma SetKnows(w: World, pc: Pc, c: Choice)
    requires InSet(pc) && Knows(w, pc)
    ensures var (w', pc') := AdvanceSet(w, pc, c); Knows(w', pc')
  {
  }

  lemma LoopKnows(w: World, pc: Pc, c: Choice)
    requires (pc.StopLoop? || pc.StartLoop? || pc.PublishLoop?) && Knows(w, pc)
    ensures var (w', pc') := AdvanceBoot(w, pc, c); Knows(w', pc')
  {
  }

  lemma BootKnows(w: World, pc: Pc, c: Choice)
    requires InBoot(pc) && Knows(w, pc)
    ensures var (w', pc') := AdvanceBoot(w, pc, c); Knows(w', pc')
  {
    if pc.StopLoop? || pc.StartLoop? || pc.PublishLoop? { LoopKnows(w, pc, c); }
  }

  lemma UpdateKnows(w: World, pc: Pc, c: Choice)
    requires InUpdate(pc) && Knows(w, pc)
    ensures Knows(w, AdvanceUpdate(w, pc, c))
  {
  }

  lemma BackendKnows(w: World, pc: Pc, c: Choice)
    requires InBackend(pc) && Knows(w, pc)
    ensures var (w', pc') := AdvanceBackend(w, pc, c); Knows(w', pc')
  {
  }

  lemma AdvanceKnows(w: World, pc: Pc, c: Choice)
    requires Critical(pc) && Knows(w, pc)
    ensures var (w', pc') := Advance(w, pc, c); Knows(w', pc')
  {
    if InBackend(pc) {
      BackendKnows(w, pc, c);
    } else if InStart(pc) {
      StartKnows(w, pc, c);
    } else if InRestart(pc) {
      RestartKnows(w, pc, c);
    } else if InStop(pc) {
      StopKnows(w, pc, c);
    } else if InSet(pc) {
      SetKnows(w, pc, c);
    } else if InBoot(pc) {
      BootKnows(w, pc, c);
    } else if InUpdate(pc) {
      UpdateKnows(w, pc, c);
    }
  }

  lemma SafeRun(s: System, p: nat, c: Choice)
    requires Safe(s) && p in s.procs && Critical(s.procs[p])
    ensures Safe(Ran(s, p, c))
  {
    AdvanceKnows(s.world, s.procs[p], c);
  }

  lemma SafeCrash(s: System, p: nat)
    requires Safe(s) && p in s.procs && !s.procs[p].Ended?
    ensures Safe(Do(s, Crash(p)))
  {
  }

  lemma SafeLoopEnds(s: System, l: nat)
    requires Safe(s) && !TurnOf(HolderPc(s), l)
    ensures Safe(Do(s, LoopEnds(l)))
  {
  }

  lemma SafeStep(s: System, a: Action)
    requires Safe(s)
    ensures Safe(Do(s, a))
  {
    match a {
      case Run(p, c) => if p in s.procs && Critical(s.procs[p]) { SafeRun(s, p, c); }
      case Crash(p) => if p in s.procs && !s.procs[p].Ended? { SafeCrash(s, p); }
      case LoopEnds(l) => if !TurnOf(HolderPc(s), l) { SafeLoopEnds(s, l); }
      case _ =>
    }
  }

  /**
   * In every interleaving the lock is exclusive, and whoever holds it knows the saved flag and, at the
   * points that need it, that the pid file names no live server.
   */
  lemma {:induction false} AlwaysSafe(s: System, actions: seq<Action>)
    requires Safe(s)
    ensures Safe(After(s, actions))
  {
    if actions != [] {
      AlwaysSafe(s, Init(actions));
      SafeStep(After(s, Init(actions)), Last(actions));
    }
  }

  // ---- Composing runs ----

  /** Everything succeeds and every probe is answered. */
  const FINE := Choice(true, true, 0)

  /** Everything succeeds, but no server of ours answers a probe. */
  const QUIET := Choice(true, false, 0)

  /** No process is killed and no step fails. */
  predicate Gentle(actions: seq<Action>) {
    forall a :: a in actions ==>
      || a.Launch? || a.LaunchUpdate? || a.TryLock? || a.GiveUp? || a.Dies? || a == UnmanagedChanges(false)
      || (a.Run? && a.choice.ok)
  }

  lemma AfterSnoc(s: System, actions: seq<Action>, a: Action)
    ensures After(s, actions + [a]) == Do(After(s, actions), a)
  {
    assert Init(actions + [a]) == actions;
  }

  lemma AfterNone(s: System, actions: seq<Action>)
    ensures After(s, actions[..0]) == s
  {
    assert actions[..0] == [];
  }

  lemma AfterPrefix(s: System, actions: seq<Action>, i: nat)
    requires i < |actions|
    ensures After(s, actions[..i + 1]) == Do(After(s, actions[..i]), actions[i])
  {
    assert actions[..i + 1] == actions[..i] + [actions[i]];
    AfterSnoc(s, actions[..i], actions[i]);
  }

  lemma {:induction false} AfterConcat(s: System, xs: seq<Action>, ys: seq<Action>)
    ensures After(s, xs + ys) == After(After(s, xs), ys)
  {
    if ys == [] {
      assert xs + ys == xs;
    } else {
      AfterConcat(s, xs, Init(ys));
      assert xs + ys == (xs + Init(ys)) + [Last(ys)];
      AfterSnoc(s, xs + Init(ys), Last(ys));
    }
  }

  lemma AfterOne(s: System, a: Action)
    ensures After(s, [a]) == Do(s, a)
  {
    AfterSnoc(s, [], a);
    assert [] + [a] == [a];
  }

  /** Process `p` holds the lock at `pc`, or has just ended there. */
  function At(s: System, w: World, p: nat, pc: Pc): System {
    System(w, if Critical(pc) then Some(p) else None, s.procs[p := pc])
  }

  lemma TakesLock(s: System, p: nat)
    requires s.lock.None? && p in s.procs && s.procs[p].Waiting?
    ensures After(s, [TryLock(p)]) == At(s, s.world, p, Begin(s.procs[p].command))
  {
    AfterOne(s, TryLock(p));
  }

  /** A new process runs `command` as far as taking the lock. */
  lemma Locked(s: System, p: nat, command: Command)
    requires s.lock.None? && p !in s.procs && !command.RestartIfRunning?
    ensures After(s, [Launch(p, command)] + [TryLock(p)]) == At(s, s.world, p, Begin(command))
  {
    AfterOne(s, Launch(p, command));
    TakesLock(Do(s, Launch(p, command)), p);
    AfterConcat(s, [Launch(p, command)], [TryLock(p)]);
  }

  /** One step of the process that holds the lock. */
  lemma Steps(s: System, p: nat, w: World, pc: Pc, c: Choice, w': World, pc': Pc)
    requires Critical(pc) && (pc.StopLoop? ==> w.loops.file.None?) && Advance(w, pc, c) == (w', pc')
    ensures Do(At(s, w, p, pc), Run(p, c)) == At(s, w', p, pc')
  {
  }

  /** A stretch of one process with the lock is told by its trail: the world and its program point after each step. */
  type Trail = seq<(World, Pc)>

  predicate Link(t: Trail, c: Choice, i: nat)
    requires i + 1 < |t|
  {
    && Critical(t[i].1) && (t[i].1.StopLoop? ==> t[i].0.loops.file.None?)
    && Advance(t[i].0, t[i].1, c) == t[i + 1]
  }

  /** Each step follows from the one before, always with the same choice. */
  ghost predicate Linked(t: Trail, c: Choice) {
    forall i :: 0 <= i < |t| - 1 ==> Link(t, c, i)
  }

  /** `n` steps of process `p` with the same choice. */
  function Runs(p: nat, c: Choice, n: nat): seq<Action> {
    if n == 0 then [] else Runs(p, c, n - 1) + [Run(p, c)]
  }

  lemma {:induction false} RunsGentle(p: nat, c: Choice, n: nat)
    requires c.ok
    ensures Gentle(Runs(p, c, n))
  {
    if n > 0 { RunsGentle(p, c, n - 1); }
  }

  /** From `start`, `n` steps of process `p` lead to where the trail says. */
  ghost predicate Follows(s: System, p: nat, t: Trail, c: Choice, n: nat, start: System) {
    n < |t| && After(start, Runs(p, c, n)) == At(s, t[n].0, p, t[n].1)
  }

  lemma FollowStep(s: System, p: nat, t: Trail, c: Choice, n: nat, start: System)
    requires n + 1 < |t| && Linked(t, c) && Follows(s, p, t, c, n, start)
    ensures Follows(s, p, t, c, n + 1, start)
  {
    assert Link(t, c, n);
    Steps(s, p, t[n].0, t[n].1, c, t[n + 1].0, t[n + 1].1);
    AfterSnoc(start, Runs(p, c, n), Run(p, c));
  }

  lemma {:induction false} Induct(f: nat -> bool, n: nat)
    requires f(0) && forall i :: 0 <= i < n && f(i) ==> f(i + 1)
    ensures f(n)
  {
    if n > 0 { Induct(f, n - 1); }
  }

  lemma Follow(s: System, p: nat, t: Trail, c: Choice, n: nat)
    requires Linked(t, c) && n < |t|
    ensures After(At(s, t[0].0, p, t[0].1), Runs(p, c, n)) == At(s, t[n].0, p, t[n].1)
  {
    var start := At(s, t[0].0, p, t[0].1);
    assert Runs(p, c, 0) == [];
    forall i | 0 <= i < n && Follows(s, p, t, c, i, start) ensures Follows(s, p, t, c, i + 1, start) {
      FollowStep(s, p, t, c, i, start);
    }
    Induct((i: nat) => Follows(s, p, t, c, i, start), n);
  }
}
