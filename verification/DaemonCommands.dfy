// codex-rs/app-server-daemon/src/lib.rs: the methods of `Daemon`, run with the operation lock held.
// Before each step servers and update loops may have died, an unmanaged server may have come or gone, and a new
// build may have been installed; each step is a step of DaemonLifecycle.

module DaemonCommands {
  import opened Sequences
  import opened DaemonLifecycle
  import opened DaemonServers
  import opened DaemonUpdater
  import opened DaemonLoops

  // ---- Old and new servers ----

  /** The server, if there is one, was spawned before the counter got where it is. */
  predicate SpawnedBefore(server: Option<Server>, serial: nat) {
    server.Some? ==> server.value.serial < serial
  }

  predicate Aged(w: World) {
    SpawnedBefore(w.recorded, w.serial) && SpawnedBefore(w.spawned, w.serial)
  }

  lemma AgedHandled(w: World, pc: Pc, c: Choice)
    requires Handles(pc) && Aged(w)
    ensures Aged(Advance(w, pc, c).0)
  {
  }

  lemma AgedRun(w: World, pc: Pc, c: Choice)
    requires Aged(w)
    ensures Aged(Advance(w, pc, c).0)
  {
    if Handles(pc) {
      AgedHandled(w, pc, c);
    } else {
      OthersKeepServers(w, pc, c);
      LoopStep(w, pc, c);
    }
  }

  lemma AgedStep(s: System, a: Action)
    requires Aged(s.world)
    ensures Aged(Do(s, a).world) && s.world.serial <= Do(s, a).world.serial
  {
    if a.Run? && a.p in s.procs && Critical(s.procs[a.p]) {
      AgedRun(s.world, s.procs[a.p], a.choice);
      LoopStep(s.world, s.procs[a.p], a.choice);
      assert Ran(s, a.p, a.choice).world == Advance(s.world, s.procs[a.p], a.choice).0;
    }
  }

  /** In every interleaving: a server whose serial is at least the counter of some moment was spawned after it. */
  lemma {:induction false} AlwaysAged(s: System, actions: seq<Action>)
    requires Aged(s.world)
    ensures Aged(After(s, actions).world) && s.world.serial <= After(s, actions).world.serial
  {
    if actions != [] {
      AlwaysAged(s, Init(actions));
      AgedStep(After(s, Init(actions)), Last(actions));
    }
  }

  // ---- Steps ----

  /** `RestartIfRunningOutcome`, once the lock was not busy; `Failed` is any error. */
  datatype Outcome = NotReady | AlreadyCurrent | NotRunning | Restarted | Failed

  /** Points whose step can change the world. */
  predicate Writes(pc: Pc) {
    || pc.SetDecide? || pc.BootSave? || pc.StopOnly? || pc.StopThenStart? || pc.StartServer? || pc.Publish?
    || pc.StopLoop? || pc.StartLoop? || pc.PublishLoop? || pc.AwaitReady?
  }

  lemma OnlyLooks(w: World, pc: Pc, c: Choice)
    requires !Writes(pc)
    ensures Advance(w, pc, c).0 == w
  {
  }

  function SaveNext(pc: Pc, target: bool, ok: bool): Pc {
    if !ok then Ended(false)
    else if !pc.SetDecide? then BootCheck(target)
    else if pc.running then SetBin(target, pc.thenStart)
    else if pc.thenStart then Begin(Command.Start) else Ended(true)
  }

  lemma SaveAdvances(w: World, pc: Pc, target: bool, ok: bool)
    requires pc == BootSave(target) || (pc.SetDecide? && pc.target == target && pc.flag != target)
    ensures Advance(w, pc, Choice(ok, false, 0)) ==
            (if ok then w.(settings := target) else w, SaveNext(pc, target, ok))
  {
  }

  lemma StopAdvances(w: World, pc: Pc, ok: bool)
    requires pc.StopOnly? || pc.StopThenStart?
    ensures Advance(w, pc, Choice(ok, false, 0)) ==
            (if ok then w.(recorded := None) else w,
             if !ok then Ended(false) else if pc.StopOnly? then Ended(true) else StartServer(pc.flag, pc.next))
  {
  }

  lemma LoopAdvances(w: World, ok: bool)
    ensures Advance(w, StopLoop, Choice(ok, false, 0)) ==
            if ok then (w.(loops := Stopped(w.loops)), StartLoop) else (w, Ended(false))
    ensures Advance(w, PublishLoop, Choice(ok, false, 0)) ==
            if ok then (w.(loops := w.loops.(file := w.loops.spawned, spawned := None)), AwaitReady(Finish))
            else (LoopAbandoned(w), Ended(false))
  {
  }

  lemma SpawnLoopAdvances(w: World, ok: bool)
    requires w.loops.file.None?
    ensures Advance(w, StartLoop, Choice(ok, false, 0)) ==
            if ok then (LoopSpawned(w), PublishLoop) else (w, Ended(false))
  {
  }

  lemma ReexecAdvances(w: World, plan: Plan, ok: bool)
    ensures Advance(w, AwaitReady(AfterUpdate(plan)), Choice(ok, false, 0)) ==
            (if ok && plan.forced then Reexeced(w, plan) else w, Ended(ok))
  {
  }

  lemma BeginAdvances(w: World, target: bool)
    ensures Advance(w, Begin(Command.SetRemoteControl(target)), FINE) == (w, SetLoad(target, false))
    ensures Advance(w, Begin(Command.Bootstrap(target)), FINE) == (w, BootBin(target))
  {
  }

  /** The loops that are left once those in `ended` have ended. */
  function Survivors(ls: Loops, ended: set<nat>): Loops {
    var file := if ls.file.Some? && ls.file.value in ended then None else ls.file;
    Loops(ls.live - ended, file, if ls.spawned.Some? && ls.spawned.value in ended then None else ls.spawned)
  }

  /** A recorded loop is alive. */
  predicate Named(ls: Loops) {
    && (ls.file.Some? ==> ls.file.value in ls.live)
    && (ls.spawned.Some? ==> ls.spawned.value in ls.live)
  }

  /** Some loops may have ended. */
  ghost predicate Outlived(ls: Loops, ls': Loops) {
    && (forall l :: l in ls'.live ==> l in ls.live && ls'.live[l] == ls.live[l])
    && (ls'.file == ls.file || ls'.file == None) && (ls'.spawned == ls.spawned || ls'.spawned == None)
  }

  lemma SurvivorsOutlive(ls: Loops, ended: set<nat>)
    ensures Outlived(ls, Survivors(ls, ended)) && (Named(ls) ==> Named(Survivors(ls, ended)))
    ensures forall l :: l in ls.live && l !in ended ==> l in Survivors(ls, ended).live
  {
  }

  lemma StillKnows(w: World, w': World, pc: Pc)
    requires Knows(w, pc) && w'.settings == w.settings
    requires w'.loops.file == w.loops.file || w'.loops.file == None
    requires w'.loops.spawned == w.loops.spawned || w'.loops.spawned == None
    requires (w'.recorded == w.recorded || w'.recorded == None) && (w'.spawned == w.spawned || w'.spawned == None)
    ensures Knows(w', pc)
  {
  }

  class Daemon {
    var settings: bool
    var recorded: Option<Server>
    var spawned: Option<Server>
    var orphans: seq<Server>
    var unmanaged: bool
    var installed: Binary
    var loops: Loops
    var serial: nat
    const own: Option<nat> // the update loop that this process is, if it is one
    ghost const since: nat // the processes spawned before the command began
    ghost var pc: Pc
    ghost var builds: set<Binary>

    function View(): World
      reads this
    {
      World(settings, recorded, spawned, orphans, unmanaged, installed, loops, serial)
    }

    ghost predicate Valid()
      reads this
    {
      Knows(View(), pc) && Aged(View()) && Named(loops) && installed in builds && since <= serial
    }

    /**
     * A recorded server was spawned during the command, with the saved flag and a build that was installed
     * meanwhile.
     */
    ghost predicate Renewed()
      reads this
    {
      recorded.Some? ==>
        && recorded.value.serial >= since && recorded.value.remoteControl == settings
        && exists b :: b in builds && b.version == recorded.value.version
    }

    /** A recorded server was spawned during the command, with the saved flag and the given build. */
    ghost predicate RenewedAs(build: Binary)
      reads this
    {
      recorded.Some? ==>
        && recorded.value.serial >= since && recorded.value.remoteControl == settings
        && recorded.value.version == build.version
    }

    /** A recorded loop was spawned during the command, and runs a build that was installed meanwhile. */
    ghost predicate LoopRenewed()
      reads this
    {
      loops.file.Some? ==>
        loops.file.value >= since && loops.file.value in loops.live && loops.live[loops.file.value] in builds
    }

    /** The build that this process runs, if it is a live update loop. */
    function OwnBuild(): Option<Binary>
      reads this
    {
      if own.Some? && own.value in loops.live then Some(loops.live[own.value]) else None
    }

    constructor (world: World, command: Command)
      requires world.spawned.None? && world.loops.spawned.None? && Aged(world) && Named(world.loops)
      ensures Valid() && View() == world && pc == Begin(command) && builds == {world.installed}
      ensures since == world.serial
      ensures own == if command.RestartIfRunning? then Some(command.plan.loop) else None
    {
      settings, recorded, spawned := world.settings, world.recorded, world.spawned;
      orphans, unmanaged := world.orphans, world.unmanaged;
      installed, loops, serial := world.installed, world.loops, world.serial;
      own := if command.RestartIfRunning? then Some(command.plan.loop) else None;
      since := world.serial;
      pc := Begin(command);
      builds := {world.installed};
    }

    /** What can happen while this process waits. */
    method Interfere()
      requires Valid() && Critical(pc)
      modifies this
      ensures Valid() && settings == old(settings) && serial == old(serial) && pc == old(pc) && old(builds) <= builds
      ensures recorded == old(recorded) || recorded == None
      ensures spawned == old(spawned) || spawned == None
      ensures Outlived(old(loops), loops) && OwnBuild() == old(OwnBuild())
    {
      ghost var before := View();
      var recordedDies: bool, spawnedDies: bool, ended: set<nat> := *, *, *;
      if recordedDies { recorded := None; }
      if spawnedDies { spawned := None; }
      if own.Some? { ended := ended - {own.value}; }
      SurvivorsOutlive(loops, ended);
      loops := Survivors(loops, ended);
      var survivors: seq<Server>, up: bool, build: Binary := *, *, *;
      orphans, unmanaged, installed := survivors, up, build;
      builds := builds + {build};
      StillKnows(before, View(), pc);
    }

    /** A step that only looks: loading settings, probing, reading the pid file, looking for the binary. */
    method Look() returns (c: Choice)
      requires Valid() && Critical(pc) && !Writes(pc)
      modifies this
      ensures Valid() && settings == old(settings) && pc == Advance(View(), old(pc), c).1 && old(builds) <= builds
      ensures recorded == old(recorded) || recorded == None
      ensures OwnBuild() == old(OwnBuild())
    {
      Interfere();
      var ok: bool, ready: bool, told: nat := *, *, *;
      c := Choice(ok, ready, told);
      AdvanceKnows(View(), pc, c);
      OnlyLooks(View(), pc, c);
      pc := Advance(View(), pc, c).1;
    }

    /** `settings.save`. */
    method Save(target: bool) returns (ok: bool)
      requires Valid() && (pc == BootSave(target) || (pc.SetDecide? && pc.target == target && pc.flag != target))
      modifies this
      ensures Valid() && settings == (if ok then target else old(settings)) && old(builds) <= builds
      ensures pc == SaveNext(old(pc), target, ok)
      ensures recorded == old(recorded) || recorded == None
      ensures ok && old(pc).SetDecide? && !old(pc).running ==> recorded == None
    {
      Interfere();
      ok := *;
      AdvanceKnows(View(), pc, Choice(ok, false, 0));
      SaveAdvances(View(), pc, target, ok);
      ghost var next := Advance(View(), pc, Choice(ok, false, 0));
      if ok { settings := target; }
      assert View() == next.0;
      pc := next.1;
    }

    /** `PidBackend::stop`. */
    method StopBackend() returns (ok: bool)
      requires Valid() && (pc.StopOnly? || pc.StopThenStart?)
      modifies this
      ensures Valid() && settings == old(settings) && (ok ==> recorded == None) && old(builds) <= builds
      ensures pc == if !ok then Ended(false)
                    else if old(pc).StopOnly? then Ended(true) else StartServer(old(pc).flag, old(pc).next)
      ensures OwnBuild() == old(OwnBuild())
    {
      Interfere();
      ok := *;
      AdvanceKnows(View(), pc, Choice(ok, false, 0));
      StopAdvances(View(), pc, ok);
      ghost var next := Advance(View(), pc, Choice(ok, false, 0));
      if ok { recorded := None; }
      assert View() == next.0;
      pc := next.1;
    }

    /** The first half of `PidBackend::start`, with the resolved binary or the one at the managed path. */
    method Spawn(flag: bool, pin: Option<Binary>) returns (ok: bool)
      requires Valid() && pc.StartServer? && pc.flag == flag
      requires pin == if pc.next.AfterUpdate? then Some(pc.next.plan.pin) else None
      modifies this
      ensures Valid() && settings == old(settings) && old(builds) <= builds && recorded == None
      ensures pc == if ok then Publish(old(pc).next) else Ended(false)
      ensures ok ==> exists b ::
        (if pin.Some? then b == pin.value else b in builds) && spawned == Some(Server(flag, b.version, old(serial)))
      ensures OwnBuild() == old(OwnBuild())
    {
      Interfere();
      ok := *;
      AdvanceKnows(View(), pc, Choice(ok, false, 0));
      ghost var next := Advance(View(), pc, Choice(ok, false, 0));
      if ok {
        var b := if pin.Some? then pin.value else installed;
        spawned := Some(Server(flag, b.version, serial));
        serial := serial + 1;
      }
      assert View() == next.0;
      pc := next.1;
    }

    /** The second half: the pid file names the server, or the server is left to a signal nobody waits for. */
    method Record() returns (ok: bool)
      requires Valid() && pc.Publish?
      modifies this
      ensures Valid() && settings == old(settings) && old(builds) <= builds && spawned == None
      ensures recorded == None || (ok && recorded == old(spawned))
      ensures pc == if !ok then Ended(false) else Started(old(pc).next)
      ensures OwnBuild() == old(OwnBuild())
    {
      Interfere();
      ok := *;
      AdvanceKnows(View(), pc, Choice(ok, false, 0));
      ghost var next := Advance(View(), pc, Choice(ok, false, 0));
      if ok {
        recorded := spawned;
      } else if spawned.Some? {
        orphans := orphans + [spawned.value];
      }
      spawned := None;
      assert View() == next.0;
      pc := next.1;
    }

    /** `start_managed_backend`: on success whatever is recorded is new, with the given flag. */
    method StartBackend(flag: bool) returns (ok: bool)
      requires Valid() && pc.StartServer? && pc.flag == flag && !pc.next.AfterUpdate?
      modifies this
      ensures Valid() && settings == old(settings) && old(builds) <= builds && Renewed()
      ensures pc == if !ok then Ended(false) else Started(old(pc).next)
    {
      ok := Spawn(flag, None);
      if ok { ok := Record(); }
    }

    /** Stops the managed server if it was seen running, then starts a new one. */
    method ReplaceBackend(flag: bool, running: bool) returns (ok: bool)
      requires Valid() && (if running then pc.StopThenStart? else pc.StartServer?) && pc.flag == flag
      requires !pc.next.AfterUpdate?
      modifies this
      ensures Valid() && settings == old(settings) && old(builds) <= builds && (ok ==> Renewed())
      ensures pc == if !ok then Ended(false) else Started(old(pc).next)
    {
      if running {
        ok := StopBackend();
        if !ok { return; }
      }
      ok := StartBackend(flag);
    }

    method CheckOwned() returns (ok: bool)
      requires Valid() && (pc.RestartOwned? || pc.BootOwned?)
      modifies this
      ensures Valid() && settings == old(settings) && old(builds) <= builds
      ensures pc == if !ok then Ended(false)
                    else if old(pc).RestartOwned? then RestartBin(old(pc).flag) else BootSave(old(pc).target)
    {
      var c := Look();
      ok := c.ok && Running(View());
    }

    /** Whether no server answers, or a recorded one runs: otherwise the command must not go on. */
    method ProbeOwned() returns (ok: bool)
      requires Valid() && (pc.RestartProbe? || pc.BootProbe?)
      modifies this
      ensures Valid() && settings == old(settings) && old(builds) <= builds
      ensures pc == if !ok then Ended(false)
                    else if old(pc).RestartProbe? then RestartBin(old(pc).flag) else BootSave(old(pc).target)
    {
      var c := Look();
      ok := true;
      if Answers(View(), c) { ok := CheckOwned(); }
    }

    /** The recorded update loop is stopped. */
    method StopUpdater() returns (ok: bool)
      requires Valid() && pc == StopLoop
      modifies this
      ensures Valid() && settings == old(settings) && old(builds) <= builds
      ensures recorded == old(recorded) || recorded == None
      ensures pc == if ok then StartLoop else Ended(false)
      ensures ok ==> loops.file == None
    {
      Interfere();
      ok := *;
      LoopAdvances(View(), ok);
      AdvanceKnows(View(), pc, Choice(ok, false, 0));
      if ok { loops := Stopped(loops); }
      pc := if ok then StartLoop else Ended(false);
    }

    /** The first half of starting the update loop. */
    method SpawnLoop() returns (ok: bool)
      requires Valid() && pc == StartLoop
      modifies this
      ensures Valid() && settings == old(settings) && old(builds) <= builds
      ensures recorded == old(recorded) || recorded == None
      ensures pc == if ok then PublishLoop else Ended(false)
      ensures ok ==> loops.spawned == Some(old(serial)) && loops.live[old(serial)] in builds
    {
      Interfere();
      ok := *;
      SpawnLoopAdvances(View(), ok);
      AdvanceKnows(View(), pc, Choice(ok, false, 0));
      if ok {
        loops := loops.(live := loops.live[serial := installed], spawned := Some(serial));
        serial := serial + 1;
      }
      pc := if ok then PublishLoop else Ended(false);
    }

    /** The second half: the pid file names the loop, or the loop runs on unknown to anybody. */
    method RecordLoop() returns (ok: bool)
      requires Valid() && pc == PublishLoop && loops.spawned.Some?
      requires loops.spawned.value >= since && loops.live[loops.spawned.value] in builds
      modifies this
      ensures Valid() && settings == old(settings) && old(builds) <= builds
      ensures recorded == old(recorded) || recorded == None
      ensures pc == if ok then AwaitReady(Finish) else Ended(false)
      ensures LoopRenewed()
    {
      Interfere();
      ok := *;
      LoopAdvances(View(), ok);
      AdvanceKnows(View(), pc, Choice(ok, false, 0));
      loops := loops.(file := if ok then loops.spawned else loops.file, spawned := None);
      pc := if ok then AwaitReady(Finish) else Ended(false);
    }

    /** `wait_until_ready`. */
    method WaitUntilReady() returns (ok: bool)
      requires Valid() && pc.AwaitReady? && !pc.next.AfterUpdate?
      modifies this
      ensures Valid() && settings == old(settings) && old(builds) <= builds
      ensures recorded == old(recorded) || recorded == None
      ensures old(LoopRenewed()) ==> LoopRenewed()
      ensures pc == if !ok then Ended(false) else if old(pc).next.RunStart? then Begin(Command.Start) else Ended(true)
    {
      Interfere();
      ok := *;
      pc := Advance(View(), pc, Choice(ok, false, 0)).1;
    }

    method StartFresh(flag: bool) returns (ok: bool)
      requires Valid() && pc == StartBin(flag)
      modifies this
      ensures Valid() && settings == old(settings) && pc == Ended(ok) && old(builds) <= builds && Renewed()
    {
      var c := Look();
      if !c.ok { return false; }
      ok := StartBackend(flag);
      if ok { ok := WaitUntilReady(); }
    }

    /** `start`: a recorded server is left alone, even a stranded one; one that it starts has the saved flag. */
    method Start() returns (ok: bool)
      requires Valid() && pc == Begin(Command.Start)
      modifies this
      ensures Valid() && settings == old(settings) && pc == Ended(ok) && old(builds) <= builds
      ensures recorded == old(recorded) || Renewed()
    {
      var c := Look();
      if !c.ok { return false; }
      var flag := settings;
      c := Look();
      if Answers(View(), c) { return c.ok; }
      c := Look();
      if !c.ok { return false; }
      if Running(View()) {
        ok := WaitUntilReady();
        return;
      }
      ok := StartFresh(flag);
    }

    method ReplaceOwn(flag: bool) returns (ok: bool)
      requires Valid() && pc == RestartCheck(flag)
      modifies this
      ensures Valid() && settings == old(settings) && pc == Ended(ok) && (ok ==> Renewed())
    {
      var c := Look();
      if !c.ok { return false; }
      ok := ReplaceBackend(flag, Running(View()));
      if ok { ok := WaitUntilReady(); }
    }

    /** The second half of `restart`: no other server answers. */
    method RestartOwn(flag: bool) returns (ok: bool)
      requires Valid() && pc == RestartBin(flag)
      modifies this
      ensures Valid() && settings == old(settings) && pc == Ended(ok) && (ok ==> Renewed())
    {
      var c := Look();
      if !c.ok { return false; }
      ok := ReplaceOwn(flag);
    }

    /** `restart`: on success no server is recorded but a new one with the saved flag. */
    method Restart() returns (ok: bool)
      requires Valid() && pc == Begin(Command.Restart)
      modifies this
      ensures Valid() && settings == old(settings) && pc == Ended(ok) && (ok ==> Renewed())
    {
      var c := Look();
      if !c.ok { return false; }
      var flag := settings;
      ok := ProbeOwned();
      if ok { ok := RestartOwn(flag); }
    }

    /** `stop`: on success no server is recorded. */
    method Stop() returns (ok: bool)
      requires Valid() && pc == Begin(Command.Stop)
      modifies this
      ensures Valid() && settings == old(settings) && pc == Ended(ok) && (ok ==> recorded == None)
    {
      var c := Look();
      if !c.ok { return false; }
      c := Look();
      if !c.ok { return false; }
      if Running(View()) {
        ok := StopBackend();
        return;
      }
      c := Look();
      ok := !Answers(View(), c);
    }

    /** The start of `try_restart_if_running`, with the binary the turn resolved. */
    method StartPinned(plan: Plan) returns (ok: bool)
      requires Valid() && pc == StartServer(settings, AfterUpdate(plan))
      modifies this
      ensures Valid() && settings == old(settings) && OwnBuild() == old(OwnBuild())
      ensures ok ==> RenewedAs(plan.pin)
      ensures pc == if ok then AwaitReady(AfterUpdate(plan)) else Ended(false)
    {
      ok := Spawn(settings, Some(plan.pin));
      if ok { ok := Record(); }
    }

    /** `wait_until_ready` and the re-exec at the end of `try_restart_if_running`. */
    method FinishUpdate(plan: Plan) returns (ok: bool)
      requires Valid() && pc == AwaitReady(AfterUpdate(plan)) && own == Some(plan.loop)
      modifies this
      ensures Valid() && settings == old(settings) && pc == Ended(ok)
      ensures recorded == old(recorded) || recorded == None
      ensures OwnBuild() == if ok && plan.forced then Some(plan.pin) else old(OwnBuild())
    {
      Interfere();
      ok := *;
      ReexecAdvances(View(), plan, ok);
      if ok && plan.forced { loops := loops.(live := loops.live[plan.loop := plan.pin]); }
      pc := Ended(ok);
    }

    method RestartPinned(plan: Plan) returns (ok: bool)
      requires Valid() && pc == StopThenStart(settings, AfterUpdate(plan)) && own == Some(plan.loop)
      modifies this
      ensures Valid() && settings == old(settings) && pc == Ended(ok)
      ensures ok ==> RenewedAs(plan.pin)
      ensures OwnBuild() == if ok && plan.forced then Some(plan.pin) else old(OwnBuild())
    {
      ok := StopBackend();
      if !ok { return; }
      ok := StartPinned(plan);
      if !ok { return; }
      ok := FinishUpdate(plan);
    }

    /** A server was seen recorded: decide, and restart it with the saved flag and the resolved binary if need be. */
    method UpdateRunning(plan: Plan) returns (outcome: Outcome)
      requires Valid() && pc == UpdateProbe(settings, plan) && own == Some(plan.loop)
      modifies this
      ensures Valid() && settings == old(settings) && pc == Ended(outcome != Failed) && outcome != NotRunning
      ensures outcome == Restarted ==> RenewedAs(plan.pin)
      ensures outcome == Outcome.AlreadyCurrent || outcome == Outcome.NotReady ==> !plan.forced
      ensures outcome == Outcome.AlreadyCurrent && !unmanaged && orphans == [] ==>
        Running(View()) && recorded.value.version == plan.pin.version
      ensures OwnBuild() == if outcome == Restarted && plan.forced then Some(plan.pin) else old(OwnBuild())
    {
      var c := Look();
      var answered := Answers(View(), c);
      if answered && !c.ok { return Failed; }
      var current := answered && ProbedVersion(View(), c) == plan.pin.version;
      match RestartDecision(plan.forced, answered, current)
      case NotReady =>
        return Outcome.NotReady;
      case AlreadyCurrent =>
        return Outcome.AlreadyCurrent;
      case DoRestart =>
        var ok := RestartPinned(plan);
        return if ok then Restarted else Failed;
    }

    method UpdateUnrecorded(ghost plan: Plan) returns (outcome: Outcome)
      requires Valid() && pc == UpdateUnmanaged(plan)
      modifies this
      ensures Valid() && settings == old(settings) && pc == Ended(outcome != Failed) && OwnBuild() == old(OwnBuild())
      ensures outcome == Failed || (outcome == NotRunning && recorded == None && !unmanaged)
    {
      var c := Look();
      return if Answers(View(), c) then Failed else NotRunning;
    }

    method UpdateLoaded(plan: Plan) returns (outcome: Outcome)
      requires Valid() && pc == UpdateCheck(settings, plan) && own == Some(plan.loop)
      modifies this
      ensures Valid() && settings == old(settings) && pc == Ended(outcome != Failed)
      ensures outcome == NotRunning ==> recorded == None && !unmanaged
      ensures outcome == Restarted ==> RenewedAs(plan.pin)
      ensures outcome == Outcome.AlreadyCurrent || outcome == Outcome.NotReady ==> !plan.forced
      ensures outcome == Outcome.AlreadyCurrent && !unmanaged && orphans == [] ==>
        Running(View()) && recorded.value.version == plan.pin.version
      ensures OwnBuild() == if outcome == Restarted && plan.forced then Some(plan.pin) else old(OwnBuild())
    {
      var c := Look();
      if !c.ok { return Failed; }
      if Running(View()) {
        outcome := UpdateRunning(plan);
      } else {
        outcome := UpdateUnrecorded(plan);
      }
    }

    /**
     * `try_restart_if_running`: after a restart no server is recorded but a new one of the resolved build with
     * the saved flag, and the build of this loop changes exactly on a forced restart.
     */
    method TryRestartIfRunning(plan: Plan) returns (outcome: Outcome)
      requires Valid() && pc == Begin(Command.RestartIfRunning(plan)) && own == Some(plan.loop)
      modifies this
      ensures Valid() && settings == old(settings) && pc == Ended(outcome != Failed)
      ensures outcome == NotRunning ==> recorded == None && !unmanaged
      ensures outcome == Restarted ==> RenewedAs(plan.pin)
      ensures outcome == Outcome.AlreadyCurrent || outcome == Outcome.NotReady ==> !plan.forced
      ensures outcome == Outcome.AlreadyCurrent && !unmanaged && orphans == [] ==>
        Running(View()) && recorded.value.version == plan.pin.version
      ensures OwnBuild() == if outcome == Restarted && plan.forced then Some(plan.pin) else old(OwnBuild())
    {
      var c := Look();
      if !c.ok { return Failed; }
      outcome := UpdateLoaded(plan);
    }

    method ProbeNone(target: bool, ghost thenStart: bool) returns (ok: bool)
      requires Valid() && pc == SetProbe(settings, target, thenStart)
      modifies this
      ensures Valid() && settings == old(settings) && old(builds) <= builds
      ensures recorded == old(recorded) || recorded == None
      ensures pc == if ok then SetDecide(settings, target, false, thenStart) else Ended(false)
    {
      var c := Look();
      ok := !Answers(View(), c);
    }

    /** The checks of `set_remote_control_locked`: nothing is changed until an unmanaged server is ruled out. */
    method CheckRemoteControl(target: bool, ghost thenStart: bool) returns (ok: bool, running: bool)
      requires Valid() && pc == SetCheck(settings, target, thenStart)
      modifies this
      ensures Valid() && settings == old(settings) && old(builds) <= builds
      ensures recorded == old(recorded) || recorded == None
      ensures pc == if ok then SetDecide(settings, target, running, thenStart) else Ended(false)
    {
      var c := Look();
      if !c.ok { return false, false; }
      running := Running(View());
      if running { return true, true; }
      ok := ProbeNone(target, thenStart);
    }

    /** The recorded server is replaced by one with the new flag. */
    method ReplaceChanged(target: bool, ghost thenStart: bool) returns (ok: bool)
      requires Valid() && pc == SetBin(target, thenStart)
      modifies this
      ensures Valid() && settings == old(settings) && old(builds) <= builds && (ok ==> Renewed())
      ensures pc == if !ok then Ended(false) else if thenStart then Begin(Command.Start) else Ended(true)
    {
      var c := Look();
      if !c.ok { return false; }
      assert pc == StopThenStart(target, Then(thenStart));
      ok := ReplaceBackend(target, true);
      if ok { ok := WaitUntilReady(); }
    }

    /** The flag is already the saved one: only wait for a recorded server, whatever flag it has. */
    method KeepRemoteControl(running: bool, ghost thenStart: bool) returns (ok: bool)
      requires Valid() && pc == SetDecide(settings, settings, running, thenStart)
      modifies this
      ensures Valid() && settings == old(settings) && old(builds) <= builds
      ensures recorded == old(recorded) || recorded == None
      ensures pc == if !ok then Ended(false) else if thenStart then Begin(Command.Start) else Ended(true)
    {
      ok := true;
      pc := Advance(View(), pc, Choice(true, false, 0)).1;
      if running { ok := WaitUntilReady(); }
    }

    /** Save the new flag, and replace a recorded server. */
    method ChangeRemoteControl(target: bool, running: bool, ghost thenStart: bool) returns (ok: bool)
      requires Valid() && pc == SetDecide(settings, target, running, thenStart) && settings != target
      modifies this
      ensures Valid() && old(builds) <= builds && (ok ==> settings == target && Renewed())
      ensures pc == if !ok then Ended(false) else if thenStart then Begin(Command.Start) else Ended(true)
    {
      ok := Save(target);
      if ok && running { ok := ReplaceChanged(target, thenStart); }
    }

    method SetLoaded(target: bool, ghost thenStart: bool) returns (ok: bool)
      requires Valid() && pc == SetCheck(settings, target, thenStart)
      modifies this
      ensures Valid() && old(builds) <= builds
      ensures pc == if !ok then Ended(false) else if thenStart then Begin(Command.Start) else Ended(true)
      ensures ok ==> settings == target && (Renewed() || (old(settings) == target && recorded == old(recorded)))
    {
      var running;
      ok, running := CheckRemoteControl(target, thenStart);
      if !ok { return; }
      if settings == target {
        ok := KeepRemoteControl(running, thenStart);
      } else {
        ok := ChangeRemoteControl(target, running, thenStart);
      }
    }

    /**
     * `set_remote_control_locked`: on success the flag is saved, and a recorded server has it unless the
     * flag was saved before and the server was left as it was.
     */
    method SetRemoteControlLocked(target: bool, ghost thenStart: bool) returns (ok: bool)
      requires Valid() && pc == SetLoad(target, thenStart)
      modifies this
      ensures Valid() && old(builds) <= builds
      ensures pc == if !ok then Ended(false) else if thenStart then Begin(Command.Start) else Ended(true)
      ensures ok ==> settings == target && (Renewed() || (old(settings) == target && recorded == old(recorded)))
    {
      var c := Look();
      if !c.ok { return false; }
      ok := SetLoaded(target, thenStart);
    }

    method ReplaceOnBoot(target: bool) returns (ok: bool)
      requires Valid() && pc == BootCheck(target)
      modifies this
      ensures Valid() && settings == old(settings) && old(builds) <= builds && (ok ==> Renewed())
      ensures pc == if ok then StopLoop else Ended(false)
    {
      var c := Look();
      if !c.ok { return false; }
      ok := ReplaceBackend(target, Running(View()));
    }

    /** The last steps of `bootstrap_locked`. */
    method RestartUpdater() returns (ok: bool)
      requires Valid() && pc == StopLoop
      modifies this
      ensures Valid() && settings == old(settings) && pc == Ended(ok) && old(builds) <= builds
      ensures recorded == old(recorded) || recorded == None
      ensures ok ==> LoopRenewed()
    {
      ok := StopUpdater();
      if !ok { return; }
      ok := SpawnLoop();
      if !ok { return; }
      ok := RecordLoop();
      if ok { ok := WaitUntilReady(); }
    }

    /** The second half of `bootstrap_locked`: no other server answers. */
    method BootChange(target: bool) returns (ok: bool)
      requires Valid() && pc == BootSave(target)
      modifies this
      ensures Valid() && pc == Ended(ok)
      ensures ok ==> settings == target && Renewed()
      ensures ok ==> LoopRenewed()
    {
      ok := Save(target);
      if !ok { return; }
      ok := ReplaceOnBoot(target);
      if !ok { return; }
      ok := RestartUpdater();
    }

    /**
     * `bootstrap_locked`: on success the flag is saved, no server is recorded but a new one with it, and
     * the update loop, if it has not died since, runs a build that was installed meanwhile.
     */
    method BootstrapLocked(target: bool) returns (ok: bool)
      requires Valid() && pc == BootBin(target)
      modifies this
      ensures Valid() && pc == Ended(ok)
      ensures ok ==> settings == target && Renewed()
      ensures ok ==> LoopRenewed()
    {
      var c := Look();
      if !c.ok { return false; }
      ok := ProbeOwned();
      if ok { ok := BootChange(target); }
    }

    /** `set_remote_control`. */
    method SetRemoteControl(target: bool) returns (ok: bool)
      requires Valid() && pc == Begin(Command.SetRemoteControl(target))
      modifies this
      ensures Valid() && pc == Ended(ok)
      ensures ok ==> settings == target && (Renewed() || (old(settings) == target && recorded == old(recorded)))
    {
      BeginAdvances(View(), target);
      pc := SetLoad(target, false);
      ok := SetRemoteControlLocked(target, false);
    }

    /** `bootstrap`. */
    method Bootstrap(target: bool) returns (ok: bool)
      requires Valid() && pc == Begin(Command.Bootstrap(target))
      modifies this
      ensures Valid() && pc == Ended(ok)
      ensures ok ==> settings == target && Renewed()
      ensures ok ==> LoopRenewed()
    {
      BeginAdvances(View(), target);
      pc := BootBin(target);
      ok := BootstrapLocked(target);
    }

    /** With a loop recorded, remote control is switched on and the server started. */
    method SetAndStart() returns (ok: bool)
      requires Valid() && pc == SetLoad(true, true)
      modifies this
      ensures Valid() && pc == Ended(ok)
      ensures ok ==> settings && (Renewed() || (old(settings) && recorded == old(recorded)))
    {
      ok := SetRemoteControlLocked(true, true);
      if ok { ok := Start(); }
    }

    method EnsureLoaded() returns (ok: bool)
      requires Valid() && pc == EnsureCheck
      modifies this
      ensures Valid() && pc == Ended(ok)
      ensures ok ==> settings && (Renewed() || (old(settings) && recorded == old(recorded)))
    {
      var c := Look();
      if !c.ok { return false; }
      if loops.file.Some? {
        ok := SetAndStart();
      } else {
        ok := BootstrapLocked(true);
      }
    }

    /** `ensure_remote_control_started`. */
    method EnsureRemoteControlStarted() returns (ok: bool)
      requires Valid() && pc == Begin(EnsureRemoteControl)
      modifies this
      ensures Valid() && pc == Ended(ok)
      ensures ok ==> settings && (Renewed() || (old(settings) && recorded == old(recorded)))
    {
      var c := Look();
      if !c.ok { return false; }
      ok := EnsureLoaded();
    }
  }
}
