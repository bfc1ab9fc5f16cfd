// codex-rs/app-server-daemon/src/lib.rs and backend/pid.rs: how many update loops can run at once, and that
// each is in at most one turn, whose modes fit the build it resolved.

module DaemonLoops {
  import opened Sequences
  import opened DaemonLifecycle
  import opened DaemonUpdater

  predicate HasVersion(server: Option<Server>, version: nat) {
    server.Some? ==> server.value.version == version
  }

  /** Every server the holder knows of is of this version. */
  predicate AllOf(w: World, version: nat) {
    HasVersion(w.recorded, version) && HasVersion(w.spawned, version)
  }

  /** A turn belongs to a live loop and its modes are those of that loop's build; what it started is of its own. */
  predicate TurnOk(w: World, pc: Pc) {
    PlanOf(pc).Some? ==>
      var plan := PlanOf(pc).value;
      && plan.loop in w.loops.live && (plan.forced <==> w.loops.live[plan.loop] != plan.pin)
      && (PhaseOf(pc) == Awaiting ==> AllOf(w, plan.pin.version))
  }

  /** Loops are told apart by their place among all spawns; the pid file names a live one. */
  ghost predicate Numbered(w: World) {
    && (forall l :: l in w.loops.live ==> l < w.serial)
    && (w.loops.file.Some? ==> w.loops.file.value in w.loops.live)
    && (w.loops.spawned.Some? ==> w.loops.spawned.value in w.loops.live)
  }

  predicate SameLoop(pc: Pc, other: Pc) {
    PlanOf(pc).Some? && PlanOf(other).Some? && PlanOf(pc).value.loop == PlanOf(other).value.loop
  }

  /** No loop is in two turns. */
  ghost predicate OneTurnEach(s: System) {
    forall p, q :: p in s.procs && q in s.procs && SameLoop(s.procs[p], s.procs[q]) ==> p == q
  }

  ghost predicate Looped(s: System) {
    && Safe(s) && Numbered(s.world) && OneTurnEach(s)
    && forall p :: p in s.procs ==> TurnOk(s.world, s.procs[p])
  }

  // ---- Steps of the lock holder ----

  function LoopsAfter(w: World, pc: Pc, c: Choice): Loops {
    if IsReexec(pc, c) then Reexeced(w, pc.next.plan).loops
    else if pc.StopLoop? && c.ok then Stopped(w.loops)
    else if pc.StartLoop? && c.ok && w.loops.file.None? then LoopSpawned(w).loops
    else if pc.PublishLoop? then w.loops.(file := if c.ok then w.loops.spawned else w.loops.file, spawned := None)
    else w.loops
  }

  /** What a step of the lock holder does to the loops. */
  ghost predicate LoopEffect(w: World, pc: Pc, c: Choice, w': World) {
    && w'.installed == w.installed && w'.unmanaged == w.unmanaged
    && w'.loops == LoopsAfter(w, pc, c)
    && w.serial <= w'.serial && (pc.StartLoop? && c.ok && w.loops.file.None? ==> w.serial < w'.serial)
  }

  lemma LoopRead(w: World, pc: Pc, c: Choice)
    requires !InBackend(pc) && !InStop(pc) && !InSet(pc) && !InBoot(pc)
    ensures LoopEffect(w, pc, c, Advance(w, pc, c).0)
  {
    assert Advance(w, pc, c).0 == w;
  }

  lemma LoopChange(w: World, pc: Pc, c: Choice)
    requires InStop(pc) || InSet(pc)
    ensures LoopEffect(w, pc, c, Advance(w, pc, c).0)
  {
  }

  lemma LoopBoot(w: World, pc: Pc, c: Choice)
    requires InBoot(pc)
    ensures LoopEffect(w, pc, c, Advance(w, pc, c).0)
  {
  }

  lemma LoopBackend(w: World, pc: Pc, c: Choice)
    requires InBackend(pc)
    ensures LoopEffect(w, pc, c, Advance(w, pc, c).0)
  {
  }

  lemma LoopStep(w: World, pc: Pc, c: Choice)
    ensures LoopEffect(w, pc, c, Advance(w, pc, c).0)
  {
    if InBackend(pc) {
      LoopBackend(w, pc, c);
    } else if InStop(pc) || InSet(pc) {
      LoopChange(w, pc, c);
    } else if InBoot(pc) {
      LoopBoot(w, pc, c);
    } else {
      LoopRead(w, pc, c);
    }
  }

  lemma TurnOkBackend(w: World, pc: Pc, c: Choice)
    requires InBackend(pc) && pc.next.AfterUpdate? && Knows(w, pc) && TurnOk(w, pc)
    ensures TurnOk(Advance(w, pc, c).0, Advance(w, pc, c).1)
  {
  }

  lemma TurnOkUpdate(w: World, pc: Pc, c: Choice)
    requires (InUpdate(pc) || (pc.Begin? && PlanOf(pc).Some?)) && TurnOk(w, pc)
    ensures TurnOk(Advance(w, pc, c).0, Advance(w, pc, c).1)
  {
    assert Advance(w, pc, c).0 == w;
    if PlanOf(Advance(w, pc, c).1).Some? {
      if InUpdate(pc) { UpdateTurn(w, pc, c); } else { BeginTurn(w, pc, c); }
    }
  }

  lemma TurnOkStep(w: World, pc: Pc, c: Choice)
    requires Critical(pc) && Knows(w, pc) && TurnOk(w, pc)
    ensures TurnOk(Advance(w, pc, c).0, Advance(w, pc, c).1)
  {
    if PlanOf(pc).None? {
      OutsideStaysOut(w, pc, c);
    } else if InBackend(pc) {
      TurnOkBackend(w, pc, c);
    } else {
      TurnOkUpdate(w, pc, c);
    }
  }

  // ---- Every interleaving ----

  /** A turn that waits keeps its loop as it was, unless the loop is stopped. */
  lemma WaitingTurnOk(w: World, pc: Pc, c: Choice, w': World, other: Pc)
    requires Numbered(w) && LoopEffect(w, pc, c, w') && TurnOk(w, other) && !Critical(other)
    requires PlanOf(pc).Some? ==> !SameLoop(pc, other)
    requires pc.StopLoop? && c.ok && w.loops.file.Some? ==> !TurnOf(other, w.loops.file.value)
    ensures TurnOk(w', other)
  {
  }

  /** What a step of `p` is to the turn of another process: its loop goes on as it was, or its turn is over. */
  lemma OthersWait(s: System, p: nat, q: nat, c: Choice)
    requires Looped(s) && p in s.procs && Critical(s.procs[p]) && q in s.procs && q != p
    ensures q in Ran(s, p, c).procs && TurnOk(Ran(s, p, c).world, Ran(s, p, c).procs[q])
  {
    var pc, other, t := s.procs[p], s.procs[q], Ran(s, p, c);
    LoopStep(s.world, pc, c);
    assert !Critical(other) && t.world == Advance(s.world, pc, c).0;
    if pc.StopLoop? && c.ok && s.world.loops.file.Some? && TurnOf(other, s.world.loops.file.value) {
      assert t.procs[q] == Ended(false);
    } else {
      WaitingTurnOk(s.world, pc, c, t.world, other);
      assert t.procs[q] == other;
    }
  }

  lemma NumberedRun(s: System, p: nat, c: Choice)
    requires Looped(s) && p in s.procs && Critical(s.procs[p])
    ensures Numbered(Ran(s, p, c).world)
  {
    LoopStep(s.world, s.procs[p], c);
    assert Ran(s, p, c).world == Advance(s.world, s.procs[p], c).0;
  }

  lemma OneTurnRun(s: System, p: nat, c: Choice)
    requires Looped(s) && p in s.procs && Critical(s.procs[p])
    ensures OneTurnEach(Ran(s, p, c))
  {
    var t := Ran(s, p, c);
    forall q | q in t.procs && PlanOf(t.procs[q]).Some?
      ensures q in s.procs && PlanOf(s.procs[q]) == PlanOf(t.procs[q])
    {
      RunTurnStep(s, p, c, q);
    }
  }

  lemma OwnTurn(s: System, p: nat, c: Choice)
    requires Looped(s) && p in s.procs && Critical(s.procs[p])
    ensures p in Ran(s, p, c).procs && TurnOk(Ran(s, p, c).world, Ran(s, p, c).procs[p])
  {
    TurnOkStep(s.world, s.procs[p], c);
  }

  lemma LoopedRun(s: System, p: nat, c: Choice)
    requires Looped(s) && p in s.procs && Critical(s.procs[p])
    ensures Looped(Ran(s, p, c))
  {
    SafeRun(s, p, c);
    NumberedRun(s, p, c);
    OneTurnRun(s, p, c);
    var t := Ran(s, p, c);
    forall q | q in t.procs ensures TurnOk(t.world, t.procs[q]) {
      if q != p { OthersWait(s, p, q, c); } else { OwnTurn(s, p, c); }
    }
  }

  lemma LoopedLaunch(s: System, p: nat, l: nat)
    requires Looped(s)
    ensures Looped(Do(s, LaunchUpdate(p, l)))
  {
    SafeStep(s, LaunchUpdate(p, l));
    assert forall q :: q in s.procs && TurnOf(s.procs[q], l) ==> TurnInProgress(s, l);
  }

  lemma KilledTurnOk(w: World, pc: Pc, other: Pc)
    requires TurnOk(w, other) && (PlanOf(pc).Some? ==> !TurnOf(other, PlanOf(pc).value.loop))
    ensures TurnOk(Killed(w, pc), other)
  {
  }

  lemma LoopedCrash(s: System, p: nat)
    requires Looped(s) && p in s.procs && !s.procs[p].Ended?
    ensures Looped(Do(s, Crash(p)))
  {
    SafeStep(s, Crash(p));
    var t := Do(s, Crash(p));
    assert t.procs == s.procs[p := Ended(false)];
    forall q | q in t.procs ensures TurnOk(t.world, t.procs[q]) {
      if q != p { KilledTurnOk(s.world, s.procs[p], s.procs[q]); }
    }
  }

  lemma LoopedCommand(s: System, p: nat, command: Command)
    requires Looped(s)
    ensures Looped(Do(s, Launch(p, command)))
  {
    SafeStep(s, Launch(p, command));
  }

  lemma LoopedGiveUp(s: System, p: nat)
    requires Looped(s)
    ensures Looped(Do(s, GiveUp(p)))
  {
    SafeStep(s, GiveUp(p));
  }

  lemma LoopedLock(s: System, p: nat)
    requires Looped(s)
    ensures Looped(Do(s, TryLock(p)))
  {
    SafeStep(s, TryLock(p));
  }

  lemma EndedTurnOk(w: World, l: nat, pc: Pc)
    requires TurnOk(w, pc) && !TurnOf(pc, l)
    ensures TurnOk(w.(loops := WithoutLoop(w.loops, l)), pc)
  {
  }

  lemma LoopedEnds(s: System, l: nat)
    requires Looped(s) && !TurnOf(HolderPc(s), l)
    ensures Looped(Do(s, LoopEnds(l)))
  {
    SafeStep(s, LoopEnds(l));
    var t := Do(s, LoopEnds(l));
    forall q | q in t.procs ensures TurnOk(t.world, t.procs[q]) {
      if !TurnOf(s.procs[q], l) { EndedTurnOk(s.world, l, s.procs[q]); }
    }
  }

  lemma LoopedWorld(s: System, a: Action)
    requires Looped(s) && (a.Dies? || a.UnmanagedChanges? || a.BinaryInstalled?)
    ensures Looped(Do(s, a))
  {
    SafeStep(s, a);
  }

  lemma LoopedStep(s: System, a: Action)
    requires Looped(s)
    ensures Looped(Do(s, a))
  {
    match a {
      case Run(p, c) => if p in s.procs && Critical(s.procs[p]) { LoopedRun(s, p, c); }
      case LaunchUpdate(p, l) => LoopedLaunch(s, p, l);
      case Crash(p) => if p in s.procs && !s.procs[p].Ended? { LoopedCrash(s, p); }
      case Launch(p, command) => LoopedCommand(s, p, command);
      case TryLock(p) => LoopedLock(s, p);
      case GiveUp(p) => LoopedGiveUp(s, p);
      case LoopEnds(l) => if !TurnOf(HolderPc(s), l) { LoopedEnds(s, l); }
      case _ => LoopedWorld(s, a);
    }
  }

  /** In every interleaving each turn belongs to a live loop that is in no other, and its modes fit their builds. */
  lemma {:induction false} AlwaysLooped(s: System, actions: seq<Action>)
    requires Looped(s)
    ensures Looped(After(s, actions))
  {
    if actions != [] {
      AlwaysLooped(s, Init(actions));
      LoopedStep(After(s, Init(actions)), Last(actions));
    }
  }

  // ---- At most one loop, and exactly when not ----

  lemma Sizes(m: map<nat, Binary>, k: nat, v: Binary)
    ensures |m[k := v]| == if k in m then |m| else |m| + 1
    ensures |m - {k}| <= |m|
  {
    var keys := m[k := v].Keys;
    assert keys == m.Keys + {k};
    assert (m - {k}).Keys == m.Keys - {k};
    assert k in m ==> keys == m.Keys;
  }

  /** A loop is spawned next to one that the pid file does not name. */
  predicate LoopDoubles(s: System, a: Action) {
    && a.Run? && a.choice.ok && a.p in s.procs && s.procs[a.p].StartLoop?
    && s.world.loops.live != map[]
  }

  lemma LoopsReexec(w: World, plan: Plan)
    requires plan.loop in w.loops.live
    ensures |Reexeced(w, plan).loops.live| == |w.loops.live|
  {
    Sizes(w.loops.live, plan.loop, plan.pin);
  }

  lemma LoopsSpawned(w: World)
    requires Numbered(w)
    ensures |LoopSpawned(w).loops.live| == |w.loops.live| + 1
  {
    Sizes(w.loops.live, w.serial, w.installed);
  }

  lemma LoopsWithout(ls: Loops, l: nat)
    ensures |WithoutLoop(ls, l).live| <= |ls.live|
  {
    Sizes(ls.live, l, Binary(0, 0));
  }

  lemma LoopsRun(w: World, pc: Pc, c: Choice)
    requires Numbered(w) && Knows(w, pc) && TurnOk(w, pc) && |w.loops.live| <= 1
    ensures |LoopsAfter(w, pc, c).live| <= 1 <==> !(pc.StartLoop? && c.ok && w.loops.live != map[])
  {
    if IsReexec(pc, c) {
      LoopsReexec(w, pc.next.plan);
    } else if pc.StartLoop? {
      LoopsSpawned(w);
    } else if w.loops.file.Some? {
      LoopsWithout(w.loops, w.loops.file.value);
    }
  }

  lemma LoopsExactlyRun(s: System, p: nat, c: Choice)
    requires Looped(s) && |s.world.loops.live| <= 1 && p in s.procs && Critical(s.procs[p])
    ensures |Ran(s, p, c).world.loops.live| <= 1 <==> !LoopDoubles(s, Run(p, c))
  {
    LoopsRun(s.world, s.procs[p], c);
    LoopStep(s.world, s.procs[p], c);
    assert Ran(s, p, c).world == Advance(s.world, s.procs[p], c).0;
  }

  lemma LoopsKilled(w: World, pc: Pc)
    ensures |Killed(w, pc).loops.live| <= |w.loops.live|
  {
    if PlanOf(pc).Some? { LoopsWithout(w.loops, PlanOf(pc).value.loop); }
  }

  /** No action but a step of the lock holder adds a loop. */
  lemma LoopsOther(s: System, a: Action)
    requires !a.Run?
    ensures |Do(s, a).world.loops.live| <= |s.world.loops.live|
  {
    match a {
      case Crash(p) => if p in s.procs { LoopsKilled(s.world, s.procs[p]); }
      case LoopEnds(l) => LoopsWithout(s.world.loops, l);
      case _ =>
    }
  }

  /** One action ends the reign of a single loop exactly if it spawns one while another lives. */
  lemma LoopsExactly(s: System, a: Action)
    requires Looped(s) && |s.world.loops.live| <= 1
    ensures |Do(s, a).world.loops.live| <= 1 <==> !LoopDoubles(s, a)
  {
    if !a.Run? {
      LoopsOther(s, a);
    } else if a.p in s.procs && Critical(s.procs[a.p]) {
      LoopsExactlyRun(s, a.p, a.choice);
    }
  }

  lemma {:induction false} LoopsUpTo(s: System, actions: seq<Action>, n: nat)
    requires Looped(s) && |s.world.loops.live| <= 1 && n <= |actions|
    requires forall i :: 0 <= i < |actions| ==> !LoopDoubles(After(s, actions[..i]), actions[i])
    ensures |After(s, actions[..n]).world.loops.live| <= 1
  {
    if n > 0 {
      LoopsUpTo(s, actions, n - 1);
      AlwaysLooped(s, actions[..n - 1]);
      AfterPrefix(s, actions, n - 1);
      LoopsExactly(After(s, actions[..n - 1]), actions[n - 1]);
    }
  }

  /** Over every run: there is at most one loop throughout, if and only if no step spawns one next to another. */
  lemma LoopsThroughout(s: System, actions: seq<Action>)
    requires Looped(s) && |s.world.loops.live| <= 1
    ensures (forall n :: 0 <= n <= |actions| ==> |After(s, actions[..n]).world.loops.live| <= 1)
       <==> (forall i :: 0 <= i < |actions| ==> !LoopDoubles(After(s, actions[..i]), actions[i]))
  {
    if forall n :: 0 <= n <= |actions| ==> |After(s, actions[..n]).world.loops.live| <= 1 {
      forall i | 0 <= i < |actions| ensures !LoopDoubles(After(s, actions[..i]), actions[i]) {
        AlwaysLooped(s, actions[..i]);
        AfterPrefix(s, actions, i);
        assert |After(s, actions[..i + 1]).world.loops.live| <= 1;
        LoopsExactly(After(s, actions[..i]), actions[i]);
      }
    }
    if forall i :: 0 <= i < |actions| ==> !LoopDoubles(After(s, actions[..i]), actions[i]) {
      forall n | 0 <= n <= |actions| ensures |After(s, actions[..n]).world.loops.live| <= 1 {
        LoopsUpTo(s, actions, n);
      }
    }
  }

  /** Every live loop is the one the pid file names, or is about to be. */
  ghost predicate Owned(w: World) {
    forall l :: l in w.loops.live ==> w.loops.file == Some(l) || w.loops.spawned == Some(l)
  }

  /** Action `a` ends a bootstrap between spawning a loop and recording it. */
  predicate AbandonsLoop(s: System, a: Action) {
    && (a.Crash? || (a.Run? && !a.choice.ok))
    && a.p in s.procs && s.procs[a.p].PublishLoop? && s.world.loops.spawned.Some?
  }

  lemma OwnedRun(w: World, pc: Pc, c: Choice)
    requires Numbered(w) && Knows(w, pc) && TurnOk(w, pc) && Owned(w)
    requires pc.PublishLoop? && w.loops.spawned.Some? ==> c.ok
    ensures Owned(w.(loops := LoopsAfter(w, pc, c)))
  {
  }

  lemma OwnedStep(s: System, a: Action)
    requires Looped(s) && Owned(s.world) && !AbandonsLoop(s, a)
    ensures Owned(Do(s, a).world)
  {
    if a.Run? && a.p in s.procs && Critical(s.procs[a.p]) {
      OwnedRun(s.world, s.procs[a.p], a.choice);
      LoopStep(s.world, s.procs[a.p], a.choice);
      assert Ran(s, a.p, a.choice).world == Advance(s.world, s.procs[a.p], a.choice).0;
    }
  }

  lemma {:induction false} SubsetSize(xs: set<nat>, ys: set<nat>)
    requires xs <= ys
    ensures |xs| <= |ys|
  {
    if xs != {} {
      var x :| x in xs;
      SubsetSize(xs - {x}, ys - {x});
    }
  }

  lemma OwnedAlone(s: System)
    requires Looped(s) && Owned(s.world)
    ensures |s.world.loops.live| <= 1
  {
    var keys, ls := s.world.loops.live.Keys, s.world.loops;
    if s.lock.Some? { assert Knows(s.world, s.procs[s.lock.value]); }
    var only := if ls.file.Some? then {ls.file.value} else if ls.spawned.Some? then {ls.spawned.value} else {};
    assert keys <= only;
    SubsetSize(keys, only);
  }

  /** So there is never more than one loop in a run that cuts off no bootstrap between spawning and recording one. */
  lemma {:induction false} NeverTwoLoops(s: System, actions: seq<Action>)
    requires Looped(s) && Owned(s.world)
    requires forall i :: 0 <= i < |actions| ==> !AbandonsLoop(After(s, actions[..i]), actions[i])
    ensures Owned(After(s, actions).world) && |After(s, actions).world.loops.live| <= 1
  {
    AlwaysLooped(s, actions);
    if actions != [] {
      var front := Init(actions);
      assert forall i :: 0 <= i < |front| ==> front[..i] == actions[..i];
      NeverTwoLoops(s, front);
      AlwaysLooped(s, front);
      assert actions[..|front|] == front;
      OwnedStep(After(s, front), Last(actions));
    }
    OwnedAlone(After(s, actions));
  }

  // ---- Two loops at once ----

  // The worlds of a bootstrap that finds neither a server nor a loop.

  function BootSaved(w: World, target: bool): World {
    w.(settings := target)
  }

  function BootSpawned(w: World, target: bool): World {
    Spawned(BootSaved(w, target), target, w.installed)
  }

  function BootRecorded(w: World, target: bool): World {
    BootSpawned(w, target).(recorded := BootSpawned(w, target).spawned, spawned := None)
  }

  function Booted(w: World, target: bool): World {
    LoopSpawned(BootRecorded(w, target))
  }

  function CheckTrail(w: World, target: bool): (t: Trail)
    ensures |t| == 6
  {
    [(w, Begin(Bootstrap(target))), (w, BootBin(target)), (w, BootProbe(target)), (w, BootSave(target)),
     (BootSaved(w, target), BootCheck(target)), (BootSaved(w, target), StartServer(target, StartUpdater))]
  }

  function BootTrail(w: World, target: bool): (t: Trail)
    ensures |t| == 5
  {
    [(BootSaved(w, target), StartServer(target, StartUpdater)), (BootSpawned(w, target), Publish(StartUpdater)),
     (BootRecorded(w, target), StopLoop), (BootRecorded(w, target), StartLoop), (Booted(w, target), PublishLoop)]
  }

  lemma CheckSteps(w: World, target: bool)
    requires !Running(w) && !w.unmanaged
    ensures Advance(w, Begin(Bootstrap(target)), QUIET) == (w, BootBin(target))
    ensures Advance(w, BootBin(target), QUIET) == (w, BootProbe(target))
    ensures Advance(w, BootProbe(target), QUIET) == (w, BootSave(target))
  {
  }

  lemma SaveSteps(w: World, target: bool)
    ensures Advance(w, BootSave(target), QUIET) == (w.(settings := target), BootCheck(target))
    ensures Advance(w, BootCheck(target), QUIET).0 == w
    ensures !Running(w) ==> Advance(w, BootCheck(target), QUIET).1 == StartServer(target, StartUpdater)
  {
  }

  lemma CheckLinked(w: World, target: bool)
    requires !Running(w) && !w.unmanaged
    ensures Linked(CheckTrail(w, target), QUIET)
  {
    CheckSteps(w, target);
    SaveSteps(w, target);
    SaveSteps(BootSaved(w, target), target);
  }

  lemma LoopFileSteps(w: World)
    requires w.loops.file.None?
    ensures Advance(w, StopLoop, QUIET) == (w, StartLoop)
    ensures Advance(w, StartLoop, QUIET) == (LoopSpawned(w), PublishLoop)
  {
  }

  lemma BootLinked(w: World, target: bool)
    requires !Running(w) && w.loops.file.None?
    ensures Linked(BootTrail(w, target), QUIET)
  {
    LoopFileSteps(BootRecorded(w, target));
    var w1, w2, w3 := BootSaved(w, target), BootSpawned(w, target), BootRecorded(w, target);
    assert Advance(w1, StartServer(target, StartUpdater), QUIET) == (w2, Publish(StartUpdater));
    assert Advance(w2, Publish(StartUpdater), QUIET) == (w3, StopLoop);
  }

  lemma BootChecks(s: System, p: nat, target: bool) returns (actions: seq<Action>)
    requires s.lock.None? && p !in s.procs && !Running(s.world) && !s.world.unmanaged
    ensures After(s, actions) == At(s, BootSaved(s.world, target), p, StartServer(target, StartUpdater))
    ensures Gentle(actions)
  {
    Locked(s, p, Bootstrap(target));
    CheckLinked(s.world, target);
    Follow(s, p, CheckTrail(s.world, target), QUIET, 5);
    RunsGentle(p, QUIET, 5);
    var first := [Launch(p, Bootstrap(target))] + [TryLock(p)];
    AfterConcat(s, first, Runs(p, QUIET, 5));
    actions := first + Runs(p, QUIET, 5);
  }

  /** A bootstrap that finds neither a server nor a loop, as far as spawning the loop. */
  lemma BootsLoop(s: System, p: nat, target: bool) returns (actions: seq<Action>)
    requires s.lock.None? && p !in s.procs && !Running(s.world) && !s.world.unmanaged && s.world.loops.file.None?
    ensures After(s, actions) == At(s, Booted(s.world, target), p, PublishLoop)
    ensures Gentle(actions)
  {
    actions := BootChecks(s, p, target);
    BootLinked(s.world, target);
    Follow(s, p, BootTrail(s.world, target), QUIET, 4);
    RunsGentle(p, QUIET, 4);
    AfterConcat(s, actions, Runs(p, QUIET, 4));
    actions := actions + Runs(p, QUIET, 4);
  }

  /** A bootstrap that is killed before it has written the loop's pid file. */
  lemma BootsAndDies(s: System, p: nat, target: bool) returns (actions: seq<Action>)
    requires s.lock.None? && p !in s.procs && !Running(s.world) && !s.world.unmanaged && s.world.loops.file.None?
    ensures After(s, actions) == System(LoopAbandoned(Booted(s.world, target)), None, s.procs[p := Ended(false)])
  {
    actions := BootsLoop(s, p, target);
    AfterSnoc(s, actions, Crash(p));
    actions := actions + [Crash(p)];
  }

  /** The loops of a world that has been booted. */
  lemma BootedLoops(w: World, target: bool)
    ensures Booted(w, target).loops.live == w.loops.live[w.serial + 1 := w.installed]
    ensures Booted(w, target).serial == w.serial + 2
    ensures Booted(w, target).loops.file == w.loops.file && Booted(w, target).unmanaged == w.unmanaged
  {
  }

  /**
   * Two loops do coexist: from every state with the lock free, no server and no recorded loop there is a run of
   * two bootstraps, the first killed before it writes the loop's pid file and its server dead, that leaves two
   * more loops running.
   */
  lemma KilledBootstrapDoubles(s: System, p: nat, q: nat, target: bool) returns (actions: seq<Action>)
    requires s.lock.None? && p !in s.procs && q !in s.procs && p != q && Numbered(s.world)
    requires !Running(s.world) && !s.world.unmanaged && s.world.loops.file.None?
    ensures |After(s, actions).world.loops.live| == |s.world.loops.live| + 2
  {
    actions := BootsAndDies(s, p, target);
    var t := After(s, actions);
    BootedLoops(s.world, target);
    AfterSnoc(s, actions, Dies(TheRecorded));
    actions := actions + [Dies(TheRecorded)];
    var u := Do(t, Dies(TheRecorded));
    var more := BootsLoop(u, q, target);
    BootedLoops(u.world, target);
    AfterConcat(s, actions, more);
    actions := actions + more;
    Sizes(s.world.loops.live, s.world.serial + 1, s.world.installed);
    Sizes(u.world.loops.live, u.world.serial + 1, u.world.installed);
  }
}
