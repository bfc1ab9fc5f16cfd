// codex-rs/app-server-daemon/src/update_loop.rs: from which states the update loops restart the server or re-exec
// more often than once, and from which they never stop restarting it.

module DaemonLagging {
  import opened Sequences
  import opened DaemonLifecycle
  import opened DaemonServers
  import opened DaemonUpdater
  import opened DaemonLoops
  import opened DaemonReexecs
  import opened DaemonSettling

  lemma GentleQuiet(s: System, actions: seq<Action>)
    requires Gentle(actions)
    ensures QuietRun(s, actions) && NoInstall(actions)
  {
    forall i | 0 <= i < |actions| ensures Quiescent(After(s, actions[..i]), actions[i]) {
      assert actions[i] in actions;
    }
  }

  // ---- Counting ----

  lemma CountSnoc(s: System, actions: seq<Action>, a: Action)
    ensures Restarts(s, actions + [a]) == Restarts(s, actions) + One(RestartsAt(After(s, actions), a))
    ensures Reexecs(s, actions + [a]) == Reexecs(s, actions) + One(ReexecsAt(After(s, actions), a))
  {
    assert Init(actions + [a]) == actions;
  }

  lemma SplitEnd(xs: seq<Action>, ys: seq<Action>)
    requires ys != []
    ensures xs + ys != [] && Init(xs + ys) == xs + Init(ys) && Last(xs + ys) == Last(ys)
  {
  }

  lemma {:induction false} CountConcat(s: System, xs: seq<Action>, ys: seq<Action>)
    ensures Restarts(s, xs + ys) == Restarts(s, xs) + Restarts(After(s, xs), ys)
    ensures Reexecs(s, xs + ys) == Reexecs(s, xs) + Reexecs(After(s, xs), ys)
  {
    if ys == [] {
      assert xs + ys == xs;
    } else {
      SplitEnd(xs, ys);
      CountConcat(s, xs, Init(ys));
      AfterConcat(s, xs, Init(ys));
    }
  }

  /** One gentle run and then another. */
  lemma Composed(s: System, xs: seq<Action>, ys: seq<Action>) returns (actions: seq<Action>)
    requires Gentle(xs) && Gentle(ys)
    ensures Gentle(actions) && After(s, actions) == After(After(s, xs), ys)
    ensures Restarts(s, actions) == Restarts(s, xs) + Restarts(After(s, xs), ys)
    ensures Reexecs(s, actions) == Reexecs(s, xs) + Reexecs(After(s, xs), ys)
  {
    AfterConcat(s, xs, ys);
    CountConcat(s, xs, ys);
    actions := xs + ys;
  }

  /** One action, and then the run `more`. */
  lemma Prefixed(s: System, a: Action, more: seq<Action>) returns (actions: seq<Action>)
    requires Gentle([a]) && Gentle(more)
    ensures Gentle(actions) && After(s, actions) == After(Do(s, a), more)
    ensures Restarts(s, actions) >= Restarts(Do(s, a), more) && Reexecs(s, actions) >= Reexecs(Do(s, a), more)
  {
    AfterOne(s, a);
    actions := Composed(s, [a], more);
  }

  lemma {:induction false} FreshId(ids: set<nat>) returns (id: nat)
    ensures forall x :: x in ids ==> x < id
  {
    if ids == {} {
      id := 0;
    } else {
      var x :| x in ids;
      var rest := FreshId(ids - {x});
      id := if x < rest then rest else x + 1;
      assert forall y :: y in ids ==> y == x || y in ids - {x};
    }
  }

  // ---- One turn that restarts the server ----

  /** With this choice the turn finds a server that it will restart. */
  predicate WillRestart(w: World, plan: Plan, c: Choice) {
    && Running(w) && w.spawned.None? && c.ok
    && (plan.forced || (Answers(w, c) && ProbedVersion(w, c) != plan.pin.version))
  }

  /** The server is one of the build that the turn resolved. */
  function Replaced(w: World, plan: Plan): World {
    w.(recorded := Some(Server(w.settings, plan.pin.version, w.serial)), serial := w.serial + 1)
  }

  function TurnedOver(w: World, plan: Plan): World {
    if plan.forced then Reexeced(Replaced(w, plan), plan) else Replaced(w, plan)
  }

  function DecideTrail(w: World, plan: Plan): (t: Trail)
    ensures |t| == 5
  {
    [(w, Begin(RestartIfRunning(plan))), (w, UpdateCheck(w.settings, plan)), (w, UpdateProbe(w.settings, plan)),
     (w, StopThenStart(w.settings, AfterUpdate(plan))),
     (w.(recorded := None), StartServer(w.settings, AfterUpdate(plan)))]
  }

  lemma DecideSteps(w: World, plan: Plan, c: Choice)
    requires WillRestart(w, plan, c)
    ensures var flag, next := w.settings, AfterUpdate(plan);
      && Advance(w, Begin(RestartIfRunning(plan)), c) == (w, UpdateCheck(flag, plan))
      && Advance(w, UpdateCheck(flag, plan), c) == (w, UpdateProbe(flag, plan))
      && Advance(w, UpdateProbe(flag, plan), c) == (w, StopThenStart(flag, next))
      && Advance(w, StopThenStart(flag, next), c) == (w.(recorded := None), StartServer(flag, next))
  {
  }

  lemma DecideLinked(w: World, plan: Plan, c: Choice)
    requires WillRestart(w, plan, c)
    ensures Linked(DecideTrail(w, plan), c)
  {
    DecideSteps(w, plan, c);
  }

  function SpawnTrail(w: World, plan: Plan): (t: Trail)
    ensures |t| == 4
  {
    var flag, next, gone := w.settings, AfterUpdate(plan), w.(recorded := None);
    [(gone, StartServer(flag, next)), (Spawned(gone, flag, plan.pin), Publish(next)),
     (Replaced(w, plan), AwaitReady(next)), (TurnedOver(w, plan), Ended(true))]
  }

  lemma SpawnLinked(w: World, plan: Plan, c: Choice)
    requires w.spawned.None? && c.ok
    ensures Linked(SpawnTrail(w, plan), c)
  {
    var flag, next, gone := w.settings, AfterUpdate(plan), w.(recorded := None);
    assert Advance(gone, StartServer(flag, next), c) == (Spawned(gone, flag, plan.pin), Publish(next));
    assert Advance(Spawned(gone, flag, plan.pin), Publish(next), c) == (Replaced(w, plan), AwaitReady(next));
    assert Advance(Replaced(w, plan), AwaitReady(next), c) == (TurnedOver(w, plan), Ended(true));
  }

  /** The waiting turn gets as far as starting the new server. */
  lemma TurnDecides(s: System, p: nat, plan: Plan, c: Choice) returns (actions: seq<Action>)
    requires s.lock.None? && p in s.procs && s.procs[p] == Waiting(RestartIfRunning(plan))
    requires WillRestart(s.world, plan, c)
    ensures After(s, actions) ==
            At(s, s.world.(recorded := None), p, StartServer(s.world.settings, AfterUpdate(plan)))
    ensures Gentle(actions)
  {
    TakesLock(s, p);
    DecideLinked(s.world, plan, c);
    Follow(s, p, DecideTrail(s.world, plan), c, 4);
    RunsGentle(p, c, 4);
    actions := Composed(s, [TryLock(p)], Runs(p, c, 4));
  }

  /** From there it starts the server and, if forced, re-execs its loop. */
  lemma TurnSpawns(s: System, w: World, p: nat, plan: Plan, c: Choice)
    requires w.spawned.None? && c.ok
    ensures var start := At(s, w.(recorded := None), p, StartServer(w.settings, AfterUpdate(plan)));
      && After(start, Runs(p, c, 3)) == At(s, TurnedOver(w, plan), p, Ended(true))
      && Restarts(start, Runs(p, c, 3)) >= 1 && Reexecs(start, Runs(p, c, 3)) >= One(plan.forced)
  {
    var t := SpawnTrail(w, plan);
    var start := At(s, t[0].0, p, t[0].1);
    SpawnLinked(w, plan, c);
    Follow(s, p, t, c, 0);
    Follow(s, p, t, c, 2);
    Follow(s, p, t, c, 3);
    CountSnoc(start, Runs(p, c, 0), Run(p, c));
    CountSnoc(start, Runs(p, c, 1), Run(p, c));
    CountSnoc(start, Runs(p, c, 2), Run(p, c));
  }

  lemma TurnRestarts(s: System, p: nat, plan: Plan, c: Choice) returns (actions: seq<Action>)
    requires s.lock.None? && p in s.procs && s.procs[p] == Waiting(RestartIfRunning(plan))
    requires WillRestart(s.world, plan, c)
    ensures After(s, actions) == System(TurnedOver(s.world, plan), None, s.procs[p := Ended(true)])
    ensures Gentle(actions) && Restarts(s, actions) >= 1 && Reexecs(s, actions) >= One(plan.forced)
  {
    var first := TurnDecides(s, p, plan, c);
    TurnSpawns(s, s.world, p, plan, c);
    RunsGentle(p, c, 3);
    actions := Composed(s, first, Runs(p, c, 3));
  }

  // ---- Setting the scene ----

  /** All processes are where they were; those that are new have ended. */
  ghost predicate Extended(s: System, t: System) {
    && (forall p :: p in s.procs ==> p in t.procs && t.procs[p] == s.procs[p])
    && (forall p :: p in t.procs && p !in s.procs ==> t.procs[p].Ended?)
  }

  /** A server of the installed build, and none that is not ours. */
  function Renewed(w: World): World {
    var server := Server(w.settings, w.installed.version, w.serial);
    w.(recorded := Some(server), unmanaged := false, serial := w.serial + 1)
  }

  /** The recorded server dies, an unmanaged one goes away, and a new process starts one of the installed build. */
  lemma ServerRenewed(s: System) returns (actions: seq<Action>)
    requires s.lock.None? && s.world.spawned.None?
    ensures var t := After(s, actions); t.lock.None? && t.world == Renewed(s.world) && Extended(s, t)
    ensures Gentle(actions)
  {
    var q := FreshId(s.procs.Keys);
    assert q !in s.procs;
    var t := Do(s, UnmanagedChanges(false));
    var u := Do(t, Dies(TheRecorded));
    actions := Starts(u, q);
    actions := Prefixed(t, Dies(TheRecorded), actions);
    actions := Prefixed(s, UnmanagedChanges(false), actions);
  }

  /** The turns of loops other than `l` are where they were. */
  ghost predicate KeepsTurns(s: System, t: System, l: nat) {
    forall k, q :: k != l ==>
      (InTurn(t, k, q) <==> InTurn(s, k, q)) && (InTurn(s, k, q) ==> t.procs[q] == s.procs[q])
  }

  lemma ExtendedKeeps(s: System, t: System, l: nat)
    requires Extended(s, t)
    ensures KeepsTurns(s, t, l) && forall q :: InTurn(t, l, q) <==> InTurn(s, l, q)
  {
  }

  lemma TurnWaits(s: System, p: nat, l: nat)
    requires Looped(s) && s.lock.None? && InTurn(s, l, p)
    ensures s.procs[p].Waiting? && PcFor(s, l) == Some(s.procs[p]) && l in s.world.loops.live
  {
    PlanForIs(s, l, p);
  }

  /** Loop `l` gives up the turn it may be waiting in. */
  lemma TurnGivenUp(s: System, l: nat) returns (actions: seq<Action>)
    requires Looped(s) && s.lock.None?
    ensures var t := After(s, actions);
      t == s.(procs := t.procs) && KeepsTurns(s, t, l) && (forall q :: !InTurn(t, l, q)) && t.procs.Keys == s.procs.Keys
    ensures Gentle(actions)
  {
    if p :| InTurn(s, l, p) {
      TurnWaits(s, p, l);
      AfterOne(s, GiveUp(p));
      actions := [GiveUp(p)];
      assert forall q :: InTurn(s, l, q) ==> SameLoop(s.procs[p], s.procs[q]);
    } else {
      actions := [];
    }
  }

  /** Loop `l` waits in a new turn. */
  lemma NewTurn(s: System, l: nat) returns (actions: seq<Action>, p: nat)
    requires Looped(s) && s.lock.None? && l in s.world.loops.live
    ensures var t := After(s, actions);
      && t == s.(procs := t.procs) && KeepsTurns(s, t, l)
      && p in t.procs && t.procs[p] == Waiting(RestartIfRunning(NewPlan(s, l)))
    ensures Gentle(actions)
  {
    actions := TurnGivenUp(s, l);
    var t := After(s, actions);
    p := FreshId(t.procs.Keys);
    assert p !in t.procs;
    assert !TurnInProgress(t, l) by {
      if q :| q in t.procs && TurnOf(t.procs[q], l) { assert InTurn(t, l, q); }
    }
    AfterSnoc(s, actions, LaunchUpdate(p, l));
    actions := actions + [LaunchUpdate(p, l)];
  }

  // ---- Answers that do not come from the recorded server ----

  /** A probe may be answered by another server than the recorded one. */
  predicate Noise(w: World) {
    w.orphans != [] || w.unmanaged
  }

  /** An answer of another version than the installed one. */
  function Misled(w: World): Choice {
    Choice(true, true, w.installed.version + 1)
  }

  /** Turn after turn of loop `l` is told of another version, and restarts the server. */
  lemma {:induction false} NoisyTurns(s: System, l: nat, n: nat) returns (actions: seq<Action>)
    requires Looped(s) && s.lock.None? && l in s.world.loops.live && Running(s.world) && Noise(s.world)
    ensures Gentle(actions) && Restarts(s, actions) >= n
    decreases n
  {
    if n == 0 {
      actions := [];
    } else {
      var first, p := NewTurn(s, l);
      var t := After(s, first);
      var turn := TurnRestarts(t, p, NewPlan(s, l), Misled(s.world));
      var u := After(t, turn);
      AlwaysLooped(s, first);
      AlwaysLooped(t, turn);
      var more := NoisyTurns(u, l, n - 1);
      more := Composed(t, turn, more);
      actions := Composed(s, first, more);
    }
  }

  /** A bootstrap over a running server, as far as starting the new one. */
  function OverTrail(w: World, target: bool): (t: Trail)
    ensures |t| == 8
  {
    var saved := w.(settings := target);
    [(w, Begin(Bootstrap(target))), (w, BootBin(target)), (w, BootProbe(target)), (w, BootOwned(target)),
     (w, BootSave(target)), (saved, BootCheck(target)), (saved, StopThenStart(target, StartUpdater)),
     (saved.(recorded := None), StartServer(target, StartUpdater))]
  }

  lemma OverSteps(w: World, target: bool)
    requires Running(w)
    ensures Advance(w, Begin(Bootstrap(target)), FINE) == (w, BootBin(target))
    ensures Advance(w, BootBin(target), FINE) == (w, BootProbe(target))
    ensures Advance(w, BootProbe(target), FINE) == (w, BootOwned(target))
    ensures Advance(w, BootOwned(target), FINE) == (w, BootSave(target))
  {
  }

  lemma OverSaveSteps(w: World, target: bool)
    requires Running(w)
    ensures var saved := w.(settings := target);
      && Advance(w, BootSave(target), FINE) == (saved, BootCheck(target))
      && Advance(saved, BootCheck(target), FINE) == (saved, StopThenStart(target, StartUpdater))
      && Advance(saved, StopThenStart(target, StartUpdater), FINE) ==
         (saved.(recorded := None), StartServer(target, StartUpdater))
  {
  }

  lemma OverLinked(w: World, target: bool)
    requires Running(w)
    ensures Linked(OverTrail(w, target), FINE)
  {
    OverSteps(w, target);
    OverSaveSteps(w, target);
  }

  lemma OverChecks(s: System, p: nat, target: bool) returns (actions: seq<Action>)
    requires s.lock.None? && p !in s.procs && Running(s.world)
    ensures After(s, actions) ==
            At(s, s.world.(settings := target, recorded := None), p, StartServer(target, StartUpdater))
    ensures Gentle(actions)
  {
    Locked(s, p, Bootstrap(target));
    OverLinked(s.world, target);
    Follow(s, p, OverTrail(s.world, target), FINE, 7);
    RunsGentle(p, FINE, 7);
    actions := Composed(s, [Launch(p, Bootstrap(target))] + [TryLock(p)], Runs(p, FINE, 7));
  }

  lemma BootsOver(s: System, p: nat, target: bool) returns (actions: seq<Action>)
    requires s.lock.None? && p !in s.procs && Running(s.world) && s.world.loops.file.None?
    ensures After(s, actions) == At(s, Booted(s.world.(recorded := None), target), p, PublishLoop)
    ensures Gentle(actions)
  {
    var w := s.world.(recorded := None);
    actions := OverChecks(s, p, target);
    BootLinked(w, target);
    Follow(s, p, BootTrail(w, target), QUIET, 4);
    RunsGentle(p, QUIET, 4);
    assert BootTrail(w, target)[0].0 == s.world.(settings := target, recorded := None);
    actions := Composed(s, actions, Runs(p, QUIET, 4));
  }

  function LoopRecorded(w: World): World {
    w.(loops := w.loops.(file := w.loops.spawned, spawned := None))
  }

  lemma LoopPublished(s: System, w: World, p: nat)
    ensures After(At(s, w, p, PublishLoop), Runs(p, FINE, 2)) == At(s, LoopRecorded(w), p, Ended(true))
  {
    var t := [(w, PublishLoop), (LoopRecorded(w), AwaitReady(Finish)), (LoopRecorded(w), Ended(true))];
    assert Advance(w, PublishLoop, FINE) == t[1];
    assert Advance(LoopRecorded(w), AwaitReady(Finish), FINE) == t[2];
    Follow(s, p, t, FINE, 2);
  }

  /** A bootstrap adds a loop, and makes no less noise. */
  lemma BootedNoise(w: World, target: bool)
    ensures var w' := LoopRecorded(Booted(w, target));
      w.serial + 1 in w'.loops.live && Running(w') && w'.orphans == w.orphans && w'.unmanaged == w.unmanaged
  {
    BootedLoops(w, target);
  }

  /** A bootstrap over a running server where no loop is recorded. */
  lemma BootsThrough(s: System, p: nat, target: bool) returns (actions: seq<Action>)
    requires s.lock.None? && p !in s.procs && Running(s.world) && s.world.loops.file.None?
    ensures After(s, actions) == At(s, LoopRecorded(Booted(s.world.(recorded := None), target)), p, Ended(true))
    ensures Gentle(actions)
  {
    var first := BootsOver(s, p, target);
    LoopPublished(s, Booted(s.world.(recorded := None), target), p);
    RunsGentle(p, FINE, 2);
    actions := Composed(s, first, Runs(p, FINE, 2));
  }

  /** A bootstrap over a running server where there is no loop. */
  lemma LoopBooted(s: System) returns (actions: seq<Action>, l: nat)
    requires Looped(s) && s.lock.None? && Running(s.world) && s.world.loops.live == map[]
    ensures var w := After(s, actions).world;
      l in w.loops.live && Running(w) && w.orphans == s.world.orphans && w.unmanaged == s.world.unmanaged
    ensures After(s, actions).lock.None? && Gentle(actions)
  {
    var p := FreshId(s.procs.Keys);
    assert p !in s.procs;
    actions := BootsThrough(s, p, s.world.settings);
    l := s.world.serial + 1;
    BootedNoise(s.world.(recorded := None), s.world.settings);
  }

  /** A probe of the recorded server may be answered by another one, now or after the next start. */
  predicate Noisy(s: System) {
    s.world.orphans != [] || (s.world.unmanaged && Running(s.world))
  }

  lemma RunningRestartsForever(s: System, n: nat) returns (actions: seq<Action>)
    requires Looped(s) && s.lock.None? && Running(s.world) && Noise(s.world)
    ensures Gentle(actions) && Restarts(s, actions) >= n
  {
    if l :| l in s.world.loops.live {
      actions := NoisyTurns(s, l, n);
    } else {
      assert s.world.loops.live == map[];
      var first, k := LoopBooted(s);
      AlwaysLooped(s, first);
      actions := NoisyTurns(After(s, first), k, n);
      actions := Composed(s, first, actions);
    }
  }

  /** From a noisy state with the lock free there is a run with as many restarts as you like. */
  lemma NoisyRestartsForever(s: System, n: nat) returns (actions: seq<Action>)
    requires Looped(s) && s.lock.None? && Noisy(s)
    ensures Gentle(actions) && Restarts(s, actions) >= n
  {
    if Running(s.world) {
      actions := RunningRestartsForever(s, n);
    } else {
      var first := ServerRenewed(s);
      AlwaysLooped(s, first);
      actions := RunningRestartsForever(After(s, first), n);
      actions := Composed(s, first, actions);
    }
  }

  // ---- A turn that lags ----

  /** The waiting turn `p` with a server that it will restart: it does, and so does the next turn. */
  lemma RestartsTwice(s: System, p: nat, plan: Plan) returns (actions: seq<Action>)
    requires Looped(s) && s.lock.None? && p in s.procs && s.procs[p] == Waiting(RestartIfRunning(plan))
    requires WillRestart(s.world, plan, FINE) && plan.pin != s.world.installed
    ensures Gentle(actions) && Restarts(s, actions) >= 2
  {
    assert TurnOk(s.world, s.procs[p]);
    actions := TurnRestarts(s, p, plan, FINE);
    var t := After(s, actions);
    AlwaysLooped(s, actions);
    var launch, q := NewTurn(t, plan.loop);
    var more := TurnRestarts(After(t, launch), q, NewPlan(t, plan.loop), FINE);
    more := Composed(t, launch, more);
    actions := Composed(s, actions, more);
  }

  /** From every state with the lock free and no noise in which a turn lags, there is a run with two restarts. */
  lemma LaggingRestartsTwice(s: System, l: nat) returns (actions: seq<Action>)
    requires Looped(s) && s.lock.None? && s.world.orphans == [] && LagsRestart(s, l)
    ensures Gentle(actions) && Restarts(s, actions) >= 2
  {
    var p :| InTurn(s, l, p);
    TurnWaits(s, p, l);
    var plan, t := s.procs[p].command.plan, Do(s, UnmanagedChanges(false));
    if WillRestart(t.world, plan, FINE) {
      LoopedStep(s, UnmanagedChanges(false));
      actions := RestartsTwice(t, p, plan);
      actions := Prefixed(s, UnmanagedChanges(false), actions);
    } else {
      var first := ServerRenewed(s);
      AlwaysLooped(s, first);
      actions := RestartsTwice(After(s, first), p, plan);
      actions := Composed(s, first, actions);
    }
  }

  lemma QuietIsCalm(s: System)
    requires Looped(s) && s.lock.None? && !Noisy(s)
    ensures Calm(s)
  {
  }

  /** Some quiet run makes at least `n` restarts. */
  ghost predicate CanRestart(s: System, n: nat) {
    exists actions :: QuietRun(s, actions) && Restarts(s, actions) >= n
  }

  /** When the lock is free, there is no bound on the restarts exactly if the state is noisy. */
  lemma RestartsForeverExactly(s: System)
    requires Looped(s) && s.lock.None?
    ensures Noisy(s) <==> forall n :: CanRestart(s, n)
  {
    if Noisy(s) {
      forall n ensures CanRestart(s, n) {
        var actions := NoisyRestartsForever(s, n);
        GentleQuiet(s, actions);
      }
    } else {
      QuietIsCalm(s);
      var bound := 3 * |s.world.loops.live| + 2;
      forall actions | QuietRun(s, actions) ensures Restarts(s, actions) < bound {
        UpdaterSettles(s, actions);
      }
      assert !CanRestart(s, bound);
    }
  }

  lemma OnTimeSettles(s: System, actions: seq<Action>)
    requires Looped(s) && s.lock.None? && !Noisy(s) && !Lagging(s) && QuietRun(s, actions)
    ensures Restarts(s, actions) <= |s.world.loops.live|
  {
    QuietIsCalm(s);
    UpdaterSettles(s, actions);
  }

  /** When the lock is free and there is at most one loop: more than one restart a loop, exactly if noisy or lagging. */
  lemma SettlesExactly(s: System)
    requires Looped(s) && s.lock.None? && |s.world.loops.live| <= 1
    ensures CanRestart(s, |s.world.loops.live| + 1) <==> Noisy(s) || Lagging(s)
  {
    if Noisy(s) {
      var actions := NoisyRestartsForever(s, 2);
      GentleQuiet(s, actions);
    } else if l :| LagsRestart(s, l) {
      var actions := LaggingRestartsTwice(s, l);
      GentleQuiet(s, actions);
    } else {
      forall actions | QuietRun(s, actions) ensures Restarts(s, actions) <= |s.world.loops.live| {
        OnTimeSettles(s, actions);
      }
    }
  }

  /** A turn lags as soon as another version is installed while it waits for the lock. */
  lemma InstallMakesLag(s: System, l: nat, b: Binary)
    requires Looped(s) && s.lock.None? && PlanFor(s, l).Some? && PlanFor(s, l).value.pin.version != b.version
    ensures var t := Do(s, BinaryInstalled(b)); Looped(t) && t.lock.None? && LagsRestart(t, l)
  {
    var t := Do(s, BinaryInstalled(b));
    LoopedStep(s, BinaryInstalled(b));
    var p :| InTurn(s, l, p);
    assert InTurn(t, l, p);
    PlanForIs(s, l, p);
    TurnWaits(t, p, l);
  }

  // ---- Restarts that fail ----

  /** Quiescent, but for restarts that fail. */
  predicate Tolerable(s: System, a: Action) {
    !Abandons(s, a) && !a.BinaryInstalled? && a != UnmanagedChanges(true)
  }

  ghost predicate TolerableRun(s: System, actions: seq<Action>) {
    forall i :: 0 <= i < |actions| ==> Tolerable(After(s, actions[..i]), actions[i])
  }

  lemma AfterWithin(s: System, xs: seq<Action>, ys: seq<Action>, i: nat)
    requires i < |xs + ys|
    ensures After(s, (xs + ys)[..i]) ==
            if i < |xs| then After(s, xs[..i]) else After(After(s, xs), ys[..i - |xs|])
  {
    if i < |xs| {
      assert (xs + ys)[..i] == xs[..i];
    } else {
      assert (xs + ys)[..i] == xs + ys[..i - |xs|];
      AfterConcat(s, xs, ys[..i - |xs|]);
    }
  }

  lemma TolerableConcat(s: System, xs: seq<Action>, ys: seq<Action>)
    requires TolerableRun(s, xs) && TolerableRun(After(s, xs), ys)
    ensures TolerableRun(s, xs + ys)
  {
    forall i | 0 <= i < |xs + ys| ensures Tolerable(After(s, (xs + ys)[..i]), (xs + ys)[i]) {
      AfterWithin(s, xs, ys, i);
    }
  }

  lemma TolerableSnoc(s: System, xs: seq<Action>, a: Action)
    requires Gentle(xs) && Tolerable(After(s, xs), a)
    ensures TolerableRun(s, xs + [a])
  {
    GentleQuiet(s, xs);
    assert [a][..0] == [];
    assert TolerableRun(After(s, xs), [a]);
    TolerableConcat(s, xs, [a]);
  }

  /** The waiting turn restarts the server, which does not become ready. */
  lemma TurnFails(s: System, p: nat, plan: Plan) returns (actions: seq<Action>)
    requires s.lock.None? && p in s.procs && s.procs[p] == Waiting(RestartIfRunning(plan))
    requires WillRestart(s.world, plan, FINE)
    ensures After(s, actions) == System(Replaced(s.world, plan), None, s.procs[p := Ended(false)])
    ensures TolerableRun(s, actions) && Restarts(s, actions) >= 1
  {
    var first := TurnDecides(s, p, plan, FINE);
    var t := SpawnTrail(s.world, plan);
    var start := At(s, t[0].0, p, t[0].1);
    SpawnLinked(s.world, plan, FINE);
    Follow(s, p, t, FINE, 0);
    Follow(s, p, t, FINE, 2);
    CountSnoc(start, Runs(p, FINE, 0), Run(p, FINE));
    CountSnoc(start, Runs(p, FINE, 1), Run(p, FINE));
    RunsGentle(p, FINE, 2);
    actions := Composed(s, first, Runs(p, FINE, 2));
    var failure := Choice(false, false, 0);
    Steps(s, p, Replaced(s.world, plan), AwaitReady(AfterUpdate(plan)), failure, Replaced(s.world, plan), Ended(false));
    TolerableSnoc(s, actions, Run(p, failure));
    AfterSnoc(s, actions, Run(p, failure));
    CountSnoc(s, actions, Run(p, failure));
    actions := actions + [Run(p, failure)];
  }

  /** A loop that is not current never stops restarting the server while no restart becomes ready. */
  lemma {:induction false} FailingRestartsForever(s: System, l: nat, n: nat) returns (actions: seq<Action>)
    requires Looped(s) && s.lock.None? && Running(s.world)
    requires l in s.world.loops.live && s.world.loops.live[l] != s.world.installed
    ensures TolerableRun(s, actions) && Restarts(s, actions) >= n
    decreases n
  {
    if n == 0 {
      actions := [];
    } else {
      var first, p := NewTurn(s, l);
      var t := After(s, first);
      GentleQuiet(s, first);
      AlwaysLooped(s, first);
      var turn := TurnFails(t, p, NewPlan(s, l));
      AlwaysLooped(t, turn);
      var more := FailingRestartsForever(After(t, turn), l, n - 1);
      TolerableConcat(t, turn, more);
      TolerableConcat(s, first, turn + more);
      CountConcat(t, turn, more);
      CountConcat(s, first, turn + more);
      actions := first + (turn + more);
    }
  }

  // ---- As many re-execs as the budget allows ----

  lemma KeptPlan(s: System, t: System, l: nat, k: nat)
    requires OneTurnEach(s) && OneTurnEach(t) && KeepsTurns(s, t, l) && k != l
    ensures PlanFor(t, k) == PlanFor(s, k)
  {
    if q :| InTurn(s, k, q) {
      PlanForIs(s, k, q);
      PlanForIs(t, k, q);
    }
  }

  lemma KeepsTrans(s: System, t: System, u: System, l: nat)
    requires KeepsTurns(s, t, l) && KeepsTurns(t, u, l)
    ensures KeepsTurns(s, u, l)
  {
  }

  /** Loop `l` has a re-exec left: it waits, or can wait, in a forced turn. */
  lemma ForcedTurn(s: System, l: nat) returns (actions: seq<Action>, p: nat, plan: Plan)
    requires Looped(s) && s.lock.None? && ReexecsLeft(s.world, l, PlanFor(s, l)) > 0
    ensures var t := After(s, actions);
      && t == s.(procs := t.procs) && KeepsTurns(s, t, l)
      && p in t.procs && t.procs[p] == Waiting(RestartIfRunning(plan)) && plan.forced && plan.loop == l
    ensures ReexecsLeft(s.world, l, PlanFor(s, l)) == 1 + One(plan.pin != s.world.installed)
    ensures Gentle(actions)
  {
    if PlanFor(s, l).Some? && PlanFor(s, l).value.forced {
      p :| InTurn(s, l, p);
      TurnWaits(s, p, l);
      actions, plan := [], PlanFor(s, l).value;
    } else {
      actions, p := NewTurn(s, l);
      plan := NewPlan(s, l);
    }
  }

  /** The turn of loop `l` is over: `l` has one re-exec less to make, and the other loops as many as before. */
  lemma TurnedOverBudget(s: System, p: nat, plan: Plan)
    requires Looped(s) && p in s.procs && s.procs[p] == Waiting(RestartIfRunning(plan)) && plan.forced
    requires Looped(System(TurnedOver(s.world, plan), None, s.procs[p := Ended(true)]))
    ensures var t := System(TurnedOver(s.world, plan), None, s.procs[p := Ended(true)]);
      && KeepsTurns(s, t, plan.loop) && PlanFor(t, plan.loop).None?
      && t.world.loops.live == s.world.loops.live[plan.loop := plan.pin]
  {
    var t := System(TurnedOver(s.world, plan), None, s.procs[p := Ended(true)]);
    assert InTurn(s, plan.loop, p);
    if q :| InTurn(t, plan.loop, q) {
      assert SameLoop(s.procs[p], s.procs[q]);
      assert false;
    }
  }

  lemma SamePlan(s: System, t: System, l: nat)
    requires Looped(s) && Looped(t) && Extended(s, t)
    ensures PlanFor(t, l) == PlanFor(s, l)
  {
    ExtendedKeeps(s, t, l);
    if q :| InTurn(s, l, q) {
      PlanForIs(s, l, q);
      PlanForIs(t, l, q);
    }
  }

  lemma OneForced(s: System, l: nat) returns (actions: seq<Action>)
    requires Looped(s) && s.lock.None? && Running(s.world) && ReexecsLeft(s.world, l, PlanFor(s, l)) > 0
    ensures Gentle(actions) && Reexecs(s, actions) >= 1
    ensures var t := After(s, actions);
      && t.lock.None? && KeepsTurns(s, t, l) && t.world.installed == s.world.installed
      && s.world.serial <= t.world.serial
      && (forall k :: k != l && k in s.world.loops.live ==>
            k in t.world.loops.live && t.world.loops.live[k] == s.world.loops.live[k])
      && ReexecsLeft(s.world, l, PlanFor(s, l)) <= 1 + ReexecsLeft(t.world, l, PlanFor(t, l))
  {
    var first, p, plan := ForcedTurn(s, l);
    var t := After(s, first);
    AlwaysLooped(s, first);
    var turn := TurnRestarts(t, p, plan, FINE);
    AlwaysLooped(t, turn);
    TurnedOverBudget(t, p, plan);
    KeepsTrans(s, t, After(t, turn), l);
    actions := Composed(s, first, turn);
  }

  lemma BudgetLessOne(s: System, t: System, l: nat)
    requires Looped(s) && Looped(t) && KeepsTurns(s, t, l) && t.world.installed == s.world.installed
    requires s.world.serial <= t.world.serial && l in s.world.loops.live
    requires forall k :: k != l && k in s.world.loops.live ==>
      k in t.world.loops.live && t.world.loops.live[k] == s.world.loops.live[k]
    requires ReexecsLeft(s.world, l, PlanFor(s, l)) <= 1 + ReexecsLeft(t.world, l, PlanFor(t, l))
    ensures ReexecBudget(s) <= 1 + ReexecBudget(t)
  {
    var n := t.world.serial;
    NoneBeyond(s, n);
    forall k | k != l
      ensures ReexecsLeft(s.world, k, PlanFor(s, k)) <= ReexecsLeft(t.world, k, PlanFor(t, k))
    {
      KeptPlan(s, t, l, k);
    }
    SumBut(k => ReexecsLeft(s.world, k, PlanFor(s, k)), k => ReexecsLeft(t.world, k, PlanFor(t, k)), n, l);
  }

  /** One re-exec of loop `l`, out of the budget. */
  lemma OneReexec(s: System, l: nat) returns (actions: seq<Action>)
    requires Looped(s) && s.lock.None? && ReexecsLeft(s.world, l, PlanFor(s, l)) > 0
    ensures Gentle(actions) && Reexecs(s, actions) >= 1
    ensures After(s, actions).lock.None? && ReexecBudget(s) <= 1 + ReexecBudget(After(s, actions))
  {
    actions := ServerRenewed(s);
    var t := After(s, actions);
    AlwaysLooped(s, actions);
    ExtendedKeeps(s, t, l);
    SamePlan(s, t, l);
    var more := OneForced(t, l);
    var u := After(t, more);
    AlwaysLooped(t, more);
    KeepsTrans(s, t, u, l);
    BudgetLessOne(s, u, l);
    actions := Composed(s, actions, more);
  }

  /** From every state with the lock free there is a run with as many re-execs as the loops have left. */
  lemma {:induction false} ReexecsReached(s: System) returns (actions: seq<Action>)
    requires Looped(s) && s.lock.None?
    ensures Gentle(actions) && Reexecs(s, actions) >= ReexecBudget(s)
    decreases ReexecBudget(s)
  {
    if l :| ReexecsLeft(s.world, l, PlanFor(s, l)) > 0 {
      actions := OneReexec(s, l);
      GentleQuiet(s, actions);
      ReexecsBounded(s, actions);
      var more := ReexecsReached(After(s, actions));
      actions := Composed(s, actions, more);
    } else {
      actions := [];
      SumBeyond(l => ReexecsLeft(s.world, l, PlanFor(s, l)), 0, s.world.serial);
    }
  }

  /** When the lock is free, what the loops have left is exactly the greatest number of re-execs that a run can make. */
  lemma ReexecsExactly(s: System, n: nat)
    requires Looped(s) && s.lock.None?
    ensures (exists actions :: NoInstall(actions) && Reexecs(s, actions) >= n) <==> n <= ReexecBudget(s)
  {
    var best := ReexecsReached(s);
    GentleQuiet(s, best);
    forall actions | NoInstall(actions) ensures Reexecs(s, actions) <= ReexecBudget(s) {
      ReexecsBounded(s, actions);
    }
  }
}
