// codex-rs/app-server-daemon/src/lib.rs and backend/pid.rs: how many app servers can run at once,
// and that a server the pid file does not name is left alone.

module DaemonServers {
  import opened Sequences
  import opened DaemonLifecycle

  /** The app servers that commands have started and that are alive, recorded or not. */
  function Alive(w: World): nat {
    One(w.recorded.Some?) + One(w.spawned.Some?) + |w.orphans|
  }

  // ---- Who changes what ----

  /** Points whose step can start, record or stop a server. */
  predicate Handles(pc: Pc) {
    pc.StartServer? || pc.Publish? || pc.StopThenStart? || pc.StopOnly?
  }

  predicate SameServers(w: World, w': World) {
    w'.recorded == w.recorded && w'.spawned == w.spawned && w'.orphans == w.orphans
  }

  lemma OthersKeepServers(w: World, pc: Pc, c: Choice)
    requires !Handles(pc)
    ensures SameServers(w, Advance(w, pc, c).0)
  {
  }

  /** Only these points save settings. */
  lemma OthersKeepSettings(w: World, pc: Pc, c: Choice)
    requires !pc.SetDecide? && !pc.BootSave?
    ensures Advance(w, pc, c).0.settings == w.settings
  {
  }

  /** Action `a` ends a starter between spawning a server and recording it. */
  predicate Abandons(s: System, a: Action) {
    && (a.Crash? || (a.Run? && !a.choice.ok))
    && a.p in s.procs && s.procs[a.p].Publish? && s.world.spawned.Some?
  }

  /**
   * Settings change and servers are spawned, recorded and stopped only by a step of the lock holder; a
   * server is spawned only while the pid file names none, and abandoned only by cutting off its starter.
   */
  lemma OnlyHolderChanges(s: System, a: Action)
    requires Safe(s)
    ensures var w, w' := s.world, Do(s, a).world;
      && (w'.settings != w.settings ==> a.Run? && s.lock == Some(a.p))
      && (w'.spawned.Some? && w'.spawned != w.spawned ==>
            a.Run? && s.lock == Some(a.p) && s.procs[a.p].StartServer? && !Running(w))
      && (w'.recorded.Some? && w'.recorded != w.recorded ==>
            a.Run? && s.lock == Some(a.p) && s.procs[a.p].Publish? && w'.recorded == w.spawned)
      && (w'.recorded.None? && w.recorded.Some? && a != Dies(TheRecorded) ==>
            a.Run? && s.lock == Some(a.p) && (s.procs[a.p].StopThenStart? || s.procs[a.p].StopOnly?))
      && (|w'.orphans| > |w.orphans| ==> Abandons(s, a) && s.lock == Some(a.p))
  {
    if a.Run? && a.p in s.procs && Critical(s.procs[a.p]) {
      if !Handles(s.procs[a.p]) { OthersKeepServers(s.world, s.procs[a.p], a.choice); }
      if !s.procs[a.p].SetDecide? && !s.procs[a.p].BootSave? { OthersKeepSettings(s.world, s.procs[a.p], a.choice); }
    }
  }

  // ---- At most one server, and exactly when not ----

  /** A server is spawned next to one whose starter was cut off before recording it. */
  predicate Doubles(s: System, a: Action) {
    && a.Run? && a.choice.ok && a.p in s.procs && s.procs[a.p].StartServer?
    && s.world.orphans != []
  }

  lemma AloneRun(w: World, pc: Pc, c: Choice)
    requires Knows(w, pc) && Alive(w) <= 1
    ensures Alive(Advance(w, pc, c).0) <= 1 <==> !(pc.StartServer? && c.ok && w.orphans != [])
  {
    if !Handles(pc) { OthersKeepServers(w, pc, c); }
  }

  lemma AloneBereft(w: World, v: Victim)
    ensures Alive(Bereft(w, v)) <= Alive(w)
  {
  }

  lemma AloneKilled(w: World, pc: Pc)
    ensures Alive(Killed(w, pc)) == Alive(w)
  {
  }

  /** One action ends the reign of a single server exactly if it spawns one while an abandoned one lives. */
  lemma AloneExactly(s: System, a: Action)
    requires Safe(s) && Alive(s.world) <= 1
    ensures Alive(Do(s, a).world) <= 1 <==> !Doubles(s, a)
  {
    match a {
      case Run(p, c) =>
        if p in s.procs && Critical(s.procs[p]) {
          AloneRun(s.world, s.procs[p], c);
          assert Ran(s, p, c).world == Advance(s.world, s.procs[p], c).0;
        }
      case Crash(p) => if p in s.procs { AloneKilled(s.world, s.procs[p]); }
      case Dies(v) => AloneBereft(s.world, v);
      case _ =>
    }
  }

  lemma {:induction false} AloneUpTo(s: System, actions: seq<Action>, n: nat)
    requires Safe(s) && Alive(s.world) <= 1 && n <= |actions|
    requires forall i :: 0 <= i < |actions| ==> !Doubles(After(s, actions[..i]), actions[i])
    ensures Alive(After(s, actions[..n]).world) <= 1
  {
    if n > 0 {
      AloneUpTo(s, actions, n - 1);
      AlwaysSafe(s, actions[..n - 1]);
      AfterPrefix(s, actions, n - 1);
      AloneExactly(After(s, actions[..n - 1]), actions[n - 1]);
    }
  }

  /** Over every run: there is at most one server throughout, if and only if no step spawns next to an abandoned one. */
  lemma {:induction false} AloneThroughout(s: System, actions: seq<Action>)
    requires Safe(s) && Alive(s.world) <= 1
    ensures (forall n :: 0 <= n <= |actions| ==> Alive(After(s, actions[..n]).world) <= 1)
       <==> (forall i :: 0 <= i < |actions| ==> !Doubles(After(s, actions[..i]), actions[i]))
  {
    if forall n :: 0 <= n <= |actions| ==> Alive(After(s, actions[..n]).world) <= 1 {
      forall i | 0 <= i < |actions| ensures !Doubles(After(s, actions[..i]), actions[i]) {
        AlwaysSafe(s, actions[..i]);
        AfterPrefix(s, actions, i);
        assert Alive(After(s, actions[..i + 1]).world) <= 1;
        AloneExactly(After(s, actions[..i]), actions[i]);
      }
    }
    if forall i :: 0 <= i < |actions| ==> !Doubles(After(s, actions[..i]), actions[i]) {
      forall n | 0 <= n <= |actions| ensures Alive(After(s, actions[..n]).world) <= 1 {
        AloneUpTo(s, actions, n);
      }
    }
  }

  lemma AtMostRecorded(s: System)
    requires Safe(s) && s.world.orphans == []
    ensures Alive(s.world) <= 1
  {
    if s.lock.Some? {
      assert Knows(s.world, s.procs[s.lock.value]);
    }
  }

  /** So two servers never coexist in a run that cuts off no starter between spawning and recording. */
  lemma {:induction false} NeverTwo(s: System, actions: seq<Action>)
    requires Safe(s) && s.world.orphans == []
    requires forall i :: 0 <= i < |actions| ==> !Abandons(After(s, actions[..i]), actions[i])
    ensures After(s, actions).world.orphans == [] && Alive(After(s, actions).world) <= 1
  {
    AlwaysSafe(s, actions);
    if actions != [] {
      var front := Init(actions);
      assert forall i :: 0 <= i < |front| ==> front[..i] == actions[..i];
      NeverTwo(s, front);
      AlwaysSafe(s, front);
      assert actions[..|front|] == front;
      OnlyHolderChanges(After(s, front), Last(actions));
    }
    AtMostRecorded(After(s, actions));
  }

  // ---- A server the pid file does not name, but that answers ----

  /** Points of every command but `start` at which nothing has been changed yet. */
  predicate Guarded(pc: Pc) {
    match pc
    case Waiting(command) => !command.Start?
    case Begin(command) => !command.Start?
    case RestartProbe(_) => true
    case RestartOwned(_) => true
    case StopCheck => true
    case StopProbe => true
    case EnsureCheck => true
    case SetLoad(_, _) => true
    case SetCheck(_, _, _) => true
    case SetProbe(_, _, _) => true
    case BootBin(_) => true
    case BootProbe(_) => true
    case BootOwned(_) => true
    case UpdateCheck(_, _) => true
    case UpdateUnmanaged(_) => true
    case _ => false
  }

  function Rank(pc: Pc): nat {
    if pc.Begin? then 6 else if pc.EnsureCheck? then 5 else if pc.SetLoad? || pc.BootBin? then 4
    else if pc.SetCheck? || pc.BootProbe? || pc.RestartProbe? || pc.StopCheck? || pc.UpdateCheck? then 3 else 2
  }

  predicate Starting(pc: Pc) {
    pc == Begin(Start) || pc.StartProbe?
  }

  /** A step of a command while nothing is recorded and the probe is answered: no change, on the way to failure. */
  ghost predicate Refused(w: World, pc: Pc, w': World, pc': Pc) {
    && w' == w
    && (Guarded(pc) ==> pc' == Ended(false) || (Guarded(pc') && Critical(pc') && Rank(pc') < Rank(pc)))
    && (Starting(pc) ==> pc'.Ended? || Starting(pc'))
  }

  lemma RefusedReading(w: World, pc: Pc, c: Choice)
    requires !Running(w) && Answers(w, c) && Guarded(pc) && (InRestart(pc) || InUpdate(pc))
    ensures Refused(w, pc, Advance(w, pc, c).0, Advance(w, pc, c).1)
  {
  }

  lemma RefusedStop(w: World, pc: Pc, c: Choice)
    requires !Running(w) && Answers(w, c) && Guarded(pc) && InStop(pc)
    ensures Refused(w, pc, Advance(w, pc, c).0, Advance(w, pc, c).1)
  {
  }

  lemma RefusedSet(w: World, pc: Pc, c: Choice)
    requires !Running(w) && Answers(w, c) && Guarded(pc) && InSet(pc)
    ensures Refused(w, pc, Advance(w, pc, c).0, Advance(w, pc, c).1)
  {
  }

  lemma RefusedBoot(w: World, pc: Pc, c: Choice)
    requires !Running(w) && Answers(w, c) && Guarded(pc) && InBoot(pc)
    ensures Refused(w, pc, Advance(w, pc, c).0, Advance(w, pc, c).1)
  {
  }

  lemma RefusedBegin(w: World, pc: Pc, c: Choice)
    requires !Running(w) && Answers(w, c) && (Starting(pc) || (Guarded(pc) && (pc.Begin? || pc.EnsureCheck?)))
    ensures Refused(w, pc, Advance(w, pc, c).0, Advance(w, pc, c).1)
  {
  }

  lemma RefusedStep(w: World, pc: Pc, c: Choice)
    requires !Running(w) && Answers(w, c) && Critical(pc) && (Guarded(pc) || Starting(pc))
    ensures Refused(w, pc, Advance(w, pc, c).0, Advance(w, pc, c).1)
  {
    if InRestart(pc) || InUpdate(pc) {
      RefusedReading(w, pc, c);
    } else if InStop(pc) {
      RefusedStop(w, pc, c);
    } else if InSet(pc) {
      RefusedSet(w, pc, c);
    } else if InBoot(pc) {
      RefusedBoot(w, pc, c);
    } else {
      RefusedBegin(w, pc, c);
    }
  }

  /** No command has got past its checks. */
  ghost predicate NonePast(s: System) {
    forall p :: p in s.procs && Critical(s.procs[p]) ==> Guarded(s.procs[p]) || Starting(s.procs[p])
  }

  /** Nothing is recorded or being recorded, and no command has got past its checks. */
  ghost predicate HandsOff(s: System) {
    !Running(s.world) && s.world.spawned.None? && NonePast(s)
  }

  lemma HandsOffRun(s: System, p: nat, c: Choice)
    requires HandsOff(s) && p in s.procs && Critical(s.procs[p]) && Answers(s.world, c)
    ensures HandsOff(Ran(s, p, c)) && Ran(s, p, c).world == s.world
    ensures Guarded(s.procs[p]) ==> Guarded(Ran(s, p, c).procs[p]) || Ran(s, p, c).procs[p] == Ended(false)
    ensures Ran(s, p, c).procs == s.procs[p := Ran(s, p, c).procs[p]]
  {
    RefusedStep(s.world, s.procs[p], c);
    var (w', pc') := Advance(s.world, s.procs[p], c);
    assert Ran(s, p, c) == Moved(s, s.world, p, pc');
  }

  /** Every guarded command is still guarded or has failed. */
  ghost predicate StillRefused(s: System, t: System) {
    forall p :: p in s.procs && Guarded(s.procs[p]) ==>
      p in t.procs && (Guarded(t.procs[p]) || t.procs[p] == Ended(false))
  }

  lemma HandsOffStep(s: System, a: Action)
    requires HandsOff(s) && (a.Run? ==> Answers(s.world, a.choice))
    ensures HandsOff(Do(s, a)) && Do(s, a).world.settings == s.world.settings
    ensures |Do(s, a).world.orphans| <= |s.world.orphans| && StillRefused(s, Do(s, a))
  {
    if a.Run? && a.p in s.procs && Critical(s.procs[a.p]) {
      HandsOffRun(s, a.p, a.choice);
    }
  }

  lemma EndedStays(s: System, a: Action)
    ensures forall p :: p in s.procs && s.procs[p] == Ended(false) ==>
      p in Do(s, a).procs && Do(s, a).procs[p] == Ended(false)
  {
  }

  lemma ForeignStays(s: System, a: Action)
    requires s.world.unmanaged && HandsOff(s) && a != UnmanagedChanges(false)
    ensures Do(s, a).world.unmanaged
  {
    if a.Run? && a.p in s.procs && Critical(s.procs[a.p]) {
      HandsOffRun(s, a.p, a.choice);
    }
  }

  /**
   * While an unmanaged server answers, in every interleaving: restart, stop, bootstrap, remote-control
   * changes and updater restarts can only fail, and settings and servers stay as they were.
   */
  lemma {:induction false} ForeignServerUntouched(s: System, actions: seq<Action>)
    requires s.world.unmanaged && HandsOff(s) && UnmanagedChanges(false) !in actions
    ensures var t := After(s, actions);
      && t.world.unmanaged && HandsOff(t) && t.world.settings == s.world.settings
      && |t.world.orphans| <= |s.world.orphans| && StillRefused(s, t)
  {
    if actions != [] {
      var t := After(s, Init(actions));
      ForeignServerUntouched(s, Init(actions));
      assert Last(actions) in actions;
      ForeignStays(t, Last(actions));
      HandsOffStep(t, Last(actions));
      EndedStays(t, Last(actions));
    }
  }

  /** At most one server; while that is an abandoned one, no command has got past its checks. */
  ghost predicate Fenced(s: System) {
    Safe(s) && Alive(s.world) <= 1 && (s.world.orphans != [] ==> NonePast(s))
  }

  lemma FencedStep(s: System, a: Action)
    requires Fenced(s) && (a.Run? && s.world.orphans != [] ==> Answers(s.world, a.choice))
    ensures Fenced(Do(s, a))
  {
    SafeStep(s, a);
    if s.world.orphans != [] {
      HandsOffStep(s, a);
    } else {
      AloneExactly(s, a);
      OnlyHolderChanges(s, a);
    }
  }

  /**
   * An abandoned server does no harm while it answers: in every run in which probes of abandoned
   * servers are answered, there is at most one server, however many starters are cut off.
   */
  lemma {:induction false} AnsweringOrphansFenced(s: System, actions: seq<Action>)
    requires Fenced(s)
    requires forall i :: 0 <= i < |actions| && actions[i].Run? && After(s, actions[..i]).world.orphans != [] ==>
      actions[i].choice.ready
    ensures Fenced(After(s, actions))
  {
    if actions != [] {
      var front := Init(actions);
      assert forall i :: 0 <= i < |front| ==> front[..i] == actions[..i];
      AnsweringOrphansFenced(s, front);
      assert actions[..|front|] == front;
      FencedStep(After(s, front), Last(actions));
    }
  }

  // ---- Two servers at once ----

  lemma StartSteps(w: World)
    requires !Running(w) && !w.unmanaged
    ensures Advance(w, Begin(Start), QUIET) == (w, StartProbe(w.settings))
    ensures Advance(w, StartProbe(w.settings), QUIET) == (w, StartCheck(w.settings))
    ensures Advance(w, StartCheck(w.settings), QUIET) == (w, StartBin(w.settings))
    ensures Advance(w, StartBin(w.settings), QUIET) == (w, StartServer(w.settings, Finish))
  {
  }

  /** `start`, while nothing answers, as far as the spawn. */
  function StartTrail(w: World): (t: Trail)
    ensures |t| == 6
  {
    [(w, Begin(Start)), (w, StartProbe(w.settings)), (w, StartCheck(w.settings)), (w, StartBin(w.settings)),
     (w, StartServer(w.settings, Finish)), (Spawned(w, w.settings, w.installed), Publish(Finish))]
  }

  lemma StartLinked(w: World)
    requires !Running(w) && !w.unmanaged
    ensures Linked(StartTrail(w), QUIET)
  {
    StartSteps(w);
    var t := StartTrail(w);
    forall i | 0 <= i < |t| - 1 ensures Link(t, QUIET, i) {
      if i == 4 { assert t[i] == (w, StartServer(w.settings, Finish)); }
    }
  }

  lemma Spawns(s: System, p: nat) returns (actions: seq<Action>)
    requires s.lock.None? && p !in s.procs && !Running(s.world) && !s.world.unmanaged
    ensures After(s, actions) == At(s, Spawned(s.world, s.world.settings, s.world.installed), p, Publish(Finish))
    ensures Gentle(actions)
  {
    Locked(s, p, Start);
    StartLinked(s.world);
    Follow(s, p, StartTrail(s.world), QUIET, 5);
    RunsGentle(p, QUIET, 5);
    var first := [Launch(p, Start)] + [TryLock(p)];
    AfterConcat(s, first, Runs(p, QUIET, 5));
    actions := first + Runs(p, QUIET, 5);
  }

  /** A `start` that is killed before it has written the pid file. */
  lemma SpawnsAndDies(s: System, p: nat) returns (actions: seq<Action>)
    requires s.lock.None? && p !in s.procs && !Running(s.world) && !s.world.unmanaged
    ensures var w := Spawned(s.world, s.world.settings, s.world.installed);
            After(s, actions) == System(Abandoned(w), None, s.procs[p := Ended(false)])
  {
    actions := Spawns(s, p);
    AfterSnoc(s, actions, Crash(p));
    actions := actions + [Crash(p)];
  }

  /** A `start` that succeeds. */
  lemma Starts(s: System, p: nat) returns (actions: seq<Action>)
    requires s.lock.None? && p !in s.procs && !Running(s.world) && s.world.spawned.None? && !s.world.unmanaged
    ensures var server := Server(s.world.settings, s.world.installed.version, s.world.serial);
      After(s, actions) ==
      System(s.world.(recorded := Some(server), serial := s.world.serial + 1), None, s.procs[p := Ended(true)])
    ensures Gentle(actions)
  {
    actions := Spawns(s, p);
    var w := Spawned(s.world, s.world.settings, s.world.installed);
    var w' := w.(recorded := w.spawned, spawned := None);
    Steps(s, p, w, Publish(Finish), QUIET, w', AwaitReady(Finish));
    Steps(s, p, w', AwaitReady(Finish), QUIET, w', Ended(true));
    AfterSnoc(s, actions, Run(p, QUIET));
    AfterSnoc(s, actions + [Run(p, QUIET)], Run(p, QUIET));
    actions := actions + [Run(p, QUIET)] + [Run(p, QUIET)];
  }

  /**
   * Two servers do coexist: from every state with the lock free and no server there is a run of two
   * `start` commands, the first killed before it writes the pid file, that ends with two.
   */
  lemma KilledStartDoubles(s: System, p: nat, q: nat) returns (actions: seq<Action>)
    requires s.lock.None? && p !in s.procs && q !in s.procs && p != q
    requires Alive(s.world) == 0 && !s.world.unmanaged
    ensures var t := After(s, actions).world; t.recorded.Some? && Alive(t) == 2
  {
    actions := SpawnsAndDies(s, p);
    var t := After(s, actions);
    var more := Starts(t, q);
    AfterConcat(s, actions, more);
    actions := actions + more;
  }
}
