// codex-rs/app-server-daemon/src/lib.rs: the recorded server has the remote-control flag that is saved,
// except after a command that was cut off halfway.

module DaemonFlags {
  import opened Sequences
  import opened DaemonLifecycle

  /** A recorded server runs with the saved flag. */
  predicate Agree(w: World) {
    w.recorded.Some? ==> w.recorded.value.remoteControl == w.settings
  }

  /** After a new flag is saved and before the old server is gone. */
  predicate Unsettled(pc: Pc) {
    pc.SetBin? || pc.BootCheck? || pc.StopThenStart?
  }

  predicate Settled(s: System) {
    Unsettled(HolderPc(s)) || Agree(s.world)
  }

  /** Action `a` ends the lock holder between saving a new flag and stopping the server that has the old one. */
  predicate Strands(s: System, a: Action) {
    && (a.Crash? || (a.Run? && !a.choice.ok))
    && s.lock == Some(a.p) && Unsettled(HolderPc(s)) && !Agree(s.world)
  }

  ghost predicate FlagsEffect(w: World, pc: Pc, c: Choice) {
    var (w', pc') := Advance(w, pc, c);
    Unsettled(pc') || Agree(w') <==> !(Unsettled(pc) && !c.ok && !Agree(w))
  }

  lemma FlagsBackend(w: World, pc: Pc, c: Choice)
    requires Knows(w, pc) && (Unsettled(pc) || Agree(w)) && (InBackend(pc) || InStop(pc))
    ensures FlagsEffect(w, pc, c)
  {
  }

  lemma FlagsChange(w: World, pc: Pc, c: Choice)
    requires Knows(w, pc) && (Unsettled(pc) || Agree(w)) && (InSet(pc) || InBoot(pc))
    ensures FlagsEffect(w, pc, c)
  {
  }

  lemma FlagsRead(w: World, pc: Pc, c: Choice)
    requires Agree(w) && !InBackend(pc) && !InStop(pc) && !InSet(pc) && !InBoot(pc)
    ensures FlagsEffect(w, pc, c)
  {
    assert Advance(w, pc, c).0 == w;
  }

  lemma FlagsStep(w: World, pc: Pc, c: Choice)
    requires Knows(w, pc) && (Unsettled(pc) || Agree(w))
    ensures FlagsEffect(w, pc, c)
  {
    if InBackend(pc) || InStop(pc) {
      FlagsBackend(w, pc, c);
    } else if InSet(pc) || InBoot(pc) {
      FlagsChange(w, pc, c);
    } else {
      FlagsRead(w, pc, c);
    }
  }

  lemma SettledRun(s: System, p: nat, c: Choice)
    requires Safe(s) && Settled(s) && p in s.procs && Critical(s.procs[p])
    ensures Settled(Ran(s, p, c)) <==> !Strands(s, Run(p, c))
  {
    var pc := s.procs[p];
    FlagsStep(s.world, pc, c);
    var (w', pc') := Advance(s.world, pc, c);
    assert HolderPc(s) == pc;
    assert Ran(s, p, c).world == w';
    assert Unsettled(HolderPc(Ran(s, p, c))) <==> Unsettled(pc');
  }

  /** The saved flag stays the recorded server's flag exactly as long as no command is cut off halfway. */
  lemma SettledExactly(s: System, a: Action)
    requires Safe(s) && Settled(s)
    ensures Settled(Do(s, a)) <==> !Strands(s, a)
  {
    if a.Run? && a.p in s.procs && Critical(s.procs[a.p]) {
      SettledRun(s, a.p, a.choice);
    }
  }

  /** In every run that strands no server, whenever the lock is free the recorded server has the saved flag. */
  lemma {:induction false} FlagSaved(s: System, actions: seq<Action>)
    requires Safe(s) && Settled(s)
    requires forall i :: 0 <= i < |actions| ==> !Strands(After(s, actions[..i]), actions[i])
    ensures Settled(After(s, actions))
    ensures After(s, actions).lock.None? ==> Agree(After(s, actions).world)
  {
    if actions != [] {
      var front := Init(actions);
      assert forall i :: 0 <= i < |front| ==> front[..i] == actions[..i];
      FlagSaved(s, front);
      AlwaysSafe(s, front);
      assert actions[..|front|] == front;
      SettledExactly(After(s, front), Last(actions));
    }
  }

  // ---- Stranded servers ----

  lemma ChangeSteps(w: World, target: bool)
    requires Running(w) && target != w.settings
    ensures Advance(w, Begin(SetRemoteControl(target)), FINE) == (w, SetLoad(target, false))
    ensures Advance(w, SetLoad(target, false), FINE) == (w, SetCheck(w.settings, target, false))
    ensures Advance(w, SetCheck(w.settings, target, false), FINE) == (w, SetDecide(w.settings, target, true, false))
    ensures Advance(w, SetDecide(w.settings, target, true, false), FINE) ==
            (w.(settings := target), SetBin(target, false))
  {
  }

  /** A change of the flag under a recorded server, as far as saving the new flag. */
  function ChangeTrail(w: World, target: bool): (t: Trail)
    ensures |t| == 5
  {
    [(w, Begin(SetRemoteControl(target))), (w, SetLoad(target, false)), (w, SetCheck(w.settings, target, false)),
     (w, SetDecide(w.settings, target, true, false)), (w.(settings := target), SetBin(target, false))]
  }

  lemma ChangeLinked(w: World, target: bool)
    requires Running(w) && target != w.settings
    ensures Linked(ChangeTrail(w, target), FINE)
  {
    ChangeSteps(w, target);
  }

  lemma ChangeSaved(s: System, p: nat, target: bool) returns (actions: seq<Action>)
    requires s.lock.None? && p !in s.procs && Running(s.world) && target != s.world.settings
    ensures After(s, actions) == At(s, s.world.(settings := target), p, SetBin(target, false))
  {
    Locked(s, p, SetRemoteControl(target));
    ChangeLinked(s.world, target);
    Follow(s, p, ChangeTrail(s.world, target), FINE, 4);
    var first := [Launch(p, SetRemoteControl(target))] + [TryLock(p)];
    AfterConcat(s, first, Runs(p, FINE, 4));
    actions := first + Runs(p, FINE, 4);
  }

  /**
   * Stranding does happen: whenever the flag is changed under a recorded server, there is a run that
   * fails after the save and leaves the new flag saved, the old server running and the lock free.
   */
  lemma FailedChangeStrands(s: System, p: nat, target: bool) returns (actions: seq<Action>)
    requires s.lock.None? && p !in s.procs && Running(s.world) && Agree(s.world) && target != s.world.settings
    ensures After(s, actions) == System(s.world.(settings := target), None, s.procs[p := Ended(false)])
    ensures !Agree(After(s, actions).world)
  {
    actions := ChangeSaved(s, p, target);
    var w' := s.world.(settings := target);
    var fails := Choice(false, true, 0);
    Steps(s, p, w', SetBin(target, false), fails, w', Ended(false));
    AfterSnoc(s, actions, Run(p, fails));
    actions := actions + [Run(p, fails)];
  }

  /** What makes a stranded server agree again: that it is stopped or dies, or that its own flag is saved. */
  predicate Repairs(s: System, a: Action) {
    || a == Dies(TheRecorded)
    || (&& a.Run? && a.choice.ok && s.lock == Some(a.p)
        && var pc := HolderPc(s);
           || pc.StopThenStart? || pc.StopOnly?
           || ((pc.SetDecide? || pc.BootSave?) && pc.target != s.world.settings))
  }

  lemma RepairsRun(w: World, pc: Pc, c: Choice)
    requires Knows(w, pc) && !Agree(w) && Critical(pc)
    ensures Agree(Advance(w, pc, c).0) <==>
      c.ok && (pc.StopThenStart? || pc.StopOnly? || ((pc.SetDecide? || pc.BootSave?) && pc.target != w.settings))
  {
    if !InBackend(pc) && !InStop(pc) && !InSet(pc) && !InBoot(pc) {
      assert Advance(w, pc, c).0 == w;
    }
  }

  /** A stranded server is put right by exactly these actions, in every interleaving. */
  lemma RepairedExactly(s: System, a: Action)
    requires Safe(s) && !Agree(s.world)
    ensures Agree(Do(s, a).world) <==> Repairs(s, a)
  {
    if a.Run? && a.p in s.procs && Critical(s.procs[a.p]) {
      RepairsRun(s.world, s.procs[a.p], a.choice);
      assert Ran(s, a.p, a.choice).world == Advance(s.world, s.procs[a.p], a.choice).0;
    }
  }

  lemma SameFlagSteps(w: World, k: bool)
    requires Running(w)
    ensures var flag := w.settings;
      && Advance(w, SetLoad(flag, k), FINE) == (w, SetCheck(flag, flag, k))
      && Advance(w, SetCheck(flag, flag, k), FINE) == (w, SetDecide(flag, flag, true, k))
  {
  }

  lemma SameFlagWait(w: World, k: bool)
    ensures var flag := w.settings;
      && Advance(w, Begin(SetRemoteControl(flag)), FINE) == (w, SetLoad(flag, false))
      && Advance(w, SetDecide(flag, flag, true, k), FINE) == (w, AwaitReady(Then(k)))
      && Advance(w, AwaitReady(Then(k)), FINE) == (w, if k then Begin(Start) else Ended(true))
  {
  }

  lemma AnsweredStartSteps(w: World)
    requires Running(w)
    ensures Advance(w, Begin(Start), FINE) == (w, StartProbe(w.settings))
    ensures Advance(w, StartProbe(w.settings), FINE) == (w, Ended(true))
  {
  }

  lemma EnsureSteps(w: World)
    requires w.loops.file.Some?
    ensures Advance(w, Begin(EnsureRemoteControl), FINE) == (w, EnsureCheck)
    ensures Advance(w, EnsureCheck, FINE) == (w, SetLoad(true, true))
  {
  }

  /** A trail along which the world does not change. */
  function Idle(w: World, pcs: seq<Pc>): (t: Trail)
    ensures |t| == |pcs| && forall i :: 0 <= i < |pcs| ==> t[i] == (w, pcs[i])
  {
    seq(|pcs|, i requires 0 <= i < |pcs| => (w, pcs[i]))
  }

  function StartAgain(w: World): seq<Pc> {
    [Begin(Start), StartProbe(w.settings), Ended(true)]
  }

  function SetAgain(w: World): seq<Pc> {
    var flag := w.settings;
    [Begin(SetRemoteControl(flag)), SetLoad(flag, false), SetCheck(flag, flag, false),
     SetDecide(flag, flag, true, false), AwaitReady(Finish), Ended(true)]
  }

  function EnsureAgain(w: World): seq<Pc> {
    [Begin(EnsureRemoteControl), EnsureCheck, SetLoad(true, true), SetCheck(true, true, true),
     SetDecide(true, true, true, true), AwaitReady(RunStart), Begin(Start), StartProbe(true), Ended(true)]
  }

  lemma SetAgainLinked(w: World)
    requires Running(w)
    ensures Linked(Idle(w, SetAgain(w)), FINE)
  {
    SameFlagSteps(w, false);
    SameFlagWait(w, false);
  }

  lemma EnsureAgainLinked(w: World)
    requires Running(w) && w.settings && w.loops.file.Some?
    ensures Linked(Idle(w, EnsureAgain(w)), FINE)
  {
    EnsureSteps(w);
    SameFlagSteps(w, true);
    SameFlagWait(w, true);
    AnsweredStartSteps(w);
  }

  /**
   * Asking for what is already saved repairs nothing: `start`, setting the saved flag again, and
   * ensuring remote control that is already enabled all succeed and leave even a stranded server alone.
   */
  lemma StrandedIsNotRepaired(w: World)
    requires Running(w)
    ensures Linked(Idle(w, StartAgain(w)), FINE)
    ensures Linked(Idle(w, SetAgain(w)), FINE)
    ensures w.settings && w.loops.file.Some? ==> Linked(Idle(w, EnsureAgain(w)), FINE)
  {
    AnsweredStartSteps(w);
    SetAgainLinked(w);
    if w.settings && w.loops.file.Some? {
      EnsureAgainLinked(w);
    }
  }
}
