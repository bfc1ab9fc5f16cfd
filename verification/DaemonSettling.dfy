// codex-rs/app-server-daemon/src/update_loop.rs: once the managed binary stops changing, how often the update
// loops can still restart the server.

module DaemonSettling {
  import opened Sequences
  import opened DaemonLifecycle
  import opened DaemonServers
  import opened DaemonUpdater
  import opened DaemonLoops
  import opened DaemonReexecs

  // ---- What one loop still has to do ----

  /** Loop `l` is in no turn, or in one with nothing left to do. */
  predicate Resting(t: Option<Pc>) {
    t.Some? ==> PlanOf(t.value).Some? && PhaseOf(t.value) == Past
  }

  /** The restarts that loop `l` can still make on its own account: of its turn, and of the next one that is forced. */
  function RestartsLeft(w: World, l: nat, t: Option<Pc>): nat
    requires t.Some? ==> PlanOf(t.value).Some?
  {
    if l !in w.loops.live then 0
    else if Resting(t) then One(w.loops.live[l] != w.installed)
    else
      var plan := PlanOf(t.value).value;
      var next := One(plan.pin != w.installed);
      match PhaseOf(t.value)
      case Ahead => One(plan.forced || plan.pin.version != w.installed.version) + next
      case Committed => 1 + next
      case _ => next
  }

  /** The turn of `l` can still replace the server by one of another version than the installed one. */
  predicate MakesStale(w: World, l: nat, t: Option<Pc>) {
    && l in w.loops.live && t.Some? && PlanOf(t.value).Some?
    && (PhaseOf(t.value) == Ahead || PhaseOf(t.value) == Committed)
    && PlanOf(t.value).value.pin.version != w.installed.version
  }

  /** Loop `l` would restart a server of another version than the installed one without being forced to. */
  predicate Fixes(w: World, l: nat, t: Option<Pc>) {
    && l in w.loops.live
    && if Resting(t) then w.loops.live[l] == w.installed
       else
         && PlanOf(t.value).Some? && PhaseOf(t.value) == Ahead && !PlanOf(t.value).value.forced
         && PlanOf(t.value).value.pin.version == w.installed.version
  }

  /** Another loop is about, or can come to be while `l` lives on. */
  ghost predicate Crowded(w: World, l: nat) {
    w.loops.file != Some(l) || exists k :: k in w.loops.live && k != l
  }

  function Owes(w: World, l: nat, t: Option<Pc>, crowded: bool): nat
    requires t.Some? ==> PlanOf(t.value).Some?
  {
    RestartsLeft(w, l, t) + One(MakesStale(w, l, t) && crowded)
  }

  predicate CommittedTurn(pc: Pc) {
    PlanOf(pc).Some? && PhaseOf(pc) == Committed
  }

  /** A server of another version than the installed one is about, and no turn is committed to replacing it. */
  predicate Stale(w: World, holder: Pc) {
    !AllOf(w, w.installed.version) && !CommittedTurn(holder)
  }

  /** The lock holder is about to start a loop where there is no recorded one. */
  predicate Boots(w: World, holder: Pc) {
    || ((holder == Publish(StartUpdater) || holder.StopLoop?) && w.loops.file.None?)
    || holder.StartLoop? || holder.PublishLoop?
  }

  function TurnPc(pc: Pc): Option<Pc> {
    if PlanOf(pc).Some? then Some(pc) else None
  }

  // ---- A step of a turn ----

  /** Restart and what is owed after it are paid by what was owed before. */
  ghost predicate Pays(w: World, pc: Pc, c: Choice, w': World, pc': Pc, crowded: bool, other: bool)
    requires PlanOf(pc).Some?
  {
    var l := PlanOf(pc).value.loop;
    One(IsRestart(pc, c)) + Owes(w', l, TurnPc(pc'), crowded)
      + One(Stale(w', pc') && (other || Fixes(w', l, TurnPc(pc'))))
    <= Owes(w, l, Some(pc), crowded) + One(Stale(w, pc) && (other || Fixes(w, l, Some(pc))))
  }

  lemma BeginPays(w: World, pc: Pc, c: Choice, crowded: bool, other: bool)
    requires pc.Begin? && PlanOf(pc).Some? && TurnOk(w, pc)
    ensures Pays(w, pc, c, Advance(w, pc, c).0, Advance(w, pc, c).1, crowded, other)
  {
  }

  lemma UpdatePays(w: World, pc: Pc, c: Choice, crowded: bool, other: bool)
    requires InUpdate(pc) && TurnOk(w, pc) && w.orphans == [] && (pc.UpdateProbe? ==> !w.unmanaged)
    requires w.spawned.None?
    ensures Pays(w, pc, c, Advance(w, pc, c).0, Advance(w, pc, c).1, crowded, other)
  {
  }

  lemma BackendPays(w: World, pc: Pc, c: Choice, crowded: bool, other: bool)
    requires InBackend(pc) && pc.next.AfterUpdate? && Knows(w, pc) && TurnOk(w, pc) && c.ok && (other ==> crowded)
    ensures Pays(w, pc, c, Advance(w, pc, c).0, Advance(w, pc, c).1, crowded, other)
  {
  }

  lemma TurnPays(w: World, pc: Pc, c: Choice, crowded: bool, other: bool)
    requires Critical(pc) && PlanOf(pc).Some? && Knows(w, pc) && TurnOk(w, pc)
    requires PhaseOf(pc) == Committed || PhaseOf(pc) == Awaiting ==> c.ok
    requires w.orphans == [] && (pc.UpdateProbe? ==> !w.unmanaged) && (other ==> crowded)
    ensures Pays(w, pc, c, Advance(w, pc, c).0, Advance(w, pc, c).1, crowded, other)
  {
    if InUpdate(pc) {
      UpdatePays(w, pc, c, crowded, other);
    } else if InBackend(pc) {
      BackendPays(w, pc, c, crowded, other);
    } else {
      BeginPays(w, pc, c, crowded, other);
    }
  }

  // ---- All loops together ----

  ghost function OwesIn(s: System, l: nat): nat {
    Owes(s.world, l, PcFor(s, l), Crowded(s.world, l))
  }

  ghost predicate FixesIn(s: System, l: nat) {
    Fixes(s.world, l, PcFor(s, l))
  }

  ghost predicate Fixer(s: System) {
    Boots(s.world, HolderPc(s)) || exists l :: FixesIn(s, l)
  }

  /** The server that is about is one that some loop will replace. */
  ghost predicate Doomed(s: System) {
    Stale(s.world, HolderPc(s)) && Fixer(s)
  }

  /** The restarts that all loops together can still make. */
  ghost function RestartBudget(s: System): nat {
    Sum(l => OwesIn(s, l), s.world.serial) + One(Doomed(s))
  }

  lemma NothingOwedBeyond(s: System, n: nat)
    requires Numbered(s.world) && s.world.serial <= n
    ensures Sum(l => OwesIn(s, l), n) + One(Doomed(s)) == RestartBudget(s)
  {
    SumBeyond(l => OwesIn(s, l), s.world.serial, n);
  }

  /** All but one loop owe no more than before, and that one pays for what else there is. */
  lemma BudgetBut(s: System, t: System, k: nat, r: nat)
    requires Numbered(s.world) && s.world.serial <= t.world.serial && k < t.world.serial
    requires forall l :: l != k ==> OwesIn(t, l) <= OwesIn(s, l)
    requires r + OwesIn(t, k) + One(Doomed(t)) <= OwesIn(s, k) + One(Doomed(s))
    ensures r + RestartBudget(t) <= RestartBudget(s)
  {
    NothingOwedBeyond(s, t.world.serial);
    SumBut(l => OwesIn(t, l), l => OwesIn(s, l), t.world.serial, k);
  }

  lemma BudgetAll(s: System, t: System)
    requires Numbered(s.world) && s.world.serial <= t.world.serial && (Doomed(t) ==> Doomed(s))
    requires forall l :: OwesIn(t, l) <= OwesIn(s, l)
    ensures RestartBudget(t) <= RestartBudget(s)
  {
    NothingOwedBeyond(s, t.world.serial);
    SumLe(l => OwesIn(t, l), l => OwesIn(s, l), t.world.serial);
  }

  // ---- A step of a turn, among all loops ----

  /** What a step does to where the loops other than that of process `p` are. */
  lemma OthersStay(s: System, p: nat, c: Choice, l: nat)
    requires Looped(s) && p in s.procs && Critical(s.procs[p]) && !TurnOf(s.procs[p], l)
    ensures PcFor(Ran(s, p, c), l) == PcFor(s, l)
         || (s.procs[p].StopLoop? && c.ok && s.world.loops.file == Some(l) && PcFor(Ran(s, p, c), l).None?)
  {
    var t := Ran(s, p, c);
    LoopedRun(s, p, c);
    if q :| InTurn(t, l, q) {
      RunTurnStep(s, p, c, q);
      PlanForIs(t, l, q);
      assert InTurn(s, l, q);
      PlanForIs(s, l, q);
    } else if q :| InTurn(s, l, q) {
      assert !InTurn(t, l, q);
      assert t.procs[q] == Ended(false);
    }
  }

  lemma OwnTurnIs(s: System, p: nat, c: Choice, l: nat)
    requires Looped(s) && p in s.procs && Critical(s.procs[p]) && TurnOf(s.procs[p], l)
    ensures PcFor(s, l) == Some(s.procs[p]) && HolderPc(s) == s.procs[p]
    ensures PcFor(Ran(s, p, c), l) == TurnPc(Advance(s.world, s.procs[p], c).1)
  {
    var t := Ran(s, p, c);
    LoopedRun(s, p, c);
    assert InTurn(s, l, p);
    PlanForIs(s, l, p);
    assert t.procs[p] == Advance(s.world, s.procs[p], c).1;
    if PlanOf(t.procs[p]).Some? {
      RunTurnStep(s, p, c, p);
      assert InTurn(t, l, p);
      PlanForIs(t, l, p);
    } else if q :| InTurn(t, l, q) {
      RunTurnStep(s, p, c, q);
      assert false;
    }
  }

  lemma SameCrowd(w: World, w': World, l: nat)
    requires w'.loops.live.Keys == w.loops.live.Keys && w'.loops.file == w.loops.file
    ensures Crowded(w', l) == Crowded(w, l)
  {
    assert forall k :: k in w.loops.live <==> k in w'.loops.live;
  }

  lemma TurnLoops(s: System, p: nat, c: Choice, l: nat)
    requires Looped(s) && p in s.procs && Critical(s.procs[p]) && TurnOf(s.procs[p], l)
    ensures var w, w' := s.world, Ran(s, p, c).world;
      && w' == Advance(w, s.procs[p], c).0
      && w'.loops.live.Keys == w.loops.live.Keys && w'.loops.file == w.loops.file && w'.installed == w.installed
      && w.serial <= w'.serial && forall k :: k in w.loops.live && k != l ==> w'.loops.live[k] == w.loops.live[k]
  {
    LoopStep(s.world, s.procs[p], c);
    assert Ran(s, p, c).world == Advance(s.world, s.procs[p], c).0;
  }

  /** A step of a turn of `l` leaves all other loops with what they had to do. */
  lemma TurnLeavesOthers(s: System, p: nat, c: Choice, l: nat, k: nat)
    requires Looped(s) && p in s.procs && Critical(s.procs[p]) && TurnOf(s.procs[p], l) && k != l
    ensures OwesIn(Ran(s, p, c), k) == OwesIn(s, k) && FixesIn(Ran(s, p, c), k) == FixesIn(s, k)
  {
    TurnLoops(s, p, c, l);
    OthersStay(s, p, c, k);
    SameCrowd(s.world, Ran(s, p, c).world, k);
  }

  ghost predicate OtherFixes(s: System, l: nat) {
    exists k :: k != l && FixesIn(s, k)
  }

  lemma SameOtherFixes(s: System, p: nat, c: Choice, l: nat)
    requires Looped(s) && p in s.procs && Critical(s.procs[p]) && TurnOf(s.procs[p], l)
    ensures OtherFixes(Ran(s, p, c), l) == OtherFixes(s, l)
  {
    forall k | k != l ensures FixesIn(Ran(s, p, c), k) == FixesIn(s, k) {
      TurnLeavesOthers(s, p, c, l, k);
    }
  }

  /** With a turn of `l` at the lock, what dooms the server. */
  lemma DoomedIs(s: System, pc: Pc, l: nat)
    requires (HolderPc(s) == pc && PlanOf(pc).Some?) || (HolderPc(s) == Ended(true) && pc.Ended?)
    ensures Doomed(s) == (Stale(s.world, pc) && (OtherFixes(s, l) || FixesIn(s, l)))
  {
  }

  lemma UpdateGoesOn(w: World, pc: Pc, c: Choice)
    requires InUpdate(pc)
    ensures var pc' := Advance(w, pc, c).1; pc'.Ended? || (PlanOf(pc').Some? && Critical(pc'))
  {
  }

  lemma BackendGoesOn(w: World, pc: Pc, c: Choice)
    requires InBackend(pc) && pc.next.AfterUpdate?
    ensures var pc' := Advance(w, pc, c).1; pc'.Ended? || (PlanOf(pc').Some? && Critical(pc'))
  {
  }

  lemma TurnGoesOn(w: World, pc: Pc, c: Choice)
    requires Critical(pc) && PlanOf(pc).Some?
    ensures var pc' := Advance(w, pc, c).1; pc'.Ended? || (PlanOf(pc').Some? && Critical(pc'))
  {
    if InUpdate(pc) {
      UpdateGoesOn(w, pc, c);
    } else if InBackend(pc) {
      BackendGoesOn(w, pc, c);
    }
  }

  lemma HolderAfter(s: System, p: nat, c: Choice)
    requires Safe(s) && p in s.procs && Critical(s.procs[p]) && PlanOf(s.procs[p]).Some?
    ensures var pc := Advance(s.world, s.procs[p], c).1;
      || (HolderPc(Ran(s, p, c)) == pc && PlanOf(pc).Some?)
      || (HolderPc(Ran(s, p, c)) == Ended(true) && pc.Ended?)
  {
    TurnGoesOn(s.world, s.procs[p], c);
    assert s.lock == Some(p);
  }

  /** A decided restart that fails. */
  predicate FailsRestart(s: System, a: Action) {
    && a.Run? && !a.choice.ok && a.p in s.procs && PlanOf(s.procs[a.p]).Some?
    && (PhaseOf(s.procs[a.p]) == Committed || PhaseOf(s.procs[a.p]) == Awaiting)
  }

  /** No server is abandoned and, while an unmanaged one answers, no command has got past its checks. */
  ghost predicate Calm(s: System) {
    Looped(s) && s.world.orphans == [] && (s.world.unmanaged ==> HandsOff(s))
  }

  lemma TurnRunPays(s: System, p: nat, c: Choice)
    requires Calm(s) && p in s.procs && Critical(s.procs[p]) && PlanOf(s.procs[p]).Some? && !FailsRestart(s, Run(p, c))
    ensures One(IsRestart(s.procs[p], c)) + RestartBudget(Ran(s, p, c)) <= RestartBudget(s)
  {
    var w, pc, t := s.world, s.procs[p], Ran(s, p, c);
    var l := PlanOf(pc).value.loop;
    TurnLoops(s, p, c, l);
    OwnTurnIs(s, p, c, l);
    SameOtherFixes(s, p, c, l);
    HolderAfter(s, p, c);
    DoomedIs(s, pc, l);
    DoomedIs(t, Advance(w, pc, c).1, l);
    SameCrowd(w, t.world, l);
    TurnPays(w, pc, c, Crowded(w, l), OtherFixes(s, l));
    forall k | k != l ensures OwesIn(t, k) <= OwesIn(s, k) { TurnLeavesOthers(s, p, c, l, k); }
    BudgetBut(s, t, l, One(IsRestart(pc, c)));
  }

  // ---- A step of any other command ----

  /** Other commands only start servers of the installed version, and no loop unless they started one of those. */
  ghost predicate Outside(w: World, pc: Pc, c: Choice, w': World, pc': Pc) {
    && (AllOf(w, w.installed.version) ==> AllOf(w', w.installed.version))
    && (Boots(w', pc') ==>
          Boots(w, pc) || AllOf(w', w.installed.version) || (pc.StopLoop? && c.ok && w.loops.file.Some?))
  }

  lemma OutsideBackend(w: World, pc: Pc, c: Choice)
    requires InBackend(pc) && !pc.next.AfterUpdate? && Knows(w, pc)
    ensures Outside(w, pc, c, Advance(w, pc, c).0, Advance(w, pc, c).1)
  {
  }

  lemma OutsideBoot(w: World, pc: Pc, c: Choice)
    requires InBoot(pc)
    ensures Outside(w, pc, c, Advance(w, pc, c).0, Advance(w, pc, c).1)
  {
  }

  lemma OutsideSet(w: World, pc: Pc, c: Choice)
    requires InSet(pc)
    ensures Outside(w, pc, c, Advance(w, pc, c).0, Advance(w, pc, c).1)
  {
  }

  lemma OutsideReading(w: World, pc: Pc, c: Choice)
    requires InStart(pc) || InRestart(pc) || InStop(pc)
    ensures Outside(w, pc, c, Advance(w, pc, c).0, Advance(w, pc, c).1)
  {
  }

  lemma OutsideBegin(w: World, pc: Pc, c: Choice)
    requires (pc.Begin? && PlanOf(pc).None?) || pc.EnsureCheck?
    ensures Outside(w, pc, c, Advance(w, pc, c).0, Advance(w, pc, c).1)
  {
  }

  lemma OutsideStep(w: World, pc: Pc, c: Choice)
    requires Critical(pc) && PlanOf(pc).None? && Knows(w, pc)
    ensures Outside(w, pc, c, Advance(w, pc, c).0, Advance(w, pc, c).1)
  {
    if InBackend(pc) {
      OutsideBackend(w, pc, c);
    } else if InBoot(pc) {
      OutsideBoot(w, pc, c);
    } else if InSet(pc) {
      OutsideSet(w, pc, c);
    } else if InStart(pc) || InRestart(pc) || InStop(pc) {
      OutsideReading(w, pc, c);
    } else {
      OutsideBegin(w, pc, c);
    }
  }

  /** What a step of another command does to a loop. */
  ghost predicate LoopLeft(w: World, pc: Pc, c: Choice, w': World, l: nat) {
    && w'.installed == w.installed
    && (l in w'.loops.live ==>
          if l in w.loops.live then
            w'.loops.live[l] == w.loops.live[l] && (Crowded(w', l) ==> Crowded(w, l))
          else pc.StartLoop? && w'.loops.live[l] == w.installed)
    && (pc.StopLoop? && c.ok && w.loops.file == Some(l) ==> l !in w'.loops.live)
  }

  lemma LoopIsLeft(w: World, pc: Pc, c: Choice, w': World, l: nat)
    requires LoopEffect(w, pc, c, w') && Numbered(w) && Knows(w, pc) && PlanOf(pc).None?
    ensures LoopLeft(w, pc, c, w', l)
  {
  }

  lemma NewLoopIdle(s: System, l: nat)
    requires Looped(s) && l !in s.world.loops.live
    ensures PcFor(s, l).None?
  {
    if p :| InTurn(s, l, p) {
      assert false;
    }
  }

  /** A loop that is in no turn, or in one that waits. */
  lemma OutsideOwes(s: System, p: nat, c: Choice, l: nat)
    requires Looped(s) && p in s.procs && Critical(s.procs[p]) && PlanOf(s.procs[p]).None?
    ensures OwesIn(Ran(s, p, c), l) <= OwesIn(s, l)
    ensures FixesIn(Ran(s, p, c), l) ==> FixesIn(s, l) || s.procs[p].StartLoop?
    ensures s.procs[p].StopLoop? && c.ok && s.world.loops.file == Some(l) ==> OwesIn(Ran(s, p, c), l) == 0
  {
    var w, pc, t := s.world, s.procs[p], Ran(s, p, c);
    LoopStep(w, pc, c);
    assert t.world == Advance(w, pc, c).0;
    LoopIsLeft(w, pc, c, t.world, l);
    OthersStay(s, p, c, l);
    if l in t.world.loops.live && l !in w.loops.live { NewLoopIdle(s, l); }
  }

  /** A live loop whose turn has not decided to restart would fix a stale server, or owes a restart. */
  lemma FixesOrOwes(s: System, l: nat)
    requires Looped(s) && l in s.world.loops.live && !TurnOf(HolderPc(s), l)
    ensures FixesIn(s, l) || OwesIn(s, l) >= 1
  {
    if p :| InTurn(s, l, p) {
      PlanForIs(s, l, p);
      assert !Critical(s.procs[p]);
    }
  }

  lemma OutsideHolder(s: System, p: nat, c: Choice)
    requires Looped(s) && p in s.procs && Critical(s.procs[p]) && PlanOf(s.procs[p]).None?
    ensures HolderPc(s) == s.procs[p] && Ran(s, p, c).world == Advance(s.world, s.procs[p], c).0
    ensures var pc := Advance(s.world, s.procs[p], c).1;
      HolderPc(Ran(s, p, c)) == if Critical(pc) then pc else Ended(true)
  {
    OutsideStaysOut(s.world, s.procs[p], c);
    assert s.lock == Some(p);
  }

  lemma OutsideDooms(s: System, p: nat, c: Choice)
    requires Looped(s) && p in s.procs && Critical(s.procs[p]) && PlanOf(s.procs[p]).None?
    requires Doomed(Ran(s, p, c))
    ensures Doomed(s) || (s.procs[p].StopLoop? && c.ok && s.world.loops.file.Some?)
  {
    var w, pc, t := s.world, s.procs[p], Ran(s, p, c);
    OutsideStep(w, pc, c);
    LoopStep(w, pc, c);
    OutsideHolder(s, p, c);
    if Fixer(t) && !Boots(t.world, HolderPc(t)) {
      var l :| FixesIn(t, l);
      OutsideOwes(s, p, c, l);
    }
  }

  /** A bootstrap that stops a loop: the new loop is up to no more than the one that it replaces. */
  lemma StopLoopPays(s: System, p: nat, c: Choice)
    requires Looped(s) && p in s.procs && s.procs[p].StopLoop? && c.ok && s.world.loops.file.Some? && !Doomed(s)
    requires Doomed(Ran(s, p, c)) && forall l :: OwesIn(Ran(s, p, c), l) <= OwesIn(s, l)
    requires s.world.serial <= Ran(s, p, c).world.serial
    ensures RestartBudget(Ran(s, p, c)) <= RestartBudget(s)
  {
    var l := s.world.loops.file.value;
    OutsideHolder(s, p, c);
    OutsideOwes(s, p, c, l);
    FixesOrOwes(s, l);
    OutsideStep(s.world, s.procs[p], c);
    LoopStep(s.world, s.procs[p], c);
    BudgetBut(s, Ran(s, p, c), l, 0);
  }

  lemma OutsideRunPays(s: System, p: nat, c: Choice)
    requires Looped(s) && p in s.procs && Critical(s.procs[p]) && PlanOf(s.procs[p]).None?
    ensures RestartBudget(Ran(s, p, c)) <= RestartBudget(s)
  {
    var t := Ran(s, p, c);
    LoopStep(s.world, s.procs[p], c);
    OutsideHolder(s, p, c);
    forall l ensures OwesIn(t, l) <= OwesIn(s, l) { OutsideOwes(s, p, c, l); }
    if Doomed(t) && !Doomed(s) {
      OutsideDooms(s, p, c);
      StopLoopPays(s, p, c);
    } else {
      BudgetAll(s, t);
    }
  }

  // ---- Everything else that can happen ----

  predicate SameTurn(t: Option<Pc>, t': Option<Pc>) {
    || t == t'
    || (&& t.Some? && t'.Some? && PlanOf(t.value).Some? && PlanOf(t.value) == PlanOf(t'.value)
        && PhaseOf(t.value) == PhaseOf(t'.value))
  }

  /** All loops are as far as they were, and no more server is stale. */
  lemma NothingNewPays(s: System, t: System)
    requires Numbered(s.world) && t.world.loops.live == s.world.loops.live && t.world.loops.file == s.world.loops.file
    requires t.world.installed == s.world.installed && t.world.serial == s.world.serial
    requires forall l :: SameTurn(PcFor(s, l), PcFor(t, l))
    requires AllOf(s.world, s.world.installed.version) ==> AllOf(t.world, s.world.installed.version)
    requires CommittedTurn(HolderPc(s)) ==> CommittedTurn(HolderPc(t))
    requires Boots(t.world, HolderPc(t)) ==> Boots(s.world, HolderPc(s))
    ensures RestartBudget(t) <= RestartBudget(s)
  {
    forall l ensures OwesIn(t, l) == OwesIn(s, l) && FixesIn(t, l) == FixesIn(s, l) {
      SameCrowd(s.world, t.world, l);
    }
    BudgetAll(s, t);
  }

  /** Moving process `p` matters only to the loops that it is in a turn of. */
  lemma OthersKeepTurn(s: System, t: System, p: nat, l: nat)
    requires OneTurnEach(s) && OneTurnEach(t) && p in t.procs && t.procs == s.procs[p := t.procs[p]]
    requires !TurnOf(t.procs[p], l) && (p in s.procs ==> !TurnOf(s.procs[p], l))
    ensures PcFor(t, l) == PcFor(s, l)
  {
    if q :| InTurn(t, l, q) {
      assert InTurn(s, l, q);
      PlanForIs(t, l, q);
      PlanForIs(s, l, q);
    } else if q :| InTurn(s, l, q) {
      assert InTurn(t, l, q);
    }
  }

  lemma CommandPays(s: System, p: nat, command: Command)
    requires Looped(s)
    ensures RestartBudget(Do(s, Launch(p, command))) <= RestartBudget(s)
  {
    var t := Do(s, Launch(p, command));
    LoopedStep(s, Launch(p, command));
    if t != s {
      forall l ensures PcFor(t, l) == PcFor(s, l) { OthersKeepTurn(s, t, p, l); }
      NothingNewPays(s, t);
    }
  }

  lemma LockPays(s: System, p: nat)
    requires Looped(s)
    ensures RestartBudget(Do(s, TryLock(p))) <= RestartBudget(s)
  {
    var t := Do(s, TryLock(p));
    LoopedStep(s, TryLock(p));
    if t != s {
      forall l ensures SameTurn(PcFor(s, l), PcFor(t, l)) {
        if TurnOf(s.procs[p], l) {
          assert InTurn(s, l, p) && InTurn(t, l, p);
          PlanForIs(s, l, p);
          PlanForIs(t, l, p);
        } else {
          OthersKeepTurn(s, t, p, l);
        }
      }
      NothingNewPays(s, t);
    }
  }

  lemma WorldPays(s: System, a: Action)
    requires Looped(s) && (a.Dies? || a.UnmanagedChanges?)
    ensures RestartBudget(Do(s, a)) <= RestartBudget(s)
  {
    var t := Do(s, a);
    LoopedStep(s, a);
    forall l ensures PcFor(t, l) == PcFor(s, l) {
      assert forall q :: InTurn(t, l, q) <==> InTurn(s, l, q);
      if q :| InTurn(s, l, q) {
        PlanForIs(t, l, q);
        PlanForIs(s, l, q);
      }
    }
    NothingNewPays(s, t);
  }

  /** Only the turn of loop `l` has changed. */
  lemma OneTurnPays(s: System, t: System, p: nat, l: nat)
    requires Looped(s) && Looped(t) && p in t.procs && t == s.(procs := s.procs[p := t.procs[p]])
    requires PlanOf(t.procs[p]).Some? ==> TurnOf(t.procs[p], l)
    requires p in s.procs && PlanOf(s.procs[p]).Some? ==> TurnOf(s.procs[p], l)
    requires l in s.world.loops.live && !TurnOf(HolderPc(s), l) && HolderPc(t) == HolderPc(s)
    requires OwesIn(t, l) + One(FixesIn(t, l) && !FixesIn(s, l)) <= OwesIn(s, l)
    ensures RestartBudget(t) <= RestartBudget(s)
  {
    forall k | k != l ensures OwesIn(t, k) == OwesIn(s, k) && FixesIn(t, k) == FixesIn(s, k) {
      OthersKeepTurn(s, t, p, k);
    }
    BudgetBut(s, t, l, 0);
  }

  lemma LaunchPays(s: System, p: nat, l: nat)
    requires Looped(s)
    ensures RestartBudget(Do(s, LaunchUpdate(p, l))) <= RestartBudget(s)
  {
    var t := Do(s, LaunchUpdate(p, l));
    LoopedStep(s, LaunchUpdate(p, l));
    if t != s {
      LaunchedAlone(s, p, l);
      assert InTurn(t, l, p);
      PlanForIs(t, l, p);
      assert forall q :: InTurn(s, l, q) ==> TurnInProgress(s, l);
      assert TurnOf(HolderPc(s), l) ==> InTurn(s, l, s.lock.value);
      OneTurnPays(s, t, p, l);
    }
  }

  lemma GivenUp(s: System, p: nat, l: nat)
    requires Looped(s) && p in s.procs && s.procs[p].Waiting? && TurnOf(s.procs[p], l)
    ensures var t := Do(s, GiveUp(p));
      && PcFor(t, l).None? && PcFor(s, l) == Some(s.procs[p]) && l in s.world.loops.live && !TurnOf(HolderPc(s), l)
      && OwesIn(t, l) + One(FixesIn(t, l) && !FixesIn(s, l)) <= OwesIn(s, l)
  {
    var t := Do(s, GiveUp(p));
    assert InTurn(s, l, p);
    PlanForIs(s, l, p);
    if q :| InTurn(t, l, q) {
      assert SameLoop(s.procs[p], s.procs[q]);
      assert false;
    }
    if TurnOf(HolderPc(s), l) {
      assert SameLoop(s.procs[p], s.procs[s.lock.value]);
      assert false;
    }
  }

  lemma GiveUpPays(s: System, p: nat)
    requires Looped(s)
    ensures RestartBudget(Do(s, GiveUp(p))) <= RestartBudget(s)
  {
    var t := Do(s, GiveUp(p));
    LoopedStep(s, GiveUp(p));
    if t != s {
      if PlanOf(s.procs[p]).Some? {
        var l := PlanOf(s.procs[p]).value.loop;
        GivenUp(s, p, l);
        OneTurnPays(s, t, p, l);
      } else {
        forall l ensures PcFor(t, l) == PcFor(s, l) { OthersKeepTurn(s, t, p, l); }
        NothingNewPays(s, t);
      }
    }
  }

  // ---- A loop that ends ----

  /** Loop `l` is gone, and its turn with it. */
  ghost predicate LoopGone(s: System, t: System, l: nat) {
    && t.world.loops.live == s.world.loops.live - {l}
    && t.world.loops.file == (if s.world.loops.file == Some(l) then None else s.world.loops.file)
    && t.world.installed == s.world.installed && t.world.serial == s.world.serial
    && t.world.recorded == s.world.recorded && t.world.spawned == s.world.spawned
    && (forall k :: k != l ==> PcFor(t, k) == PcFor(s, k))
    && HolderPc(t) == if TurnOf(HolderPc(s), l) then Ended(true) else HolderPc(s)
  }

  lemma GoneLeavesOthers(s: System, t: System, l: nat, k: nat)
    requires LoopGone(s, t, l) && k != l
    ensures OwesIn(t, k) <= OwesIn(s, k) && FixesIn(t, k) == FixesIn(s, k)
  {
  }

  lemma GoneDooms(s: System, t: System, l: nat)
    requires Looped(s) && LoopGone(s, t, l) && l in s.world.loops.live && Doomed(t) && !Doomed(s)
    ensures OwesIn(s, l) >= 1
  {
    forall k | k != l ensures FixesIn(t, k) == FixesIn(s, k) { GoneLeavesOthers(s, t, l, k); }
    if TurnOf(HolderPc(s), l) {
      assert InTurn(s, l, s.lock.value);
      PlanForIs(s, l, s.lock.value);
    } else {
      FixesOrOwes(s, l);
    }
  }

  lemma LoopGonePays(s: System, t: System, l: nat)
    requires Looped(s) && LoopGone(s, t, l) && l in s.world.loops.live
    ensures RestartBudget(t) <= RestartBudget(s)
  {
    forall k | k != l ensures OwesIn(t, k) <= OwesIn(s, k) { GoneLeavesOthers(s, t, l, k); }
    if Doomed(t) && !Doomed(s) { GoneDooms(s, t, l); }
    BudgetBut(s, t, l, 0);
  }

  lemma LoopEndsPays(s: System, l: nat)
    requires Looped(s) && !TurnOf(HolderPc(s), l)
    ensures RestartBudget(Do(s, LoopEnds(l))) <= RestartBudget(s)
  {
    var t := Do(s, LoopEnds(l));
    LoopedStep(s, LoopEnds(l));
    forall k | k != l ensures PcFor(t, k) == PcFor(s, k) {
      assert forall q :: InTurn(t, k, q) <==> InTurn(s, k, q);
      if q :| InTurn(s, k, q) {
        PlanForIs(t, k, q);
        PlanForIs(s, k, q);
      }
    }
    if l in s.world.loops.live {
      LoopGonePays(s, t, l);
    } else {
      NewLoopIdle(s, l);
      NewLoopIdle(t, l);
      NothingNewPays(s, t);
    }
  }

  lemma KilledTurn(w: World, pc: Pc, l: nat)
    requires TurnOf(pc, l) && (pc.Publish? ==> w.spawned.None?)
    ensures Killed(w, pc) == w.(loops := WithoutLoop(w.loops, l))
  {
    assert w.orphans + [] == w.orphans;
  }

  /** The system after the process of a turn of `l` is killed. */
  function TurnKilled(s: System, p: nat, l: nat): System {
    Moved(s, s.world.(loops := WithoutLoop(s.world.loops, l)), p, Ended(false))
  }

  lemma TurnCrash(s: System, p: nat, l: nat)
    requires p in s.procs && TurnOf(s.procs[p], l) && !Abandons(s, Crash(p))
    ensures Do(s, Crash(p)) == TurnKilled(s, p, l)
  {
    KilledTurn(s.world, s.procs[p], l);
  }

  lemma KilledHolder(s: System, p: nat, l: nat)
    requires Looped(s) && p in s.procs && TurnOf(s.procs[p], l)
    ensures HolderPc(TurnKilled(s, p, l)) == if TurnOf(HolderPc(s), l) then Ended(true) else HolderPc(s)
  {
    if s.lock != Some(p) && TurnOf(HolderPc(s), l) {
      assert SameLoop(s.procs[p], s.procs[s.lock.value]);
      assert false;
    }
  }

  lemma TurnCrashPays(s: System, p: nat, l: nat)
    requires Looped(s) && p in s.procs && TurnOf(s.procs[p], l) && !Abandons(s, Crash(p))
    ensures RestartBudget(Do(s, Crash(p))) <= RestartBudget(s)
  {
    var t := TurnKilled(s, p, l);
    TurnCrash(s, p, l);
    LoopedStep(s, Crash(p));
    KilledHolder(s, p, l);
    forall k | k != l ensures PcFor(t, k) == PcFor(s, k) { OthersKeepTurn(s, t, p, k); }
    assert TurnOk(s.world, s.procs[p]);
    LoopGonePays(s, t, l);
  }

  lemma OtherCrashPays(s: System, p: nat)
    requires Looped(s) && p in s.procs && !s.procs[p].Ended? && PlanOf(s.procs[p]).None? && !Abandons(s, Crash(p))
    ensures RestartBudget(Do(s, Crash(p))) <= RestartBudget(s)
  {
    var t := Do(s, Crash(p));
    LoopedStep(s, Crash(p));
    forall l ensures PcFor(t, l) == PcFor(s, l) { OthersKeepTurn(s, t, p, l); }
    NothingNewPays(s, t);
  }

  // ---- Whole runs ----

  /** Nothing is abandoned, no decided restart fails, no build is installed, and no unmanaged server comes up. */
  predicate Quiescent(s: System, a: Action) {
    !Abandons(s, a) && !FailsRestart(s, a) && !a.BinaryInstalled? && a != UnmanagedChanges(true)
  }

  lemma StaysUnmanaged(s: System, a: Action)
    requires !s.world.unmanaged && a != UnmanagedChanges(true)
    ensures !Do(s, a).world.unmanaged
  {
    if a.Run? && a.p in s.procs && Critical(s.procs[a.p]) {
      LoopStep(s.world, s.procs[a.p], a.choice);
      assert Ran(s, a.p, a.choice).world == Advance(s.world, s.procs[a.p], a.choice).0;
    }
  }

  lemma CalmStep(s: System, a: Action)
    requires Calm(s) && Quiescent(s, a)
    ensures Calm(Do(s, a))
  {
    LoopedStep(s, a);
    OnlyHolderChanges(s, a);
    if s.world.unmanaged {
      HandsOffStep(s, a);
    } else {
      StaysUnmanaged(s, a);
    }
  }

  /** Every action pays for the restart it makes out of what the loops had left to do. */
  lemma RestartStep(s: System, a: Action)
    requires Calm(s) && Quiescent(s, a)
    ensures One(RestartsAt(s, a)) + RestartBudget(Do(s, a)) <= RestartBudget(s)
  {
    match a {
      case Run(p, c) =>
        if p in s.procs && Critical(s.procs[p]) {
          if PlanOf(s.procs[p]).Some? { TurnRunPays(s, p, c); } else { OutsideRunPays(s, p, c); }
        }
      case Launch(p, command) => CommandPays(s, p, command);
      case LaunchUpdate(p, l) => LaunchPays(s, p, l);
      case TryLock(p) => LockPays(s, p);
      case GiveUp(p) => GiveUpPays(s, p);
      case Crash(p) =>
        if p in s.procs && !s.procs[p].Ended? {
          if PlanOf(s.procs[p]).Some? {
            TurnCrashPays(s, p, PlanOf(s.procs[p]).value.loop);
          } else {
            OtherCrashPays(s, p);
          }
        }
      case LoopEnds(l) => if !TurnOf(HolderPc(s), l) { LoopEndsPays(s, l); }
      case _ => WorldPays(s, a);
    }
  }

  function Restarts(s: System, actions: seq<Action>): nat {
    if actions == [] then 0
    else Restarts(s, Init(actions)) + One(RestartsAt(After(s, Init(actions)), Last(actions)))
  }

  ghost predicate QuietRun(s: System, actions: seq<Action>) {
    forall i :: 0 <= i < |actions| ==> Quiescent(After(s, actions[..i]), actions[i])
  }

  lemma {:induction false} RestartsBounded(s: System, actions: seq<Action>)
    requires Calm(s) && QuietRun(s, actions)
    ensures Calm(After(s, actions))
    ensures Restarts(s, actions) + RestartBudget(After(s, actions)) <= RestartBudget(s)
  {
    if actions != [] {
      var front := Init(actions);
      assert forall i :: 0 <= i < |front| ==> front[..i] == actions[..i];
      RestartsBounded(s, front);
      assert actions[..|front|] == front && Last(actions) == actions[|front|];
      CalmStep(After(s, front), Last(actions));
      RestartStep(After(s, front), Last(actions));
    }
  }

  // ---- What that comes to ----

  /** The turn of loop `l` may still restart the server, while it resolved another build than the installed one. */
  ghost predicate LagsRestart(s: System, l: nat) {
    var t, w := PcFor(s, l), s.world;
    && l in w.loops.live && t.Some?
    && var plan := PlanOf(t.value).value;
      && plan.pin != w.installed
      && (|| PhaseOf(t.value) == Committed
          || (PhaseOf(t.value) == Ahead
              && (plan.forced || plan.pin.version != w.installed.version || !AllOf(w, plan.pin.version))))
  }

  ghost predicate Lagging(s: System) {
    exists l :: LagsRestart(s, l)
  }

  lemma OwesAtMost(s: System, l: nat)
    requires Looped(s)
    ensures OwesIn(s, l) <= if LagsRestart(s, l) then 3 else One(l in s.world.loops.live)
    ensures Stale(s.world, HolderPc(s)) && FixesIn(s, l) && !LagsRestart(s, l) ==> OwesIn(s, l) == 0
  {
  }

  /** With no turn that lags: one restart a loop, and one more if a bootstrap is about to start a loop. */
  lemma BudgetOnTime(s: System)
    requires Looped(s) && !Lagging(s)
    ensures RestartBudget(s) <= |s.world.loops.live| + One(Boots(s.world, HolderPc(s)))
  {
    var n, live := s.world.serial, s.world.loops.live;
    forall l: nat ensures OwesIn(s, l) <= One(l in live) { OwesAtMost(s, l); }
    SumCount(live, n);
    if Doomed(s) && !Boots(s.world, HolderPc(s)) {
      var k :| FixesIn(s, k);
      OwesAtMost(s, k);
      SumLess(l => OwesIn(s, l), l => One(l in live), n, k);
    } else {
      SumLe(l => OwesIn(s, l), l => One(l in live), n);
    }
  }

  lemma BudgetAtMost(s: System)
    requires Looped(s)
    ensures RestartBudget(s) <= 3 * |s.world.loops.live| + 1
  {
    forall l: nat ensures OwesIn(s, l) <= 3 * One(l in s.world.loops.live) { OwesAtMost(s, l); }
    SumCount(s.world.loops.live, s.world.serial);
    SumAtMost(l => OwesIn(s, l), s.world.loops.live, s.world.serial);
  }

  /** The only loop, if there is one, is the one that the pid file names. */
  ghost predicate Sole(w: World) {
    forall l :: l in w.loops.live ==> w.loops.file == Some(l)
  }

  /** A turn that has decided to restart holds the lock. */
  lemma CommittedHolds(s: System, l: nat)
    requires Looped(s) && PcFor(s, l).Some?
    ensures PhaseOf(PcFor(s, l).value) == Committed ==> HolderPc(s) == PcFor(s, l).value
  {
    var p :| InTurn(s, l, p);
    PlanForIs(s, l, p);
  }

  lemma SoleOwes(s: System, l: nat)
    requires Looped(s) && Sole(s.world) && s.world.loops.file == Some(l)
    ensures OwesIn(s, l) + One(Doomed(s)) <= 1 + One(LagsRestart(s, l))
  {
    assert !Crowded(s.world, l);
    assert forall k :: FixesIn(s, k) ==> k == l;
    if s.lock.Some? {
      assert Knows(s.world, s.procs[s.lock.value]);
      if PcFor(s, l).Some? && PhaseOf(PcFor(s, l).value) == Committed { CommittedHolds(s, l); }
    } else if PcFor(s, l).Some? {
      CommittedHolds(s, l);
    }
  }

  lemma BudgetSole(s: System)
    requires Looped(s) && Sole(s.world)
    ensures RestartBudget(s) <= 1 + One(Lagging(s))
  {
    var n, ls := s.world.serial, s.world.loops;
    if ls.file.Some? {
      var k := ls.file.value;
      SumBut(l => OwesIn(s, l), l => 0, n, k);
      SumBeyond(l => 0, 0, n);
      SoleOwes(s, k);
    } else {
      SumBeyond(l => OwesIn(s, l), 0, n);
    }
  }

  /** Nothing is left to do: every loop is current and idle, and so is every server. */
  ghost predicate Current(s: System) {
    && AllOf(s.world, s.world.installed.version)
    && forall l :: l in s.world.loops.live ==> s.world.loops.live[l] == s.world.installed && PcFor(s, l).None?
  }

  /**
   * Once the binary has stopped changing, in every interleaving in which no server is abandoned, no decided
   * restart fails and no unmanaged server comes up: there are at most three restarts a loop and one more; one a
   * loop if no turn lags, or one more if a bootstrap is about to start a loop; one, or two if its turn lags,
   * with a single recorded loop; and none once everything is current.
   */
  lemma UpdaterSettles(s: System, actions: seq<Action>)
    requires Calm(s) && QuietRun(s, actions)
    ensures Restarts(s, actions) <= 3 * |s.world.loops.live| + 1
    ensures !Lagging(s) ==> Restarts(s, actions) <= |s.world.loops.live| + One(Boots(s.world, HolderPc(s)))
    ensures Sole(s.world) ==> Restarts(s, actions) <= 1 + One(Lagging(s))
    ensures Current(s) ==> Restarts(s, actions) == 0
  {
    RestartsBounded(s, actions);
    BudgetAtMost(s);
    if !Lagging(s) { BudgetOnTime(s); }
    if Sole(s.world) { BudgetSole(s); }
    if Current(s) { SumBeyond(l => OwesIn(s, l), 0, s.world.serial); }
  }
}
