// codex-rs/app-server-daemon/src/update_loop.rs: the turns of the update loops, and that a re-exec only ever
// follows a restart by the same turn.

module DaemonUpdater {
  import opened Sequences
  import opened DaemonLifecycle

  // ---- A turn of an update loop ----

  /** Before the decision to restart; between that and the spawn; after the spawn; with nothing left to do. */
  datatype Phase = Ahead | Committed | Awaiting | Past

  function PhaseOf(pc: Pc): Phase
    requires PlanOf(pc).Some?
  {
    if pc.StopThenStart? || pc.StartServer? then Committed
    else if pc.Publish? || pc.AwaitReady? then Awaiting
    else if pc.UpdateUnmanaged? then Past
    else Ahead
  }

  predicate IsRestart(pc: Pc, c: Choice) {
    c.ok && pc.StartServer? && pc.next.AfterUpdate?
  }

  predicate IsReexec(pc: Pc, c: Choice) {
    c.ok && pc.AwaitReady? && pc.next.AfterUpdate? && pc.next.plan.forced
  }

  predicate RestartsAt(s: System, a: Action) {
    a.Run? && a.p in s.procs && IsRestart(s.procs[a.p], a.choice)
  }

  predicate ReexecsAt(s: System, a: Action) {
    a.Run? && a.p in s.procs && IsReexec(s.procs[a.p], a.choice)
  }

  lemma SetStaysOut(w: World, pc: Pc, c: Choice)
    requires InSet(pc)
    ensures PlanOf(Advance(w, pc, c).1).None?
  {
  }

  lemma BootStaysOut(w: World, pc: Pc, c: Choice)
    requires InBoot(pc)
    ensures PlanOf(Advance(w, pc, c).1).None?
  {
  }

  lemma BackendStaysOut(w: World, pc: Pc, c: Choice)
    requires InBackend(pc) && !pc.next.AfterUpdate?
    ensures PlanOf(Advance(w, pc, c).1).None?
  {
  }

  lemma ReadingStaysOut(w: World, pc: Pc, c: Choice)
    requires InStart(pc) || InRestart(pc) || InStop(pc)
    ensures PlanOf(Advance(w, pc, c).1).None?
  {
  }

  lemma BeginStaysOut(w: World, pc: Pc, c: Choice)
    requires (pc.Begin? && !pc.command.RestartIfRunning?) || pc.EnsureCheck?
    ensures PlanOf(Advance(w, pc, c).1).None?
  {
  }

  /** Commands other than update turns never turn into one. */
  lemma OutsideStaysOut(w: World, pc: Pc, c: Choice)
    requires Critical(pc) && PlanOf(pc).None?
    ensures PlanOf(Advance(w, pc, c).1).None?
  {
    if InSet(pc) {
      SetStaysOut(w, pc, c);
    } else if InBoot(pc) {
      BootStaysOut(w, pc, c);
    } else if InBackend(pc) {
      BackendStaysOut(w, pc, c);
    } else if InStart(pc) || InRestart(pc) || InStop(pc) {
      ReadingStaysOut(w, pc, c);
    } else {
      BeginStaysOut(w, pc, c);
    }
  }

  /** How a step moves a turn on. */
  ghost predicate TurnGoes(pc: Pc, c: Choice, pc': Pc)
    requires PlanOf(pc').Some?
  {
    && PlanOf(pc) == PlanOf(pc')
    && (|| PhaseOf(pc') == PhaseOf(pc)
        || (PhaseOf(pc) == Ahead && PhaseOf(pc') != Awaiting)
        || (PhaseOf(pc') == Awaiting && IsRestart(pc, c)))
  }

  lemma BackendTurn(w: World, pc: Pc, c: Choice)
    requires InBackend(pc) && pc.next.AfterUpdate? && Knows(w, pc) && PlanOf(Advance(w, pc, c).1).Some?
    ensures TurnGoes(pc, c, Advance(w, pc, c).1)
  {
  }

  lemma UpdateTurn(w: World, pc: Pc, c: Choice)
    requires InUpdate(pc) && PlanOf(Advance(w, pc, c).1).Some?
    ensures TurnGoes(pc, c, Advance(w, pc, c).1)
  {
  }

  lemma BeginTurn(w: World, pc: Pc, c: Choice)
    requires pc.Begin? && PlanOf(pc).Some? && PlanOf(Advance(w, pc, c).1).Some?
    ensures TurnGoes(pc, c, Advance(w, pc, c).1)
  {
  }

  lemma TurnAdvances(w: World, pc: Pc, c: Choice)
    requires Critical(pc) && Knows(w, pc) && PlanOf(Advance(w, pc, c).1).Some?
    ensures TurnGoes(pc, c, Advance(w, pc, c).1)
  {
    if PlanOf(pc).None? {
      OutsideStaysOut(w, pc, c);
    } else if InBackend(pc) {
      BackendTurn(w, pc, c);
    } else if InUpdate(pc) {
      UpdateTurn(w, pc, c);
    } else {
      BeginTurn(w, pc, c);
    }
  }

  /** How one action moves the turn of process `p`, which is at `pc'` after it. */
  ghost predicate TurnMoves(s: System, a: Action, p: nat, pc': Pc)
    requires PlanOf(pc').Some?
  {
    if p in s.procs && PlanOf(s.procs[p]).Some? then
      && PlanOf(s.procs[p]) == PlanOf(pc')
      && (|| PhaseOf(pc') == PhaseOf(s.procs[p])
          || (PhaseOf(s.procs[p]) == Ahead && PhaseOf(pc') != Awaiting)
          || (PhaseOf(pc') == Awaiting && RestartsAt(s, a) && a.p == p))
    else
      var l := PlanOf(pc').value.loop;
      && p !in s.procs && a == LaunchUpdate(p, l) && PhaseOf(pc') == Ahead
      && l in s.world.loops.live && PlanOf(pc').value == NewPlan(s, l)
  }

  lemma RunTurnStep(s: System, p: nat, c: Choice, q: nat)
    requires Safe(s) && p in s.procs && Critical(s.procs[p])
    requires q in Ran(s, p, c).procs && PlanOf(Ran(s, p, c).procs[q]).Some?
    ensures q in s.procs
    ensures if q == p then TurnGoes(s.procs[p], c, Ran(s, p, c).procs[p]) else Ran(s, p, c).procs[q] == s.procs[q]
  {
    if q == p {
      TurnAdvances(s.world, s.procs[p], c);
    }
  }

  lemma TurnStep(s: System, a: Action, p: nat)
    requires Safe(s) && p in Do(s, a).procs && PlanOf(Do(s, a).procs[p]).Some?
    ensures TurnMoves(s, a, p, Do(s, a).procs[p])
  {
    if a.Run? && a.p in s.procs && Critical(s.procs[a.p]) {
      RunTurnStep(s, a.p, a.choice, p);
    }
  }

  // ---- A re-exec only ever follows a restart that became ready while the builds differed ----

  /** Step `l` of the run launched the turn of `p`, with the modes and the build of that moment. */
  ghost predicate LaunchedAt(s: System, actions: seq<Action>, l: nat, p: nat, plan: Plan)
    requires l < |actions|
  {
    var t := After(s, actions[..l]);
    actions[l] == LaunchUpdate(p, plan.loop) && plan.loop in t.world.loops.live && plan == NewPlan(t, plan.loop)
  }

  /** Step `j` of the run is the restart by `p`, which keeps the lock up to step `n`. */
  ghost predicate RestartedAt(s: System, actions: seq<Action>, j: nat, n: nat, p: nat)
    requires j < n <= |actions|
  {
    && RestartsAt(After(s, actions[..j]), actions[j]) && actions[j].p == p
    && forall k :: j <= k <= n ==> After(s, actions[..k]).lock == Some(p)
  }

  /** The turn of `p` was launched at step `l`, and has restarted the server at step `j` if it has. */
  ghost predicate Trace(s: System, actions: seq<Action>, n: nat, p: nat, plan: Plan, phase: Phase, l: nat, j: nat)
    requires n <= |actions|
  {
    && l < n && LaunchedAt(s, actions, l, p, plan)
    && (phase == Awaiting ==> l < j < n && RestartedAt(s, actions, j, n, p))
  }

  lemma TraceKept(s: System, actions: seq<Action>, n: nat, p: nat, plan: Plan, phase: Phase, l: nat, j: nat)
    requires n < |actions| && Trace(s, actions, n, p, plan, phase, l, j)
    requires phase == Awaiting ==> After(s, actions[..n + 1]).lock == Some(p)
    ensures Trace(s, actions, n + 1, p, plan, phase, l, j)
  {
  }

  lemma TraceRestarted(s: System, actions: seq<Action>, n: nat, p: nat, plan: Plan, phase: Phase, l: nat, j: nat)
    requires n < |actions| && Trace(s, actions, n, p, plan, phase, l, j)
    requires RestartsAt(After(s, actions[..n]), actions[n]) && actions[n].p == p
    requires After(s, actions[..n]).lock == Some(p) && After(s, actions[..n + 1]).lock == Some(p)
    ensures Trace(s, actions, n + 1, p, plan, Awaiting, l, n)
  {
  }

  lemma HolderLocks(s: System, p: nat)
    requires Safe(s) && p in s.procs && Critical(s.procs[p])
    ensures s.lock == Some(p)
  {
  }

  /** One step of the trace: `pc` and `pc'` are the program points around it. */
  lemma TraceStep(s: System, actions: seq<Action>, n: nat, p: nat, pc: Pc, pc': Pc, l: nat, j: nat) returns (j': nat)
    requires n < |actions| && PlanOf(pc).Some? && PlanOf(pc').Some?
    requires Trace(s, actions, n, p, PlanOf(pc).value, PhaseOf(pc), l, j)
    requires var before := After(s, actions[..n]);
      p in before.procs && before.procs[p] == pc && TurnMoves(before, actions[n], p, pc') && Safe(before)
    requires var after := After(s, actions[..n + 1]); p in after.procs && after.procs[p] == pc' && Safe(after)
    ensures Trace(s, actions, n + 1, p, PlanOf(pc').value, PhaseOf(pc'), l, j')
  {
    j' := j;
    if PhaseOf(pc') == Awaiting {
      HolderLocks(After(s, actions[..n + 1]), p);
      if PhaseOf(pc) == Awaiting {
        TraceKept(s, actions, n, p, PlanOf(pc).value, Awaiting, l, j);
      } else {
        HolderLocks(After(s, actions[..n]), p);
        TraceRestarted(s, actions, n, p, PlanOf(pc).value, PhaseOf(pc), l, j);
        j' := n;
      }
    }
  }

  /** Where the turn that `p` is in after `n` steps was launched, and where it restarted the server if it has. */
  lemma {:induction false} Traced(s: System, actions: seq<Action>, n: nat, p: nat) returns (l: nat, j: nat)
    requires Safe(s) && 0 < n <= |actions| && (p in s.procs ==> PlanOf(s.procs[p]).None?)
    requires p in After(s, actions[..n]).procs && PlanOf(After(s, actions[..n]).procs[p]).Some?
    ensures var pc := After(s, actions[..n]).procs[p]; Trace(s, actions, n, p, PlanOf(pc).value, PhaseOf(pc), l, j)
    decreases n
  {
    var m := n - 1;
    var before, after := After(s, actions[..m]), After(s, actions[..n]);
    AfterNone(s, actions);
    AfterPrefix(s, actions, m);
    AlwaysSafe(s, actions[..m]);
    AlwaysSafe(s, actions[..n]);
    TurnStep(before, actions[m], p);
    if p in before.procs && PlanOf(before.procs[p]).Some? {
      l, j := Traced(s, actions, m, p);
      j := TraceStep(s, actions, m, p, before.procs[p], after.procs[p], l, j);
    } else {
      l, j := m, m;
    }
  }

  /**
   * Over every run: the process that re-execs its loop launched the turn within the run, while the loop's and
   * the installed build differed; it restarted the server after that and has held the lock ever since; and it
   * re-execs into the build that was installed when the turn was launched.
   */
  lemma ReexecFollowsRestart(s: System, actions: seq<Action>, i: nat) returns (plan: Plan, l: nat, j: nat)
    requires Safe(s) && i < |actions| && ReexecsAt(After(s, actions[..i]), actions[i])
    requires actions[i].p in s.procs ==> PlanOf(s.procs[actions[i].p]).None?
    ensures l < j < i && LaunchedAt(s, actions, l, actions[i].p, plan)
    ensures After(s, actions[..l]).world.loops.live[plan.loop] != After(s, actions[..l]).world.installed == plan.pin
    ensures RestartedAt(s, actions, j, i, actions[i].p)
    ensures plan.loop in After(s, actions[..i + 1]).world.loops.live
    ensures After(s, actions[..i + 1]).world.loops.live[plan.loop] == plan.pin
  {
    AfterNone(s, actions);
    plan := PlanOf(After(s, actions[..i]).procs[actions[i].p]).value;
    l, j := Traced(s, actions, i, actions[i].p);
    AfterPrefix(s, actions, i);
  }
}
