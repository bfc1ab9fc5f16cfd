// codex-rs/app-server-daemon/src/update_loop.rs: once the managed binary no longer changes, each update loop
// re-execs itself at most once, or twice if it is in a forced turn that resolved another build.

module DaemonReexecs {
  import opened Sequences
  import opened DaemonLifecycle
  import opened DaemonUpdater
  import opened DaemonLoops

  // ---- Sums over the loops ----

  ghost function Sum(f: nat -> nat, n: nat): nat {
    if n == 0 then 0 else Sum(f, n - 1) + f(n - 1)
  }

  lemma {:induction false} SumLe(f: nat -> nat, g: nat -> nat, n: nat)
    requires forall l :: 0 <= l < n ==> f(l) <= g(l)
    ensures Sum(f, n) <= Sum(g, n)
  {
    if n > 0 { SumLe(f, g, n - 1); }
  }

  lemma {:induction false} SumLess(f: nat -> nat, g: nat -> nat, n: nat, k: nat)
    requires k < n && f(k) < g(k) && forall l :: 0 <= l < n ==> f(l) <= g(l)
    ensures Sum(f, n) < Sum(g, n)
  {
    if k == n - 1 {
      SumLe(f, g, n - 1);
    } else {
      SumLess(f, g, n - 1, k);
    }
  }

  /** Two sums that differ in one term only. */
  lemma {:induction false} SumBut(f: nat -> nat, g: nat -> nat, n: nat, k: nat)
    requires k < n && forall l :: 0 <= l < n && l != k ==> f(l) <= g(l)
    ensures Sum(f, n) + g(k) <= Sum(g, n) + f(k)
  {
    if k == n - 1 {
      SumLe(f, g, n - 1);
    } else {
      SumBut(f, g, n - 1, k);
    }
  }

  lemma {:induction false} SumBeyond(f: nat -> nat, n: nat, m: nat)
    requires n <= m && forall l :: n <= l < m ==> f(l) == 0
    ensures Sum(f, m) == Sum(f, n)
  {
    if n < m { SumBeyond(f, n, m - 1); }
  }

  ghost function Below(m: map<nat, Binary>, n: nat): set<nat> {
    set l | l in m && l < n
  }

  lemma {:induction false} SumBelow(m: map<nat, Binary>, n: nat)
    ensures Sum(l => One(l in m), n) == |Below(m, n)|
  {
    if n == 0 {
      assert Below(m, 0) == {};
    } else {
      SumBelow(m, n - 1);
      assert Below(m, n) == if n - 1 in m then Below(m, n - 1) + {n - 1} else Below(m, n - 1);
    }
  }

  /** Counting the loops one by one. */
  lemma SumCount(m: map<nat, Binary>, n: nat)
    requires forall l :: l in m ==> l < n
    ensures Sum(l => One(l in m), n) == |m|
  {
    SumBelow(m, n);
    assert Below(m, n) == m.Keys;
  }

  lemma {:induction false} SumAtMost(f: nat -> nat, m: map<nat, Binary>, n: nat)
    requires forall l :: 0 <= l < n ==> f(l) <= 3 * One(l in m)
    ensures Sum(f, n) <= 3 * Sum(l => One(l in m), n)
  {
    if n > 0 { SumAtMost(f, m, n - 1); }
  }

  // ---- What a loop still has to do ----

  ghost predicate InTurn(s: System, l: nat, p: nat) {
    p in s.procs && TurnOf(s.procs[p], l)
  }

  /** Where loop `l` is in its turn, if it is in one. */
  ghost function PcFor(s: System, l: nat): (pc: Option<Pc>)
    ensures pc.Some? ==> TurnOf(pc.value, l)
  {
    if exists p :: InTurn(s, l, p) then
      var p :| InTurn(s, l, p);
      Some(s.procs[p])
    else None
  }

  ghost function PlanFor(s: System, l: nat): Option<Plan> {
    if PcFor(s, l).Some? then PlanOf(PcFor(s, l).value) else None
  }

  lemma PlanForIs(s: System, l: nat, p: nat)
    requires OneTurnEach(s) && InTurn(s, l, p)
    ensures PcFor(s, l) == Some(s.procs[p]) && PlanFor(s, l) == PlanOf(s.procs[p])
  {
    forall q | InTurn(s, l, q) ensures q == p {
      assert SameLoop(s.procs[p], s.procs[q]);
    }
  }

  /** How many re-execs loop `l` can still make. */
  function ReexecsLeft(w: World, l: nat, plan: Option<Plan>): nat {
    if l !in w.loops.live then 0
    else if plan.Some? && plan.value.forced then 1 + One(plan.value.pin != w.installed)
    else One(w.loops.live[l] != w.installed)
  }

  /** A turn is launched only for a loop that is in none. */
  lemma LaunchedAlone(s: System, p: nat, l: nat)
    requires p !in s.procs && p in Do(s, LaunchUpdate(p, l)).procs
    ensures PlanFor(s, l).None?
  {
    assert forall q :: InTurn(s, l, q) ==> TurnInProgress(s, l);
  }

  /** The plan of a loop after an action is the one before, or a new one, if any. */
  lemma PlanStep(s: System, a: Action, l: nat)
    requires Looped(s) && PlanFor(Do(s, a), l).Some?
    ensures PlanFor(s, l) == PlanFor(Do(s, a), l)
         || (l in s.world.loops.live && PlanFor(s, l).None? && PlanFor(Do(s, a), l).value == NewPlan(s, l))
  {
    var t := Do(s, a);
    LoopedStep(s, a);
    var p :| InTurn(t, l, p);
    PlanForIs(t, l, p);
    TurnStep(s, a, p);
    if p in s.procs && PlanOf(s.procs[p]).Some? {
      assert InTurn(s, l, p);
      PlanForIs(s, l, p);
    } else {
      LaunchedAlone(s, p, l);
    }
  }

  /** The action re-execs loop `l`. */
  ghost predicate ReexecsLoop(s: System, a: Action, l: nat) {
    ReexecsAt(s, a) && TurnOf(s.procs[a.p], l)
  }

  /** What a loop runs after an action: what it ran before, what it re-execs into, or, if new, the installed build. */
  ghost predicate LoopGoesOn(s: System, a: Action, l: nat, w': World)
    requires l in w'.loops.live
  {
    if ReexecsLoop(s, a, l) then w'.loops.live[l] == PlanOf(s.procs[a.p]).value.pin
    else w'.loops.live[l] == if l in s.world.loops.live then s.world.loops.live[l] else s.world.installed
  }

  lemma LoopsAfterGoesOn(w: World, pc: Pc, c: Choice, l: nat)
    requires Numbered(w) && l in LoopsAfter(w, pc, c).live
    ensures LoopsAfter(w, pc, c).live[l] ==
      if IsReexec(pc, c) && TurnOf(pc, l) then pc.next.plan.pin
      else if l in w.loops.live then w.loops.live[l] else w.installed
  {
  }

  lemma LoopKept(s: System, a: Action, l: nat)
    requires Looped(s) && l in Do(s, a).world.loops.live
    ensures LoopGoesOn(s, a, l, Do(s, a).world)
  {
    if a.Run? && a.p in s.procs && Critical(s.procs[a.p]) {
      LoopStep(s.world, s.procs[a.p], a.choice);
      LoopsAfterGoesOn(s.world, s.procs[a.p], a.choice, l);
      assert Ran(s, a.p, a.choice).world == Advance(s.world, s.procs[a.p], a.choice).0;
    }
  }

  lemma SameInstalled(s: System, a: Action)
    requires !a.BinaryInstalled?
    ensures Do(s, a).world.installed == s.world.installed && s.world.serial <= Do(s, a).world.serial
  {
    if a.Run? && a.p in s.procs && Critical(s.procs[a.p]) {
      LoopStep(s.world, s.procs[a.p], a.choice);
      assert Ran(s, a.p, a.choice).world == Advance(s.world, s.procs[a.p], a.choice).0;
    }
  }

  lemma ReexecingPaid(s: System, a: Action, l: nat)
    requires Looped(s) && ReexecsLoop(s, a, l)
    ensures 1 + ReexecsLeft(Do(s, a).world, l, PlanFor(Do(s, a), l)) <= ReexecsLeft(s.world, l, PlanFor(s, l))
  {
    var t := Do(s, a);
    SameInstalled(s, a);
    assert InTurn(s, l, a.p);
    PlanForIs(s, l, a.p);
    if l in t.world.loops.live { LoopKept(s, a, l); }
    if PlanFor(t, l).Some? {
      var q :| InTurn(t, l, q);
      RunTurnStep(s, a.p, a.choice, q);
    }
  }

  /** Every action pays for the re-exec of a loop out of what that loop had left to do. */
  lemma ReexecPaid(s: System, a: Action, l: nat)
    requires Looped(s) && !a.BinaryInstalled?
    ensures One(ReexecsLoop(s, a, l)) + ReexecsLeft(Do(s, a).world, l, PlanFor(Do(s, a), l)) <=
            ReexecsLeft(s.world, l, PlanFor(s, l))
  {
    SameInstalled(s, a);
    if ReexecsLoop(s, a, l) {
      ReexecingPaid(s, a, l);
    } else if l in Do(s, a).world.loops.live {
      LoopKept(s, a, l);
      if PlanFor(Do(s, a), l).Some? { PlanStep(s, a, l); }
    }
  }

  // ---- Whole runs ----

  function Reexecs(s: System, actions: seq<Action>): nat {
    if actions == [] then 0
    else Reexecs(s, Init(actions)) + One(ReexecsAt(After(s, Init(actions)), Last(actions)))
  }

  ghost predicate NoInstall(actions: seq<Action>) {
    forall a :: a in actions ==> !a.BinaryInstalled?
  }

  /** How many re-execs all loops together can still make. */
  ghost function ReexecBudget(s: System): nat {
    Sum(l => ReexecsLeft(s.world, l, PlanFor(s, l)), s.world.serial)
  }

  lemma NoneBeyond(s: System, n: nat)
    requires Numbered(s.world) && s.world.serial <= n
    ensures Sum(l => ReexecsLeft(s.world, l, PlanFor(s, l)), n) == ReexecBudget(s)
  {
    SumBeyond(l => ReexecsLeft(s.world, l, PlanFor(s, l)), s.world.serial, n);
  }

  lemma ReexecStep(s: System, a: Action)
    requires Looped(s) && !a.BinaryInstalled?
    ensures One(ReexecsAt(s, a)) + ReexecBudget(Do(s, a)) <= ReexecBudget(s)
  {
    var t := Do(s, a);
    var n := t.world.serial;
    LoopedStep(s, a);
    SameInstalled(s, a);
    NoneBeyond(s, n);
    var f, g := l => ReexecsLeft(t.world, l, PlanFor(t, l)), l => ReexecsLeft(s.world, l, PlanFor(s, l));
    forall l | 0 <= l < n ensures f(l) <= g(l) {
      ReexecPaid(s, a, l);
    }
    if ReexecsAt(s, a) {
      var l := PlanOf(s.procs[a.p]).value.loop;
      ReexecPaid(s, a, l);
      assert l in s.world.loops.live;
      SumLess(f, g, n, l);
    } else {
      SumLe(f, g, n);
    }
  }

  /** However servers, starters and turns fare: no run makes more re-execs than its loops have left. */
  lemma {:induction false} ReexecsBounded(s: System, actions: seq<Action>)
    requires Looped(s) && NoInstall(actions)
    ensures Looped(After(s, actions))
    ensures Reexecs(s, actions) + ReexecBudget(After(s, actions)) <= ReexecBudget(s)
  {
    if actions != [] {
      ReexecsBounded(s, Init(actions));
      assert Last(actions) in actions;
      LoopedStep(After(s, Init(actions)), Last(actions));
      ReexecStep(After(s, Init(actions)), Last(actions));
    }
  }

  /** Loop `l` is in a forced turn that resolved another build than the installed one. */
  ghost predicate LagsReexec(s: System, l: nat) {
    var plan := PlanFor(s, l);
    l in s.world.loops.live && plan.Some? && plan.value.forced && plan.value.pin != s.world.installed
  }

  /** How many loops lag in that way. */
  ghost function LaggingReexecs(s: System): nat {
    Sum(l => One(LagsReexec(s, l)), s.world.serial)
  }

  lemma {:induction false} SumPlus(f: nat -> nat, g: nat -> nat, h: nat -> nat, n: nat)
    requires forall l :: 0 <= l < n ==> f(l) <= g(l) + h(l)
    ensures Sum(f, n) <= Sum(g, n) + Sum(h, n)
  {
    if n > 0 { SumPlus(f, g, h, n - 1); }
  }

  /**
   * Once the binary has stopped changing, in every interleaving whatsoever: at most one re-exec for each loop,
   * and one more for each loop in a forced turn that resolved another build; none by loops that are current.
   */
  lemma ReexecsSettle(s: System, actions: seq<Action>)
    requires Looped(s) && NoInstall(actions)
    ensures Reexecs(s, actions) <= |s.world.loops.live| + LaggingReexecs(s)
    ensures (forall l :: l in s.world.loops.live ==> s.world.loops.live[l] == s.world.installed && PlanFor(s, l).None?)
            ==> Reexecs(s, actions) == 0
  {
    var n, live := s.world.serial, s.world.loops.live;
    ReexecsBounded(s, actions);
    SumCount(live, n);
    SumPlus(l => ReexecsLeft(s.world, l, PlanFor(s, l)), l => One(l in live), l => One(LagsReexec(s, l)), n);
    if forall l :: l in live ==> live[l] == s.world.installed && PlanFor(s, l).None? {
      SumBeyond(l => ReexecsLeft(s.world, l, PlanFor(s, l)), 0, n);
    }
  }
}
