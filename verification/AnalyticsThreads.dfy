// codex-rs/analytics/src/reducer.rs: subagent threads inherit the connection of the thread they grew from.

module AnalyticsThreads {
  import opened Sequences
  import opened AnalyticsModel

  /** The threads grown from `root`, parent first, by a run of facts. */
  function Grown(root: Id, facts: seq<Fact>): set<Id> {
    if facts == [] then {root}
    else
      var before, f := Grown(root, Init(facts)), Last(facts);
      if f.OnThread? && f.thread.SubAgentThreadStarted? && f.thread.parent.Some? && f.thread.parent.value in before
      then before + {f.thread.threadId} else before
  }

  /**
   * `tree` grows from `root` alone: a thread response of a member is on the root's connection `c`, and a
   * member other than the root is only ever started by a parent already in the tree.
   */
  ghost predicate GrowsTree(root: Id, tree: set<Id>, facts: seq<Fact>, c: nat) {
    forall i :: 0 <= i < |facts| && facts[i].OnThread? ==>
      var g := facts[i].thread;
      && (g.ThreadResponse? && g.threadId in tree ==> g.connectionId == c)
      && (g.SubAgentThreadStarted? && g.threadId in tree && g.threadId != root ==>
            g.parent.Some? && g.parent.value in Grown(root, facts[..i]))
  }

  function ConnectionOf(s: State, thread: Id): Option<nat> {
    if thread in s.threads then s.threads[thread].connectionId else None
  }

  predicate ConnectedTo(s: State, thread: Id, c: nat) {
    ConnectionOf(s, thread) == Some(c)
  }

  predicate Unconnected(s: State, thread: Id) {
    ConnectionOf(s, thread) == None
  }

  /** The thread has no connection but this one, if any. */
  predicate NoneBut(s: State, thread: Id, c: nat) {
    Unconnected(s, thread) || ConnectedTo(s, thread, c)
  }

  /** Grown threads have the root's connection; the rest of the tree has no other. */
  ghost predicate TreeState(s: State, tree: set<Id>, grown: set<Id>, c: nat) {
    && (forall t :: t in grown ==> ConnectedTo(s, t, c))
    && (forall t :: t in tree && t !in grown ==> NoneBut(s, t, c))
  }

  lemma {:induction false} GrownIncreases(root: Id, facts: seq<Fact>, n: nat)
    requires n <= |facts|
    ensures root in Grown(root, facts[..n]) && Grown(root, facts[..n]) <= Grown(root, facts)
    decreases |facts|
  {
    if n == |facts| {
      assert facts[..n] == facts;
      if facts != [] {
        GrownIncreases(root, Init(facts), |facts| - 1);
        assert Init(facts)[..|facts| - 1] == Init(facts);
      }
    } else {
      assert Init(facts)[..n] == facts[..n];
      GrownIncreases(root, Init(facts), n);
    }
  }

  /** Without a thread response of its own, a thread's connection only ever changes from none to its parent's. */
  lemma ThreadStepEffect(s: State, f: ThreadFact, t: Id)
    requires f.ThreadResponse? ==> f.threadId != t
    ensures ConnectionOf(ThreadStep(s, f).0, t) ==
      if f.SubAgentThreadStarted? && f.threadId == t && Unconnected(s, t) && f.parent.Some?
      then ConnectionOf(s, f.parent.value) else ConnectionOf(s, t)
  {
  }

  lemma ThreadsKept(s: State, f: Fact)
    requires !f.OnThread?
    ensures Step(s, f).0.threads == s.threads && Step(s, f).0.connections == s.connections
  {
    match f {
      case OnReview(g) => assert ReviewStep(s, g).0.threads == s.threads;
      case OnRequest(g) => assert RequestStep(s, g).0.threads == s.threads;
      case OnTurn(g) => assert TurnStep(s, g).0.threads == s.threads;
      case OnItem(g) => assert ItemStep(s, g).0.threads == s.threads;
    }
  }

  lemma GrownSnoc(root: Id, facts: seq<Fact>, n: nat)
    requires n < |facts|
    ensures var g, f := Grown(root, facts[..n]), facts[n];
      Grown(root, facts[..n + 1]) ==
        if f.OnThread? && f.thread.SubAgentThreadStarted? && f.thread.parent.Some? && f.thread.parent.value in g
        then g + {f.thread.threadId} else g
  {
    assert Init(facts[..n + 1]) == facts[..n];
  }

  lemma TreeStep(root: Id, s: State, facts: seq<Fact>, n: nat, c: nat)
    requires n < |facts| && GrowsTree(root, Grown(root, facts), facts, c)
    requires TreeState(s, Grown(root, facts), Grown(root, facts[..n]), c)
    ensures TreeState(Step(s, facts[n]).0, Grown(root, facts), Grown(root, facts[..n + 1]), c)
  {
    var tree, g, g' := Grown(root, facts), Grown(root, facts[..n]), Grown(root, facts[..n + 1]);
    var f, s' := facts[n], Step(s, facts[n]).0;
    GrownSnoc(root, facts, n);
    GrownIncreases(root, facts, n);
    GrownIncreases(root, facts, n + 1);
    if !f.OnThread? {
      ThreadsKept(s, f);
    } else {
      forall t | t in tree
        ensures t in g' ==> ConnectedTo(s', t, c)
        ensures t !in g' ==> NoneBut(s', t, c)
      {
        if !(f.thread.ThreadResponse? && f.thread.threadId == t) { ThreadStepEffect(s, f.thread, t); }
      }
    }
  }

  lemma {:induction false} TreeInherits(root: Id, s: State, facts: seq<Fact>, n: nat, c: nat)
    requires n <= |facts| && GrowsTree(root, Grown(root, facts), facts, c)
    requires ConnectedTo(s, root, c) && forall t :: t in Grown(root, facts) ==> NoneBut(s, t, c)
    ensures TreeState(Run(s, facts[..n]), Grown(root, facts), Grown(root, facts[..n]), c)
    decreases n
  {
    if n == 0 {
      assert facts[..0] == [];
    } else {
      TreeInherits(root, s, facts, n - 1, c);
      TreeStep(root, Run(s, facts[..n - 1]), facts, n - 1, c);
      RunSnoc(s, facts, n - 1);
    }
  }

  /** The connection data of the last `Initialize` of `c`, or else what the run started with. */
  function Latest(s: State, facts: seq<Fact>, c: nat): Option<Connection> {
    if facts == [] then if c in s.connections then Some(s.connections[c]) else None
    else
      var f := Last(facts);
      if f.OnThread? && f.thread.Initialize? && f.thread.connectionId == c then Some(f.thread.connection)
      else Latest(s, Init(facts), c)
  }

  lemma ConnectionsStep(s: State, f: ThreadFact, c: nat)
    ensures var s' := ThreadStep(s, f).0;
      if f.Initialize? && f.connectionId == c then c in s'.connections && s'.connections[c] == f.connection
      else
        && (c in s'.connections <==> c in s.connections)
        && (c in s.connections ==> s'.connections[c] == s.connections[c])
  {
  }

  lemma {:induction false} LatestIsStored(s: State, facts: seq<Fact>, c: nat)
    ensures var s' := Run(s, facts);
      Latest(s, facts, c) == if c in s'.connections then Some(s'.connections[c]) else None
  {
    if facts != [] {
      var s1 := Run(s, Init(facts));
      LatestIsStored(s, Init(facts), c);
      if Last(facts).OnThread? {
        ConnectionsStep(s1, Last(facts).thread, c);
      } else {
        ThreadsKept(s1, Last(facts));
      }
    }
  }

  /** Every thread grown so far reports the latest client data of the root's connection. */
  lemma TreeConnection(root: Id, s: State, facts: seq<Fact>, n: nat, c: nat, t: Id)
    requires n <= |facts| && GrowsTree(root, Grown(root, facts), facts, c)
    requires ConnectedTo(s, root, c) && forall t :: t in Grown(root, facts) ==> NoneBut(s, t, c)
    requires t in Grown(root, facts[..n])
    ensures ThreadConnection(Run(s, facts[..n]), t) == Latest(s, facts[..n], c)
  {
    TreeInherits(root, s, facts, n, c);
    LatestIsStored(s, facts[..n], c);
  }

  /** The events that carry the client data of the thread they are about. */
  predicate CarriesClient(e: Event) {
    e.CompactionEvent? || e.GuardianEvent? || e.ReviewEvent? || e.ToolItemEvent?
  }

  lemma ClientOfThreadFact(s: State, f: ThreadFact, e: Event)
    requires e in ThreadStep(s, f).1 && CarriesClient(e)
    ensures ThreadConnection(s, e.threadId) == Some(e.connection)
  {
    if f.PassThrough? { PassedOnly(f.payloads); }
  }

  lemma ClientOfReviewFact(s: State, f: ReviewFact, e: Event)
    requires e in ReviewStep(s, f).1
    ensures e.ReviewEvent? && ThreadConnection(s, e.threadId) == Some(e.connection)
  {
  }

  lemma ClientOfItemFact(s: State, f: ItemFact, e: Event)
    requires e in ItemStep(s, f).1
    ensures e.ToolItemEvent? && ThreadConnection(s, e.threadId) == Some(e.connection)
  {
  }

  lemma ClientOfThread(s: State, f: Fact, e: Event)
    requires e in Step(s, f).1 && CarriesClient(e)
    ensures ThreadConnection(s, e.threadId) == Some(e.connection)
  {
    match f {
      case OnThread(g) => ClientOfThreadFact(s, g, e);
      case OnReview(g) => ClientOfReviewFact(s, g, e);
      case OnItem(g) => ClientOfItemFact(s, g, e);
      case OnRequest(g) => RequestEvents(s, g);
      case OnTurn(g) => TurnEvents(s, g);
    }
  }

  /**
   * Every compaction, guardian, review and tool item event of a thread in the tree carries the latest client
   * data of the root's connection.
   */
  lemma TreeEventsCarryRootClient(root: Id, s: State, facts: seq<Fact>, n: nat, c: nat, e: Event)
    requires n < |facts| && GrowsTree(root, Grown(root, facts), facts, c)
    requires ConnectedTo(s, root, c) && forall t :: t in Grown(root, facts) ==> NoneBut(s, t, c)
    requires e in EmittedAt(s, facts, n) && CarriesClient(e) && e.threadId in Grown(root, facts[..n])
    ensures Latest(s, facts[..n], c) == Some(e.connection)
  {
    ClientOfThread(Run(s, facts[..n]), facts[n], e);
    TreeConnection(root, s, facts, n, c, e.threadId);
  }
}
