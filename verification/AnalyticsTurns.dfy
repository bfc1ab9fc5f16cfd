// codex-rs/analytics/src/reducer.rs: what a turn event counts, and that it is emitted exactly once
// whatever the order in which the facts it joins arrive.

module AnalyticsTurns {
  import opened Sequences
  import opened AnalyticsModel

  // ---- Tool and steer counts ----

  /** Fact `f` is a tracked tool item completing in turn `t`. */
  predicate CountsTool(f: Fact, t: Id) {
    f.OnItem? && f.item.ItemCompleted? && !f.item.item.kind.UntrackedItem? && f.item.key.turnId == t
  }

  /** Fact `f` accepts a steer of turn `t` that a client had asked for. */
  predicate CountsSteer(s: State, f: Fact, t: Id) {
    && f.OnRequest? && f.request.TurnSteerResponse? && f.request.turnId == t
    && var id := (f.request.connectionId, f.request.requestId);
       id in s.requests && s.requests[id].TurnSteer?
  }

  /** The tools completed in turn `t` since its state was created. */
  function Tools(facts: seq<Fact>, t: Id): seq<ItemKind> {
    if facts == [] || t !in Run(EMPTY, Init(facts)).turns || t !in Run(EMPTY, facts).turns then []
    else if CountsTool(Last(facts), t) then Tools(Init(facts), t) + [Last(facts).item.item.kind]
    else Tools(Init(facts), t)
  }

  /** The steers accepted by turn `t` since its state was created. */
  function Steers(facts: seq<Fact>, t: Id): nat {
    if facts == [] || t !in Run(EMPTY, Init(facts)).turns || t !in Run(EMPTY, facts).turns then 0
    else Steers(Init(facts), t) + if CountsSteer(Run(EMPTY, Init(facts)), Last(facts), t) then 1 else 0
  }

  function Count(kinds: seq<ItemKind>, k: ItemKind): nat {
    if kinds == [] then 0 else Count(Init(kinds), k) + if Last(kinds) == k then 1 else 0
  }

  function Tally(kinds: seq<ItemKind>): ToolCounts {
    ToolCounts(|kinds|, Count(kinds, CommandExecution), Count(kinds, FileChange), Count(kinds, McpToolCall),
               Count(kinds, DynamicToolCall), Count(kinds, CollabAgentToolCall), Count(kinds, WebSearch),
               Count(kinds, ImageGeneration))
  }

  lemma TallyRecord(kinds: seq<ItemKind>, k: ItemKind)
    requires !k.UntrackedItem?
    ensures Record(Tally(kinds), k) == Tally(kinds + [k])
  {
    assert Init(kinds + [k]) == kinds;
  }

  lemma {:induction false} KindsAddUp(kinds: seq<ItemKind>)
    requires UntrackedItem !in kinds
    ensures var c := Tally(kinds);
      c.total == c.shellCommand + c.fileChange + c.mcpToolCall + c.dynamicToolCall + c.subagentToolCall
                 + c.webSearch + c.imageGeneration
  {
    if kinds != [] {
      KindsAddUp(Init(kinds));
      assert Last(kinds) in kinds;
    }
  }

  lemma {:induction false} ToolsTracked(facts: seq<Fact>, t: Id)
    ensures UntrackedItem !in Tools(facts, t)
  {
    if facts != [] {
      ToolsTracked(Init(facts), t);
    }
  }

  /** What one fact does to the counts of turn `t`. */
  ghost predicate CountsEffect(s: State, f: Fact, t: Id, s': State) {
    t in s'.turns ==>
      if t in s.turns then
        && s'.turns[t].toolCounts ==
           (if CountsTool(f, t) then Record(s.turns[t].toolCounts, f.item.item.kind) else s.turns[t].toolCounts)
        && s'.turns[t].steerCount == s.turns[t].steerCount + if CountsSteer(s, f, t) then 1 else 0
      else s'.turns[t].toolCounts == NO_TOOLS && s'.turns[t].steerCount == 0
  }

  /** Trying to emit a turn's event keeps or removes turns, and changes none. */
  lemma TriedKeeps(s: State, tried: Id, t: Id)
    requires t in MaybeEmitTurn(s, tried).0.turns
    ensures t in s.turns && MaybeEmitTurn(s, tried).0.turns[t] == s.turns[t]
  {
  }

  function RequestFact(j: Join): Fact {
    OnRequest(ClientRequest(j.connection, j.request, TurnStart(j.thread, j.images)))
  }

  lemma CountsStartResponse(s: State, f: RequestFact, t: Id)
    requires f.TurnStartResponse?
    ensures CountsEffect(s, OnRequest(f), t, RequestStep(s, f).0)
  {
    if MatchesStart(s, f) {
      var u := TurnMatched(s, f.connectionId, f.requestId, f.turnId);
      assert RequestStep(s, f) == MaybeEmitTurn(u, f.turnId);
      if t in RequestStep(s, f).0.turns { TriedKeeps(u, f.turnId, t); }
    } else {
      assert RequestStep(s, f).0.turns == s.turns;
    }
  }

  lemma CountsSteerResponse(s: State, f: RequestFact, t: Id)
    requires f.TurnSteerResponse?
    ensures CountsEffect(s, OnRequest(f), t, RequestStep(s, f).0)
  {
  }

  lemma CountsRequestStep(s: State, f: RequestFact, t: Id)
    ensures CountsEffect(s, OnRequest(f), t, RequestStep(s, f).0)
  {
    if f.TurnStartResponse? {
      CountsStartResponse(s, f, t);
    } else if f.TurnSteerResponse? {
      CountsSteerResponse(s, f, t);
    } else {
      assert RequestStep(s, f).0.turns == s.turns;
    }
  }

  lemma CountsTurnStep(s: State, f: TurnFact, t: Id)
    ensures CountsEffect(s, OnTurn(f), t, TurnStep(s, f).0)
  {
  }

  /** An item fact changes at most the tool counts of its own turn. */
  lemma ItemTurns(s: State, f: ItemFact)
    ensures ItemStep(s, f).0.turns ==
      if f.ItemStarted? || f.item.kind.UntrackedItem? || f.key.turnId !in s.turns then s.turns
      else var ts := s.turns[f.key.turnId];
           s.turns[f.key.turnId := ts.(toolCounts := Record(ts.toolCounts, f.item.kind))]
  {
  }

  lemma CountsItemStep(s: State, f: ItemFact, t: Id)
    ensures CountsEffect(s, OnItem(f), t, ItemStep(s, f).0)
  {
    ItemTurns(s, f);
  }

  lemma CountsStep(s: State, f: Fact, t: Id)
    ensures CountsEffect(s, f, t, Step(s, f).0)
  {
    match f {
      case OnRequest(g) => CountsRequestStep(s, g, t);
      case OnTurn(g) => CountsTurnStep(s, g, t);
      case OnItem(g) => CountsItemStep(s, g, t);
      case OnReview(g) => assert ReviewStep(s, g).0.turns == s.turns;
      case OnThread(g) => assert ThreadStep(s, g).0.turns == s.turns;
    }
  }

  /** In every reachable state a turn's counts are those of its own facts since its state was created. */
  lemma {:induction false} CountsAreTally(facts: seq<Fact>, t: Id)
    ensures var s := Run(EMPTY, facts);
      t in s.turns ==> s.turns[t].toolCounts == Tally(Tools(facts, t)) && s.turns[t].steerCount == Steers(facts, t)
  {
    if facts != [] {
      CountsAreTally(Init(facts), t);
      CountsStep(Run(EMPTY, Init(facts)), Last(facts), t);
      if CountsTool(Last(facts), t) {
        TallyRecord(Tools(Init(facts), t), Last(facts).item.item.kind);
      }
    }
  }

  /** A turn event is built from the state its turn already had. */
  lemma TurnEventSource(s: State, f: Fact, e: Event)
    requires e in Step(s, f).1 && e.TurnEvent?
    ensures e.turnId in s.turns
    ensures e.toolCounts == s.turns[e.turnId].toolCounts && e.steerCount == s.turns[e.turnId].steerCount
  {
    match f {
      case OnRequest(g) =>
        if MatchesStart(s, g) { EmittedTurn(TurnMatched(s, g.connectionId, g.requestId, g.turnId), g.turnId); }
      case OnTurn(g) => EmittedTurn(TurnUpdated(s, g), g.turnId);
      case OnItem(g) =>
      case OnReview(g) => ReviewEvents(s, g);
      case OnThread(g) => ThreadEvents(s, g);
    }
  }

  /** The counts on every turn event, and that the total is the sum of the seven kinds. */
  lemma TurnEventCounts(facts: seq<Fact>, f: Fact, e: Event)
    requires e in Step(Run(EMPTY, facts), f).1 && e.TurnEvent?
    ensures e.toolCounts == Tally(Tools(facts, e.turnId)) && e.steerCount == Steers(facts, e.turnId)
    ensures var c := e.toolCounts;
      c.total == c.shellCommand + c.fileChange + c.mcpToolCall + c.dynamicToolCall + c.subagentToolCall
                 + c.webSearch + c.imageGeneration
  {
    TurnEventSource(Run(EMPTY, facts), f, e);
    CountsAreTally(facts, e.turnId);
    ToolsTracked(facts, e.turnId);
    KindsAddUp(Tools(facts, e.turnId));
  }

  /** The turn a fact is about. */
  function TurnOf(f: Fact): Option<Id> {
    match f
    case OnRequest(TurnStartResponse(_, _, t)) => Some(t)
    case OnRequest(TurnSteerResponse(_, _, t)) => Some(t)
    case OnTurn(g) => Some(g.turnId)
    case OnItem(g) => Some(g.key.turnId)
    case _ => None
  }

  ghost predicate Untouched(s: State, s': State, t: Id) {
    (t in s'.turns <==> t in s.turns) && (t in s.turns ==> s'.turns[t] == s.turns[t])
  }

  lemma OtherRequestFact(s: State, f: RequestFact, t: Id)
    requires TurnOf(OnRequest(f)) != Some(t)
    ensures Untouched(s, RequestStep(s, f).0, t)
    ensures forall e :: e in RequestStep(s, f).1 && e.TurnEvent? ==> e.turnId != t
  {
    if MatchesStart(s, f) { EmittedTurn(TurnMatched(s, f.connectionId, f.requestId, f.turnId), f.turnId); }
  }

  lemma OtherTurnFact(s: State, f: TurnFact, t: Id)
    requires f.turnId != t
    ensures Untouched(s, TurnStep(s, f).0, t)
    ensures forall e :: e in TurnStep(s, f).1 && e.TurnEvent? ==> e.turnId != t
  {
    EmittedTurn(TurnUpdated(s, f), f.turnId);
  }

  lemma ItemEvents(s: State, f: ItemFact)
    ensures forall e :: e in ItemStep(s, f).1 ==> e.ToolItemEvent?
  {
  }

  lemma OtherItemFact(s: State, f: ItemFact, t: Id)
    requires TurnOf(OnItem(f)) != Some(t)
    ensures Untouched(s, ItemStep(s, f).0, t)
    ensures forall e :: e in ItemStep(s, f).1 && e.TurnEvent? ==> e.turnId != t
  {
    ItemTurns(s, f);
    ItemEvents(s, f);
  }

  lemma OtherReviewFact(s: State, f: ReviewFact, t: Id)
    ensures Untouched(s, ReviewStep(s, f).0, t)
    ensures forall e :: e in ReviewStep(s, f).1 && e.TurnEvent? ==> e.turnId != t
  {
    assert ReviewStep(s, f).0.turns == s.turns;
    ReviewEvents(s, f);
  }

  lemma OtherThreadFact(s: State, f: ThreadFact, t: Id)
    ensures Untouched(s, ThreadStep(s, f).0, t)
    ensures forall e :: e in ThreadStep(s, f).1 && e.TurnEvent? ==> e.turnId != t
  {
    assert ThreadStep(s, f).0.turns == s.turns;
    ThreadEvents(s, f);
  }

  /** Facts about other turns neither change a turn's state nor emit its event. */
  lemma OtherTurnsUntouched(s: State, f: Fact, t: Id)
    requires TurnOf(f) != Some(t)
    ensures Untouched(s, Step(s, f).0, t)
    ensures forall e :: e in Step(s, f).1 && e.TurnEvent? ==> e.turnId != t
  {
    match f {
      case OnRequest(g) => OtherRequestFact(s, g, t);
      case OnTurn(g) => OtherTurnFact(s, g, t);
      case OnItem(g) => OtherItemFact(s, g, t);
      case OnReview(g) => OtherReviewFact(s, g, t);
      case OnThread(g) => OtherThreadFact(s, g, t);
    }
  }

  // ---- The join ----

  /** The turn to be reported, and the three facts that complete it. */
  datatype Join = Join(
    turn: Id, thread: Id, connection: nat, request: Id, images: nat, config: Config, completed: string)

  function StartFact(j: Join): Fact {
    OnRequest(TurnStartResponse(j.connection, j.request, j.turn))
  }

  function ConfigFact(j: Join): Fact {
    OnTurn(TurnResolvedConfig(j.turn, j.config))
  }

  function CompletedFact(j: Join): Fact {
    OnTurn(TurnCompleted(j.turn, j.completed))
  }

  predicate Consistent(j: Join) {
    j.config.threadId == j.thread && j.config.images == j.images
  }

  /**
   * A fact that is not a second start, config or completion of the turn, does not move the turn to
   * another thread, and leaves the start request alone while that is still `waiting`.
   */
  predicate Benign(j: Join, f: Fact, waiting: bool) {
    match f
    case OnTurn(TurnCompleted(t, _)) => t != j.turn
    case OnTurn(TurnResolvedConfig(t, _)) => t != j.turn
    case OnTurn(TurnDiffUpdated(t, thread, _)) => t == j.turn ==> thread == j.thread
    case OnTurn(TurnTokenUsage(t, thread, _)) => t == j.turn ==> thread == j.thread
    case OnRequest(g) =>
      && (g.TurnStartResponse? ==> g.turnId != j.turn)
      && (waiting ==> g.connectionId != j.connection || g.requestId != j.request)
    case _ => true
  }

  /** The connection and thread are initialised, and the start request waits until it is answered. */
  predicate Initialised(j: Join, s: State, waiting: bool) {
    && j.connection in s.connections
    && ThreadMetadata(s, j.thread).Some?
    && (waiting ==> (j.connection, j.request) in s.requests
                    && s.requests[(j.connection, j.request)] == TurnStart(j.thread, j.images))
  }

  /** The turn's state holds exactly the facts that have arrived, but not yet all three. */
  predicate Gathering(j: Join, s: State, waiting: bool, start: bool, config: bool, completed: bool) {
    var ts := TurnOrNew(s, j.turn);
    && Initialised(j, s, waiting)
    && ts.connectionId == (if start then Some(j.connection) else None)
    && ts.config == (if config then Some(j.config) else None)
    && ts.completed == (if completed then Some(j.completed) else None)
    && ts.images == (if start || config then Some(j.images) else None)
    && (ts.threadId == Some(j.thread) || (ts.threadId == None && !start && !config))
  }

  /** After the event: nothing of the three is left. */
  predicate Reported(j: Join, s: State) {
    var ts := TurnOrNew(s, j.turn);
    ts.connectionId == None && ts.config == None && ts.completed == None
  }

  function TurnEventsFor(t: Id, es: seq<Event>): seq<Event> {
    if es == [] then []
    else if Last(es).TurnEvent? && Last(es).turnId == t then TurnEventsFor(t, Init(es)) + [Last(es)]
    else TurnEventsFor(t, Init(es))
  }

  lemma {:induction false} NoTurnEvents(t: Id, es: seq<Event>)
    requires forall e :: e in es && e.TurnEvent? ==> e.turnId != t
    ensures TurnEventsFor(t, es) == []
  {
    if es != [] {
      NoTurnEvents(t, Init(es));
      assert Last(es) in es;
    }
  }

  lemma SingleTurnEvent(e: Event)
    requires e.TurnEvent?
    ensures TurnEventsFor(e.turnId, [e]) == [e]
  {
    assert Init([e]) == [] && Last([e]) == e;
  }

  lemma OneTurnEvent(s: State, t: Id)
    requires TurnReady(s, t)
    ensures TurnEventsFor(t, MaybeEmitTurn(s, t).1) == [TurnEventOf(s, t)]
  {
    var es := MaybeEmitTurn(s, t).1;
    assert es == [TurnEventOf(s, t)] + AcceptedLinesOf(s, t);
    if AcceptedLinesOf(s, t) == [] {
      SingleTurnEvent(TurnEventOf(s, t));
      assert es == [TurnEventOf(s, t)];
    } else {
      SingleTurnEvent(TurnEventOf(s, t));
      assert Init(es) == [TurnEventOf(s, t)];
    }
  }

  /** The event the three facts call for, as far as they supply it. */
  predicate Reports(j: Join, s: State, e: Event) {
    && e.TurnEvent? && e.turnId == j.turn && e.threadId == j.thread && e.images == j.images
    && e.config == j.config && e.completed == j.completed
    && j.connection in s.connections && e.connection == s.connections[j.connection]
    && Some(e.metadata) == ThreadMetadata(s, j.thread)
  }

  lemma ThreadKeepsContext(j: Join, s: State, f: ThreadFact, waiting: bool)
    requires Initialised(j, s, waiting)
    ensures Initialised(j, ThreadStep(s, f).0, waiting)
  {
  }

  lemma RequestKeepsContext(j: Join, s: State, f: RequestFact, waiting: bool)
    requires Initialised(j, s, waiting) && Benign(j, OnRequest(f), waiting)
    ensures Initialised(j, RequestStep(s, f).0, waiting)
  {
  }

  /** Other facts keep connection, thread and waiting request in place. */
  lemma BenignKeepsContext(j: Join, s: State, f: Fact, waiting: bool)
    requires Initialised(j, s, waiting) && Benign(j, f, waiting)
    ensures Initialised(j, Step(s, f).0, waiting)
  {
    match f {
      case OnThread(g) => ThreadKeepsContext(j, s, g, waiting);
      case OnRequest(g) => RequestKeepsContext(j, s, g, waiting);
      case OnReview(g) => assert ReviewStep(s, g).0.requests == s.requests && ReviewStep(s, g).0.threads == s.threads;
      case OnTurn(g) => assert TurnStep(s, g).0.requests == s.requests && TurnStep(s, g).0.threads == s.threads;
      case OnItem(g) => assert ItemStep(s, g).0.requests == s.requests && ItemStep(s, g).0.threads == s.threads;
    }
  }

  /** What a benign fact leaves alone in the turn's state. */
  predicate SameJoin(j: Join, s: State, s': State) {
    var a, b := TurnOrNew(s, j.turn), TurnOrNew(s', j.turn);
    && b.connectionId == a.connectionId && b.config == a.config && b.completed == a.completed && b.images == a.images
    && (b.threadId == a.threadId || b.threadId == Some(j.thread))
  }

  predicate Incomplete(j: Join, s: State) {
    var ts := TurnOrNew(s, j.turn);
    ts.connectionId.None? || ts.config.None? || ts.completed.None?
  }

  lemma BenignTurnFact(j: Join, s: State, f: TurnFact, waiting: bool)
    requires Benign(j, OnTurn(f), waiting) && f.turnId == j.turn && Incomplete(j, s)
    ensures SameJoin(j, s, TurnStep(s, f).0) && TurnStep(s, f).1 == []
  {
    assert !TurnReady(TurnUpdated(s, f), j.turn);
  }

  lemma BenignItemFact(j: Join, s: State, f: ItemFact)
    ensures SameJoin(j, s, ItemStep(s, f).0)
  {
    ItemTurns(s, f);
  }

  lemma BenignStep(j: Join, s: State, f: Fact, waiting: bool)
    requires Benign(j, f, waiting) && Incomplete(j, s)
    ensures SameJoin(j, s, Step(s, f).0)
    ensures TurnEventsFor(j.turn, Step(s, f).1) == []
  {
    if TurnOf(f) != Some(j.turn) {
      OtherTurnsUntouched(s, f, j.turn);
    } else {
      match f {
        case OnTurn(g) => BenignTurnFact(j, s, g, waiting);
        case OnItem(g) =>
          BenignItemFact(j, s, g);
          ItemEvents(s, g);
        case OnRequest(g) => RequestEvents(s, g);
      }
    }
    NoTurnEvents(j.turn, Step(s, f).1);
  }

  /** The state just before the event is tried, when fact `f` is one of the three. */
  function Tried(j: Join, s: State, f: Fact): State
    requires f == StartFact(j) || f == ConfigFact(j) || f == CompletedFact(j)
    requires f == StartFact(j) ==> Initialised(j, s, true)
  {
    if f.OnTurn? then TurnUpdated(s, f.turn) else TurnMatched(s, j.connection, j.request, j.turn)
  }

  /** One of the three facts arrives: it is recorded, and if it is the last one the event is emitted. */
  lemma JoinStep(j: Join, s: State, f: Fact, waiting: bool, start: bool, config: bool, completed: bool)
    requires Consistent(j) && Gathering(j, s, waiting, start, config, completed)
    requires || (f == StartFact(j) && !start && waiting)
             || (f == ConfigFact(j) && !config)
             || (f == CompletedFact(j) && !completed)
    ensures var start', config' := start || f == StartFact(j), config || f == ConfigFact(j);
      var completed' := completed || f == CompletedFact(j);
      if start' && config' && completed' then
        && Reported(j, Step(s, f).0)
        && |TurnEventsFor(j.turn, Step(s, f).1)| == 1 && Reports(j, s, TurnEventsFor(j.turn, Step(s, f).1)[0])
      else
        && Gathering(j, Step(s, f).0, waiting && f != StartFact(j), start', config', completed')
        && TurnEventsFor(j.turn, Step(s, f).1) == []
  {
    var u := Tried(j, s, f);
    assert Step(s, f) == MaybeEmitTurn(u, j.turn);
    if TurnReady(u, j.turn) {
      OneTurnEvent(u, j.turn);
    }
  }

  /**
   * Where in a run the three facts arrive, and the client request that the start responds to, if that does
   * not wait from the beginning; everything else in the run is benign.
   */
  datatype Arrival = Arrival(request: Option<nat>, start: nat, config: nat, completed: nat)

  /** The client request waits for its response just before fact number `n`. */
  predicate Waits(a: Arrival, n: nat) {
    (a.request.Some? ==> a.request.value < n) && n <= a.start
  }

  function LastOf(a: Arrival): nat {
    if a.start > a.config && a.start > a.completed then a.start
    else if a.config > a.completed then a.config else a.completed
  }

  ghost predicate Arrives(j: Join, facts: seq<Fact>, a: Arrival) {
    && a.start < |facts| && a.config < |facts| && a.completed < |facts|
    && facts[a.start] == StartFact(j) && facts[a.config] == ConfigFact(j) && facts[a.completed] == CompletedFact(j)
    && (a.request.Some? ==> a.request.value < a.start && facts[a.request.value] == RequestFact(j))
    && forall i :: 0 <= i < |facts| && i != a.start && i != a.config && i != a.completed && Some(i) != a.request ==>
         Benign(j, facts[i], Waits(a, i))
  }

  /** What the turn's state is after the first `n` facts. */
  ghost predicate Progress(j: Join, s: State, a: Arrival, n: nat) {
    if n <= LastOf(a) then Gathering(j, s, Waits(a, n), a.start < n, a.config < n, a.completed < n) else Reported(j, s)
  }

  /** The client request is registered; nothing else about the turn changes. */
  lemma RequestArrives(j: Join, s: State, config: bool, completed: bool)
    requires Gathering(j, s, false, false, config, completed)
    ensures Gathering(j, Step(s, RequestFact(j)).0, true, false, config, completed)
    ensures Step(s, RequestFact(j)).1 == []
  {
  }

  lemma ProgressStep(j: Join, s: State, facts: seq<Fact>, a: Arrival, n: nat)
    requires Consistent(j) && Arrives(j, facts, a) && n < |facts| && Progress(j, s, a, n)
    ensures Progress(j, Step(s, facts[n]).0, a, n + 1)
    ensures var es := TurnEventsFor(j.turn, Step(s, facts[n]).1);
      if n == LastOf(a) then |es| == 1 && Reports(j, s, es[0]) else es == []
  {
    var f := facts[n];
    if n == a.start || n == a.config || n == a.completed {
      JoinStep(j, s, f, Waits(a, n), a.start < n, a.config < n, a.completed < n);
    } else if Some(n) == a.request {
      RequestArrives(j, s, a.config < n, a.completed < n);
    } else {
      BenignStep(j, s, f, Waits(a, n));
      if n < LastOf(a) {
        BenignKeepsContext(j, s, f, Waits(a, n));
      }
    }
  }

  lemma ProgressRun(j: Join, s: State, facts: seq<Fact>, a: Arrival, n: nat)
    requires Consistent(j) && Arrives(j, facts, a) && n < |facts| && Progress(j, Run(s, facts[..n]), a, n)
    ensures Progress(j, Run(s, facts[..n + 1]), a, n + 1)
  {
    var s1, s2 := Run(s, facts[..n]), Run(s, facts[..n + 1]);
    RunSnoc(s, facts, n);
    ProgressStep(j, s1, facts, a, n);
    assert s2 == Step(s1, facts[n]).0;
  }

  lemma {:induction false} ProgressAfter(j: Join, s: State, facts: seq<Fact>, a: Arrival, n: nat)
    requires Consistent(j) && Arrives(j, facts, a) && n <= |facts|
    requires Gathering(j, s, a.request.None?, false, false, false)
    ensures Progress(j, Run(s, facts[..n]), a, n)
    decreases n
  {
    if n == 0 {
      assert facts[..0] == [];
    } else {
      ProgressAfter(j, s, facts, a, n - 1);
      ProgressRun(j, s, facts, a, n - 1);
    }
  }

  /** The events sent in state `s` hold one event of the turn, as the three facts call for, or none. */
  ghost predicate OneReport(j: Join, s: State, events: seq<Event>, last: bool) {
    var es := TurnEventsFor(j.turn, events);
    if last then |es| == 1 && Reports(j, s, es[0]) else es == []
  }

  /**
   * From an initialised connection and thread, the matched start response, the resolved config and the
   * completion of a turn give exactly one turn event, in every order and every interleaving with benign
   * facts, wherever the client request comes before its response: at the last of the three, with fields
   * that do not depend on the order.
   */
  lemma TurnReportedOnce(j: Join, s: State, facts: seq<Fact>, a: Arrival, n: nat)
    requires Consistent(j) && Arrives(j, facts, a) && n < |facts|
    requires Gathering(j, s, a.request.None?, false, false, false)
    ensures OneReport(j, Run(s, facts[..n]), EmittedAt(s, facts, n), n == LastOf(a))
  {
    ProgressAfter(j, s, facts, a, n);
    ProgressStep(j, Run(s, facts[..n]), facts, a, n);
  }
}
