// codex-rs/analytics/src/reducer.rs: the analytics reducer as a state machine over seven maps.
// Payload fields that no branch looks at are kept as opaque strings.

module AnalyticsModel {
  import opened Sequences
  import AcceptedLines

  type Id = string

  datatype Connection = Connection(client: string, runtime: string)

  datatype Metadata = Metadata(source: string, subagentSource: Option<string>, parent: Option<Id>)

  datatype Thread = Thread(connectionId: Option<nat>, metadata: Option<Metadata>)

  datatype Request =
    | TurnStart(threadId: Id, images: nat)
    | TurnSteer(threadId: Id, expectedTurnId: Id, images: nat)

  datatype Config = Config(threadId: Id, images: nat, payload: string)

  datatype ItemKind =
    | CommandExecution | FileChange | McpToolCall | DynamicToolCall | CollabAgentToolCall | WebSearch | ImageGeneration
    | UntrackedItem

  /** `inProgress`: the status has no terminal outcome yet (never the case for searches and images). */
  datatype Item = Item(kind: ItemKind, inProgress: bool)

  datatype ToolCounts = ToolCounts(
    total: nat, shellCommand: nat, fileChange: nat, mcpToolCall: nat, dynamicToolCall: nat,
    subagentToolCall: nat, webSearch: nat, imageGeneration: nat)

  const NO_TOOLS := ToolCounts(0, 0, 0, 0, 0, 0, 0, 0)

  datatype Turn = Turn(
    connectionId: Option<nat>, threadId: Option<Id>, images: Option<nat>, config: Option<Config>,
    startedAt: Option<nat>, tokenUsage: Option<string>, completed: Option<string>,
    latestDiff: Option<AcceptedLines.Summary>, steerCount: nat, toolCounts: ToolCounts)

  const NEW_TURN := Turn(None, None, None, None, None, None, None, None, 0, NO_TOOLS)

  datatype ItemKey = ItemKey(threadId: Id, turnId: Id, itemId: Id)

  datatype Subject = SubjectCommand | SubjectFileChange | SubjectMcp | SubjectPermissions | SubjectNetwork

  datatype Reviewer = Guardian | User

  datatype Status = Approved | Denied | TimedOut | Aborted

  datatype Resolution = NoResolution | SessionApproval | ExecPolicyAmendment | NetworkPolicyAmendment

  datatype Review = Review(
    threadId: Id, turnId: Id, itemId: Option<Id>, subject: Subject,
    additionalPermissions: bool, networkAccess: bool)

  datatype Outcome =
    | Unknown | GuardianApproved | GuardianDenied | GuardianAborted
    | UserApproved | UserApprovedForSession | UserDenied | UserAborted

  datatype Summary = Summary(
    reviews: nat, guardianReviews: nat, userReviews: nat, outcome: Option<Outcome>,
    additionalPermissions: bool, networkAccess: bool)

  const NO_REVIEWS := Summary(0, 0, 0, None, false, false)

  /** The approval requests the server sends, with the fields that decide what is being reviewed. */
  datatype Approval =
    | CommandApproval(networkContext: bool, networkAmendments: bool, additional: Option<bool>)
    | FileChangeApproval(grantRoot: bool)
    | PermissionsApproval(network: bool, fileSystem: bool)
    | OtherApproval

  datatype GuardianAction =
    | ActCommand | ActExecve | ActApplyPatch | ActNetworkAccess
    | ActRequestPermissions(network: bool, fileSystem: bool) | ActMcpToolCall

  /** Facts about connections and threads, and facts that only pass through. */
  datatype ThreadFact =
    | Initialize(connectionId: nat, connection: Connection)
    | ThreadResponse(connectionId: nat, threadId: Id, metadata: Metadata)
    | SubAgentThreadStarted(threadId: Id, parent: Option<Id>, subagentSource: string)
    | Compaction(threadId: Id)
    | GuardianReview(threadId: Id)
    | PassThrough(payloads: seq<string>)

  /** Approval requests, their answers, and guardian reviews. */
  datatype ReviewFact =
    | ServerRequest(requestId: Id, threadId: Id, turnId: Id, itemId: Id, approval: Approval, startedAtMs: int)
    | ServerResponse(requestId: Id, status: Status, resolution: Resolution)
    | ServerRequestAborted(requestId: Id)
    | GuardianReviewCompleted(threadId: Id, turnId: Id, targetItemId: Option<Id>, action: GuardianAction,
                              terminal: Option<Status>, startedAtMs: int, completedAtMs: int)

  /** Client requests and their answers. */
  datatype RequestFact =
    | ClientRequest(connectionId: nat, requestId: Id, request: Request)
    | TurnStartResponse(connectionId: nat, requestId: Id, turnId: Id)
    | TurnSteerResponse(connectionId: nat, requestId: Id, turnId: Id)
    | ErrorResponse(connectionId: nat, requestId: Id)

  datatype TurnFact =
    | TurnStarted(turnId: Id, startedAt: Option<int>)
    | TurnDiffUpdated(turnId: Id, threadId: Id, diff: AcceptedLines.Summary)
    | TurnCompleted(turnId: Id, completed: string)
    | TurnResolvedConfig(turnId: Id, config: Config)
    | TurnTokenUsage(turnId: Id, threadId: Id, usage: string)

  datatype ItemFact =
    | ItemStarted(key: ItemKey, item: Item, startedAtMs: int)
    | ItemCompleted(key: ItemKey, item: Item, completedAtMs: int)

  datatype Fact =
    | OnThread(thread: ThreadFact)
    | OnReview(review: ReviewFact)
    | OnRequest(request: RequestFact)
    | OnTurn(turn: TurnFact)
    | OnItem(item: ItemFact)

  datatype Event =
    | ThreadInitialized(threadId: Id, connection: Connection, metadata: Metadata)
    | SubAgentInitialized(threadId: Id)
    | GuardianEvent(threadId: Id, connection: Connection)
    | CompactionEvent(threadId: Id, connection: Connection, metadata: Metadata)
    | TurnEvent(turnId: Id, threadId: Id, connection: Connection, metadata: Metadata, images: nat, config: Config,
                completed: string, startedAt: Option<nat>, tokenUsage: Option<string>, steerCount: nat,
                toolCounts: ToolCounts)
    | AcceptedLinesEvent(turnId: Id, threadId: Id, added: nat, deleted: nat)
    | TurnSteerEvent(threadId: Id, connection: Connection, metadata: Metadata, acceptedTurnId: Option<Id>)
    | ReviewEvent(threadId: Id, connection: Connection, metadata: Metadata, review: Review,
                  reviewer: Reviewer, status: Status, resolution: Resolution)
    | ToolItemEvent(key: ItemKey, kind: ItemKind, threadId: Id, connection: Connection, metadata: Metadata,
                    summary: Summary, outcome: Outcome)
    | PassedThrough(payload: string)

  datatype State = State(
    requests: map<(nat, Id), Request>, turns: map<Id, Turn>, connections: map<nat, Connection>,
    threads: map<Id, Thread>, started: map<ItemKey, nat>, pendingReviews: map<Id, Review>,
    summaries: map<ItemKey, Summary>)

  const EMPTY := State(map[], map[], map[], map[], map[], map[], map[])

  // ---- Expressions ----

  /** `TurnToolCounts::record`. */
  function Record(c: ToolCounts, kind: ItemKind): ToolCounts {
    match kind
    case CommandExecution => c.(total := c.total + 1, shellCommand := c.shellCommand + 1)
    case FileChange => c.(total := c.total + 1, fileChange := c.fileChange + 1)
    case McpToolCall => c.(total := c.total + 1, mcpToolCall := c.mcpToolCall + 1)
    case DynamicToolCall => c.(total := c.total + 1, dynamicToolCall := c.dynamicToolCall + 1)
    case CollabAgentToolCall => c.(total := c.total + 1, subagentToolCall := c.subagentToolCall + 1)
    case WebSearch => c.(total := c.total + 1, webSearch := c.webSearch + 1)
    case ImageGeneration => c.(total := c.total + 1, imageGeneration := c.imageGeneration + 1)
    case UntrackedItem => c
  }

  /** `final_approval_outcome`. */
  function FinalOutcome(reviewer: Reviewer, status: Status, resolution: Resolution): Outcome {
    match (reviewer, status)
    case (Guardian, Approved) => GuardianApproved
    case (Guardian, Denied) => GuardianDenied
    case (Guardian, _) => GuardianAborted
    case (User, Approved) => if resolution.SessionApproval? then UserApprovedForSession else UserApproved
    case (User, Denied) => UserDenied
    case (User, _) => UserAborted
  }

  /** `item_review_summary_key`. */
  function SummaryKey(r: Review): Option<ItemKey> {
    if r.itemId.Some? && (r.subject.SubjectCommand? || r.subject.SubjectFileChange? || r.subject.SubjectMcp?)
    then Some(ItemKey(r.threadId, r.turnId, r.itemId.value)) else None
  }

  /** The review an approval request opens. */
  function ReviewOf(f: ReviewFact): Option<Review>
    requires f.ServerRequest?
  {
    if f.startedAtMs < 0 then None
    else match f.approval
      case CommandApproval(context, amendments, additional) =>
        Some(Review(f.threadId, f.turnId, Some(f.itemId), if context then SubjectNetwork else SubjectCommand,
                    additional.Some?, context || amendments || (additional.Some? && additional.value)))
      case FileChangeApproval(grantRoot) =>
        Some(Review(f.threadId, f.turnId, Some(f.itemId), SubjectFileChange, grantRoot, false))
      case PermissionsApproval(network, fileSystem) =>
        Some(Review(f.threadId, f.turnId, Some(f.itemId), SubjectPermissions, network || fileSystem, network))
      case OtherApproval => None
  }

  /** The review a guardian notification closes, once its status is terminal. */
  function GuardianReviewOf(f: ReviewFact): Option<Review>
    requires f.GuardianReviewCompleted?
  {
    if f.terminal.None? || f.startedAtMs < 0 || f.completedAtMs < 0 then None
    else
      var (subject, additional, network) := match f.action
        case ActCommand => (SubjectCommand, false, false)
        case ActExecve => (SubjectCommand, false, false)
        case ActApplyPatch => (SubjectFileChange, true, false)
        case ActNetworkAccess => (SubjectNetwork, true, true)
        case ActRequestPermissions(net, fs) => (SubjectPermissions, net || fs, net)
        case ActMcpToolCall => (SubjectMcp, false, false);
      Some(Review(f.threadId, f.turnId, f.targetItemId, subject, additional, network))
  }

  /** `thread_connection_or_warn`. */
  function ThreadConnection(s: State, thread: Id): Option<Connection> {
    if thread in s.threads && s.threads[thread].connectionId.Some?
       && s.threads[thread].connectionId.value in s.connections
    then Some(s.connections[s.threads[thread].connectionId.value]) else None
  }

  function ThreadMetadata(s: State, thread: Id): Option<Metadata> {
    if thread in s.threads then s.threads[thread].metadata else None
  }

  /** `thread_context_or_warn` finds both. */
  predicate HasContext(s: State, thread: Id) {
    ThreadConnection(s, thread).Some? && ThreadMetadata(s, thread).Some?
  }

  function TurnOrNew(s: State, t: Id): Turn {
    if t in s.turns then s.turns[t] else NEW_TURN
  }

  // ---- Updates ----

  function UpdateTurn(s: State, t: Id, ts: Turn): State {
    s.(turns := s.turns[t := ts])
  }

  /** `maybe_emit_turn_event` fires. */
  predicate TurnReady(s: State, t: Id) {
    && t in s.turns
    && var ts := s.turns[t];
       && ts.threadId.Some? && ts.images.Some? && ts.config.Some? && ts.completed.Some? && ts.connectionId.Some?
       && ts.connectionId.value in s.connections && ThreadMetadata(s, ts.threadId.value).Some?
  }

  function TurnEventOf(s: State, t: Id): Event
    requires TurnReady(s, t)
  {
    var ts := s.turns[t];
    TurnEvent(t, ts.threadId.value, s.connections[ts.connectionId.value], ThreadMetadata(s, ts.threadId.value).value,
              ts.images.value, ts.config.value, ts.completed.value, ts.startedAt, ts.tokenUsage, ts.steerCount,
              ts.toolCounts)
  }

  function AcceptedLinesOf(s: State, t: Id): seq<Event>
    requires TurnReady(s, t)
  {
    var ts := s.turns[t];
    if ts.latestDiff.None? || (ts.latestDiff.value.added == 0 && ts.latestDiff.value.deleted == 0) then []
    else [AcceptedLinesEvent(t, ts.threadId.value, ts.latestDiff.value.added, ts.latestDiff.value.deleted)]
  }

  /** `maybe_emit_turn_event`. */
  function MaybeEmitTurn(s: State, t: Id): (r: (State, seq<Event>))
    ensures r.0 == s.(turns := r.0.turns)
  {
    if TurnReady(s, t) then (s.(turns := s.turns - {t}), [TurnEventOf(s, t)] + AcceptedLinesOf(s, t)) else (s, [])
  }

  /** `record_item_review_summary`. */
  function AddReview(m: Summary, r: Review, reviewer: Reviewer, status: Status, resolution: Resolution): Summary {
    Summary(m.reviews + 1, m.guardianReviews + (if reviewer.Guardian? then 1 else 0),
            m.userReviews + (if reviewer.User? then 1 else 0), Some(FinalOutcome(reviewer, status, resolution)),
            m.additionalPermissions || r.additionalPermissions, m.networkAccess || r.networkAccess)
  }

  function SummaryOrNone(s: State, key: ItemKey): Summary {
    if key in s.summaries then s.summaries[key] else NO_REVIEWS
  }

  /** `emit_review_event`. */
  function EmitReview(s: State, r: Review, reviewer: Reviewer, status: Status, resolution: Resolution)
    : (State, seq<Event>)
  {
    var key := SummaryKey(r);
    var s' :=
      if key.None? then s
      else
        var m := AddReview(SummaryOrNone(s, key.value), r, reviewer, status, resolution);
        s.(summaries := s.summaries[key.value := m]);
    (s', if HasContext(s, r.threadId)
         then [ReviewEvent(r.threadId, ThreadConnection(s, r.threadId).value, ThreadMetadata(s, r.threadId).value,
                           r, reviewer, status, resolution)]
         else [])
  }

  /** `emit_turn_steer_event`. */
  function EmitSteer(s: State, c: nat, thread: Id, accepted: Option<Id>): seq<Event> {
    if c in s.connections && ThreadMetadata(s, thread).Some?
    then [TurnSteerEvent(thread, s.connections[c], ThreadMetadata(s, thread).value, accepted)] else []
  }

  function ResolveReview(s: State, id: Id, status: Status, resolution: Resolution): (State, seq<Event>) {
    if id in s.pendingReviews
    then EmitReview(s.(pendingReviews := s.pendingReviews - {id}), s.pendingReviews[id], User, status, resolution)
    else (s, [])
  }

  predicate EmitsToolItem(i: Item) {
    i.kind.WebSearch? || i.kind.ImageGeneration? || (!i.kind.UntrackedItem? && !i.inProgress)
  }

  /** The completed item reaches the point where its event is built and its summary removed. */
  predicate ClosesItem(s: State, f: ItemFact) {
    && f.ItemCompleted? && !f.item.kind.UntrackedItem? && f.key.turnId in s.turns
    && f.key in s.started && f.completedAtMs >= 0 && HasContext(s, f.key.threadId)
  }

  function ToolItemEventOf(s: State, f: ItemFact): Event
    requires ClosesItem(s, f)
  {
    var m := SummaryOrNone(s, f.key);
    ToolItemEvent(f.key, f.item.kind, f.key.threadId, ThreadConnection(s, f.key.threadId).value,
                  ThreadMetadata(s, f.key.threadId).value, m, if m.outcome.Some? then m.outcome.value else Unknown)
  }

  /** Tool items starting and completing. */
  function ItemStep(s: State, f: ItemFact): (r: (State, seq<Event>))
    ensures r.0 == s.(turns := r.0.turns, started := r.0.started, summaries := r.0.summaries)
  {
    if f.ItemStarted? then
      (if f.item.kind.UntrackedItem? || f.startedAtMs < 0 then s
       else s.(started := s.started[f.key := f.startedAtMs]), [])
    else if f.item.kind.UntrackedItem? || f.key.turnId !in s.turns then (s, [])
    else
      var ts := s.turns[f.key.turnId];
      var s1 := UpdateTurn(s, f.key.turnId, ts.(toolCounts := Record(ts.toolCounts, f.item.kind)))
                .(started := s.started - {f.key});
      if !ClosesItem(s, f) then (s1, [])
      else (s1.(summaries := s.summaries - {f.key}), if EmitsToolItem(f.item) then [ToolItemEventOf(s, f)] else [])
  }

  function StartSubAgent(s: State, f: ThreadFact): State
    requires f.SubAgentThreadStarted?
  {
    var inherited :=
      if f.parent.Some? && f.parent.value in s.threads then s.threads[f.parent.value].connectionId else None;
    var th := if f.threadId in s.threads then s.threads[f.threadId] else Thread(None, None);
    var metadata :=
      if th.metadata.Some? then th.metadata else Some(Metadata("subagent", Some(f.subagentSource), f.parent));
    var connectionId := if th.connectionId.Some? then th.connectionId else inherited;
    s.(threads := s.threads[f.threadId := Thread(connectionId, metadata)])
  }

  function AsU64(n: Option<int>): Option<nat> {
    if n.Some? && n.value >= 0 then Some(n.value) else None
  }

  /** One event for each invoked skill, mentioned app, hook run or plugin. */
  function PassAll(payloads: seq<string>): seq<Event> {
    if payloads == [] then [] else PassAll(Init(payloads)) + [PassedThrough(Last(payloads))]
  }

  /** Facts about connections and threads touch nothing else. */
  function ThreadStep(s: State, f: ThreadFact): (r: (State, seq<Event>))
    ensures r.0 == s.(connections := r.0.connections, threads := r.0.threads)
  {
    match f
    case Initialize(c, connection) => (s.(connections := s.connections[c := connection]), [])
    case ThreadResponse(c, thread, metadata) =>
      if c !in s.connections then (s, [])
      else (s.(threads := s.threads[thread := Thread(Some(c), Some(metadata))]),
            [ThreadInitialized(thread, s.connections[c], metadata)])
    case SubAgentThreadStarted(thread, _, _) => (StartSubAgent(s, f), [SubAgentInitialized(thread)])
    case Compaction(thread) =>
      (s, if HasContext(s, thread)
          then [CompactionEvent(thread, ThreadConnection(s, thread).value, ThreadMetadata(s, thread).value)] else [])
    case GuardianReview(thread) =>
      (s, if ThreadConnection(s, thread).Some? then [GuardianEvent(thread, ThreadConnection(s, thread).value)] else [])
    case PassThrough(payloads) => (s, PassAll(payloads))
  }

  /** Facts about reviews touch only the pending reviews and the summaries. */
  function ReviewStep(s: State, f: ReviewFact): (r: (State, seq<Event>))
    ensures r.0 == s.(pendingReviews := r.0.pendingReviews, summaries := r.0.summaries)
  {
    match f
    case ServerRequest(id, _, _, _, _, _) =>
      var r := ReviewOf(f);
      (if r.Some? then s.(pendingReviews := s.pendingReviews[id := r.value]) else s, [])
    case ServerResponse(id, status, resolution) => ResolveReview(s, id, status, resolution)
    case ServerRequestAborted(id) => ResolveReview(s, id, Aborted, NoResolution)
    case GuardianReviewCompleted(_, _, _, _, terminal, _, _) =>
      var r := GuardianReviewOf(f);
      if r.Some? then EmitReview(s, r.value, Guardian, terminal.value, NoResolution) else (s, [])
  }

  /** The turn table with a turn-start response matched to its request, before the event is tried. */
  function TurnMatched(s: State, c: nat, r: Id, t: Id): State
    requires (c, r) in s.requests && s.requests[(c, r)].TurnStart?
  {
    var req := s.requests[(c, r)];
    UpdateTurn(s.(requests := s.requests - {(c, r)}), t,
               TurnOrNew(s, t).(connectionId := Some(c), threadId := Some(req.threadId), images := Some(req.images)))
  }

  predicate MatchesStart(s: State, f: RequestFact) {
    && f.TurnStartResponse? && (f.connectionId, f.requestId) in s.requests
    && s.requests[(f.connectionId, f.requestId)].TurnStart?
  }

  /** Client requests and their answers touch only the requests and the turns. */
  function RequestStep(s: State, f: RequestFact): (r: (State, seq<Event>))
    ensures r.0 == s.(requests := r.0.requests, turns := r.0.turns)
  {
    match f
    case ClientRequest(c, r, request) => (s.(requests := s.requests[(c, r) := request]), [])
    case TurnStartResponse(c, r, t) =>
      var s1 := s.(requests := s.requests - {(c, r)});
      if (c, r) in s.requests && s.requests[(c, r)].TurnStart? then
        MaybeEmitTurn(TurnMatched(s, c, r, t), t)
      else (s1, [])
    case TurnSteerResponse(c, r, t) =>
      var s1 := s.(requests := s.requests - {(c, r)});
      if (c, r) in s.requests && s.requests[(c, r)].TurnSteer? then
        (if t in s.turns then UpdateTurn(s1, t, s.turns[t].(steerCount := s.turns[t].steerCount + 1)) else s1,
         EmitSteer(s, c, s.requests[(c, r)].threadId, Some(t)))
      else (s1, [])
    case ErrorResponse(c, r) =>
      (s.(requests := s.requests - {(c, r)}),
       if (c, r) in s.requests && s.requests[(c, r)].TurnSteer?
       then EmitSteer(s, c, s.requests[(c, r)].threadId, None) else [])
  }

  /** The turn table as a turn fact leaves it, before the event is tried. */
  function TurnUpdated(s: State, f: TurnFact): State {
    var ts := TurnOrNew(s, f.turnId);
    UpdateTurn(s, f.turnId, match f
      case TurnStarted(_, at) => ts.(startedAt := AsU64(at))
      case TurnDiffUpdated(_, thread, diff) => ts.(threadId := Some(thread), latestDiff := Some(diff))
      case TurnCompleted(_, completed) => ts.(completed := Some(completed))
      case TurnResolvedConfig(_, config) =>
        ts.(threadId := Some(config.threadId), images := Some(config.images), config := Some(config))
      case TurnTokenUsage(_, thread, usage) => ts.(threadId := Some(thread), tokenUsage := Some(usage)))
  }

  /** Facts about a turn touch only the turns. */
  function TurnStep(s: State, f: TurnFact): (r: (State, seq<Event>))
    ensures r.0 == s.(turns := r.0.turns)
  {
    if f.TurnStarted? || f.TurnDiffUpdated? then (TurnUpdated(s, f), []) else MaybeEmitTurn(TurnUpdated(s, f), f.turnId)
  }

  /** `AnalyticsReducer::ingest`. */
  function Step(s: State, f: Fact): (State, seq<Event>) {
    match f
    case OnThread(g) => ThreadStep(s, g)
    case OnReview(g) => ReviewStep(s, g)
    case OnRequest(g) => RequestStep(s, g)
    case OnTurn(g) => TurnStep(s, g)
    case OnItem(g) => ItemStep(s, g)
  }

  /** The state after a whole run of facts. */
  function Run(s: State, facts: seq<Fact>): State {
    if facts == [] then s else Step(Run(s, Init(facts)), Last(facts)).0
  }

  /** What fact number `i` of a run emits. */
  function EmittedAt(s: State, facts: seq<Fact>, i: nat): seq<Event>
    requires i < |facts|
  {
    Step(Run(s, facts[..i]), facts[i]).1
  }

  lemma RunSnoc(s: State, facts: seq<Fact>, i: nat)
    requires i < |facts|
    ensures Run(s, facts[..i + 1]) == Step(Run(s, facts[..i]), facts[i]).0
  {
    assert Init(facts[..i + 1]) == facts[..i];
  }

  // ---- Which events each kind of fact can emit ----

  lemma {:induction false} PassedOnly(payloads: seq<string>)
    ensures |PassAll(payloads)| == |payloads|
    ensures forall i :: 0 <= i < |payloads| ==> PassAll(payloads)[i] == PassedThrough(payloads[i])
  {
    if payloads != [] {
      PassedOnly(Init(payloads));
    }
  }

  lemma ThreadEvents(s: State, f: ThreadFact)
    ensures forall e :: e in ThreadStep(s, f).1 ==>
      e.ThreadInitialized? || e.SubAgentInitialized? || e.CompactionEvent? || e.GuardianEvent? || e.PassedThrough?
  {
    if f.PassThrough? { PassedOnly(f.payloads); }
  }

  lemma ReviewEvents(s: State, f: ReviewFact)
    ensures forall e :: e in ReviewStep(s, f).1 ==> e.ReviewEvent?
  {
  }

  lemma EmittedTurn(s: State, t: Id)
    ensures forall e :: e in MaybeEmitTurn(s, t).1 ==>
      && TurnReady(s, t)
      && (e == TurnEventOf(s, t) || e.AcceptedLinesEvent?)
  {
  }

  lemma RequestEvents(s: State, f: RequestFact)
    ensures forall e :: e in RequestStep(s, f).1 ==> e.TurnEvent? || e.AcceptedLinesEvent? || e.TurnSteerEvent?
  {
    if MatchesStart(s, f) {
      EmittedTurn(TurnMatched(s, f.connectionId, f.requestId, f.turnId), f.turnId);
    }
  }

  lemma TurnEvents(s: State, f: TurnFact)
    ensures forall e :: e in TurnStep(s, f).1 ==> e.TurnEvent? || e.AcceptedLinesEvent?
  {
    EmittedTurn(TurnUpdated(s, f), f.turnId);
  }
}
