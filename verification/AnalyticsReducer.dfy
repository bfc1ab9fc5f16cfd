// codex-rs/analytics/src/reducer.rs: the reducer's methods update the seven maps in place;
// each is proved against the state machine of AnalyticsModel.

module AnalyticsReducer {
  import opened Sequences
  import opened AnalyticsModel
  import Reviews = AnalyticsReviews
  import Turns = AnalyticsTurns

  // ---- What a whole queue of facts amounts to ----

  /** The event lists sent for `facts`, one for each. */
  ghost predicate SentFor(facts: seq<Fact>, sent: seq<seq<Event>>) {
    |sent| == |facts| && forall i :: 0 <= i < |facts| ==> sent[i] == EmittedAt(EMPTY, facts, i)
  }

  /** The only turn event sent for the turn of `j` from fact `k` on is the one at the last of its three facts. */
  ghost predicate ReportedOnce(j: Turns.Join, facts: seq<Fact>, sent: seq<seq<Event>>, k: nat, a: Turns.Arrival)
    requires |sent| == |facts|
  {
    forall n :: k <= n < |facts| ==> Turns.OneReport(j, Run(EMPTY, facts[..n]), sent[n], n == k + Turns.LastOf(a))
  }

  /** Every turn whose three facts arrive after fact `k`, with the other facts benign, is reported exactly once. */
  ghost predicate JoinsReported(facts: seq<Fact>, sent: seq<seq<Event>>)
    requires |sent| == |facts|
  {
    forall j, k, a ::
      && 0 <= k <= |facts| && Turns.Consistent(j) && Turns.Arrives(j, facts[k..], a)
      && Turns.Gathering(j, Run(EMPTY, facts[..k]), a.request.None?, false, false, false)
      ==> ReportedOnce(j, facts, sent, k, a)
  }

  /** Tool item events carry the account of their reviews, turn events that of their items and steers. */
  ghost predicate EventAccounts(before: seq<Fact>, e: Event) {
    && (e.ToolItemEvent? ==> Reviews.Describes(e.summary, Reviews.Log(before, e.key)))
    && (e.TurnEvent? ==>
          e.toolCounts == Turns.Tally(Turns.Tools(before, e.turnId)) && e.steerCount == Turns.Steers(before, e.turnId))
  }

  ghost predicate EventsAccount(facts: seq<Fact>, sent: seq<seq<Event>>)
    requires |sent| == |facts|
  {
    forall i, e :: 0 <= i < |facts| && e in sent[i] ==> EventAccounts(facts[..i], e)
  }

  lemma {:induction false} RunConcat(s: State, xs: seq<Fact>, ys: seq<Fact>)
    ensures Run(s, xs + ys) == Run(Run(s, xs), ys)
  {
    if ys == [] {
      assert xs + ys == xs;
    } else {
      assert Init(xs + ys) == xs + Init(ys);
      RunConcat(s, xs, Init(ys));
    }
  }

  lemma Shifted(facts: seq<Fact>, k: nat, n: nat)
    requires k <= n < |facts|
    ensures var s, rest := Run(EMPTY, facts[..k]), facts[k..];
      && Run(EMPTY, facts[..n]) == Run(s, rest[..n - k])
      && EmittedAt(EMPTY, facts, n) == EmittedAt(s, rest, n - k)
  {
    assert facts[..k] + facts[k..][..n - k] == facts[..n];
    RunConcat(EMPTY, facts[..k], facts[k..][..n - k]);
  }

  lemma JoinReportedIn(
    s: State, rest: seq<Fact>, j: Turns.Join, a: Turns.Arrival, m: nat, before: State, out: seq<Event>)
    requires m < |rest| && Turns.Consistent(j) && Turns.Arrives(j, rest, a)
    requires Turns.Gathering(j, s, a.request.None?, false, false, false)
    requires before == Run(s, rest[..m]) && out == EmittedAt(s, rest, m)
    ensures Turns.OneReport(j, before, out, m == Turns.LastOf(a))
  {
    Turns.TurnReportedOnce(j, s, rest, a, m);
  }

  lemma JoinReported(facts: seq<Fact>, sent: seq<seq<Event>>, j: Turns.Join, k: nat, a: Turns.Arrival, n: nat)
    requires SentFor(facts, sent)
    requires k <= n < |facts| && Turns.Consistent(j) && Turns.Arrives(j, facts[k..], a)
    requires Turns.Gathering(j, Run(EMPTY, facts[..k]), a.request.None?, false, false, false)
    ensures Turns.OneReport(j, Run(EMPTY, facts[..n]), sent[n], n == k + Turns.LastOf(a))
  {
    Shifted(facts, k, n);
    JoinReportedIn(Run(EMPTY, facts[..k]), facts[k..], j, a, n - k, Run(EMPTY, facts[..n]), sent[n]);
  }

  lemma SentAccounts(facts: seq<Fact>, sent: seq<seq<Event>>)
    requires SentFor(facts, sent)
    ensures EventsAccount(facts, sent)
  {
    forall i, e | 0 <= i < |facts| && e in sent[i] ensures EventAccounts(facts[..i], e) {
      if e.ToolItemEvent? { Reviews.ToolItemEventReviews(facts[..i], facts[i], e); }
      if e.TurnEvent? { Turns.TurnEventCounts(facts[..i], facts[i], e); }
    }
  }

  lemma SentReportsJoins(facts: seq<Fact>, sent: seq<seq<Event>>)
    requires SentFor(facts, sent)
    ensures JoinsReported(facts, sent)
  {
    forall j, k, a |
      && 0 <= k <= |facts| && Turns.Consistent(j) && Turns.Arrives(j, facts[k..], a)
      && Turns.Gathering(j, Run(EMPTY, facts[..k]), a.request.None?, false, false, false)
      ensures ReportedOnce(j, facts, sent, k, a)
    {
      forall n | k <= n < |facts|
        ensures Turns.OneReport(j, Run(EMPTY, facts[..n]), sent[n], n == k + Turns.LastOf(a))
      {
        JoinReported(facts, sent, j, k, a, n);
      }
    }
  }

  ghost function Pending(facts: seq<Fact>, id: Id): int {
    Reviews.Stored(facts, id) - Reviews.Resolved(facts, id) - Reviews.Overwritten(facts, id)
  }

  /** Every approval request stored was resolved, overwritten or is pending. */
  ghost predicate ReviewsKept(facts: seq<Fact>, s: State) {
    forall id :: Pending(facts, id) == if id in s.pendingReviews then 1 else 0
  }

  lemma AllReviewsKept(facts: seq<Fact>)
    ensures ReviewsKept(facts, Run(EMPTY, facts))
  {
    forall id ensures Pending(facts, id) == if id in Run(EMPTY, facts).pendingReviews then 1 else 0 {
      Reviews.ReviewsConserved(facts, id);
    }
  }

  class Reducer {
    var requests: map<(nat, Id), Request>
    var turns: map<Id, Turn>
    var connections: map<nat, Connection>
    var threads: map<Id, Thread>
    var toolItemsStartedAtMs: map<ItemKey, nat>
    var pendingReviews: map<Id, Review>
    var itemReviewSummaries: map<ItemKey, Summary>

    function View(): State
      reads this
    {
      State(requests, turns, connections, threads, toolItemsStartedAtMs, pendingReviews, itemReviewSummaries)
    }

    constructor ()
      ensures View() == EMPTY
    {
      requests, turns, connections, threads := map[], map[], map[], map[];
      toolItemsStartedAtMs, pendingReviews, itemReviewSummaries := map[], map[], map[];
    }

    /** `maybe_emit_turn_event`. */
    method MaybeEmitTurnEvent(t: Id) returns (out: seq<Event>)
      modifies this`turns
      ensures (View(), out) == MaybeEmitTurn(old(View()), t)
    {
      out := [];
      if t !in turns { return; }
      var ts := turns[t];
      if ts.threadId.None? || ts.images.None? || ts.config.None? || ts.completed.None? { return; }
      if ts.connectionId.None? || ts.connectionId.value !in connections { return; }
      if ThreadMetadata(View(), ts.threadId.value).None? { return; }
      out := [TurnEventOf(View(), t)] + AcceptedLinesOf(View(), t);
      turns := turns - {t};
    }

    /** `record_item_review_summary`. */
    method RecordItemReviewSummary(key: ItemKey, reviewer: Reviewer, status: Status, resolution: Resolution, r: Review)
      modifies this`itemReviewSummaries
      ensures itemReviewSummaries == old(itemReviewSummaries)[key :=
        AddReview(SummaryOrNone(old(View()), key), r, reviewer, status, resolution)]
    {
      var m := SummaryOrNone(View(), key);
      m := m.(reviews := m.reviews + 1);
      match reviewer {
        case Guardian => m := m.(guardianReviews := m.guardianReviews + 1);
        case User => m := m.(userReviews := m.userReviews + 1);
      }
      m := m.(outcome := Some(FinalOutcome(reviewer, status, resolution)));
      m := m.(additionalPermissions := m.additionalPermissions || r.additionalPermissions);
      m := m.(networkAccess := m.networkAccess || r.networkAccess);
      itemReviewSummaries := itemReviewSummaries[key := m];
    }

    /** `emit_review_event`. */
    method EmitReviewEvent(r: Review, reviewer: Reviewer, status: Status, resolution: Resolution)
      returns (out: seq<Event>)
      modifies this`itemReviewSummaries
      ensures (View(), out) == EmitReview(old(View()), r, reviewer, status, resolution)
    {
      var key := SummaryKey(r);
      if key.Some? {
        RecordItemReviewSummary(key.value, reviewer, status, resolution, r);
      }
      if !HasContext(View(), r.threadId) { return []; }
      var connection, metadata := ThreadConnection(View(), r.threadId).value, ThreadMetadata(View(), r.threadId).value;
      out := [ReviewEvent(r.threadId, connection, metadata, r, reviewer, status, resolution)];
    }

    /** The removal and report of a pending review by an answer or an abort. */
    method Resolve(id: Id, status: Status, resolution: Resolution) returns (out: seq<Event>)
      modifies this`pendingReviews, this`itemReviewSummaries
      ensures (View(), out) == ResolveReview(old(View()), id, status, resolution)
    {
      if id !in pendingReviews { return []; }
      var r := pendingReviews[id];
      pendingReviews := pendingReviews - {id};
      out := EmitReviewEvent(r, User, status, resolution);
    }

    /**
     * `ingest_initialize`, `emit_thread_initialized`, `ingest_subagent_thread_started`, `ingest_compaction`,
     * `ingest_guardian_review`, and the facts that only pass through.
     */
    method IngestThread(f: ThreadFact) returns (out: seq<Event>)
      modifies this`connections, this`threads
      ensures (View(), out) == ThreadStep(old(View()), f)
    {
      out := [];
      match f {
        case Initialize(c, connection) =>
          connections := connections[c := connection];
        case ThreadResponse(c, thread, metadata) =>
          if c in connections {
            threads := threads[thread := Thread(Some(c), Some(metadata))];
            out := [ThreadInitialized(thread, connections[c], metadata)];
          }
        case SubAgentThreadStarted(thread, parent, source) =>
          var parentConnection :=
            if parent.Some? && parent.value in threads then threads[parent.value].connectionId else None;
          var state := if thread in threads then threads[thread] else Thread(None, None);
          if state.metadata.None? {
            state := state.(metadata := Some(Metadata("subagent", Some(source), parent)));
          }
          if state.connectionId.None? {
            state := state.(connectionId := parentConnection);
          }
          threads := threads[thread := state];
          out := [SubAgentInitialized(thread)];
        case Compaction(thread) =>
          if HasContext(View(), thread) {
            var connection, metadata := ThreadConnection(View(), thread).value, ThreadMetadata(View(), thread).value;
            out := [CompactionEvent(thread, connection, metadata)];
          }
        case GuardianReview(thread) =>
          if ThreadConnection(View(), thread).Some? {
            out := [GuardianEvent(thread, ThreadConnection(View(), thread).value)];
          }
        case PassThrough(payloads) =>
          for n := 0 to |payloads|
            invariant out == PassAll(payloads[..n]) && View() == old(View())
          {
            assert Init(payloads[..n + 1]) == payloads[..n];
            out := out + [PassedThrough(payloads[n])];
          }
          assert payloads[..|payloads|] == payloads;
      }
    }

    /**
     * `ingest_server_request`, `ingest_server_response`, the permission and abort variants, and
     * `ingest_guardian_review_completed`.
     */
    method IngestReview(f: ReviewFact) returns (out: seq<Event>)
      modifies this`pendingReviews, this`itemReviewSummaries
      ensures (View(), out) == ReviewStep(old(View()), f)
    {
      out := [];
      match f {
        case ServerRequest(id, _, _, _, _, _) =>
          var r := ReviewOf(f);
          if r.Some? { pendingReviews := pendingReviews[id := r.value]; }
        case ServerResponse(id, status, resolution) =>
          out := Resolve(id, status, resolution);
        case ServerRequestAborted(id) =>
          out := Resolve(id, Aborted, NoResolution);
        case GuardianReviewCompleted(_, _, _, _, terminal, _, _) =>
          var r := GuardianReviewOf(f);
          if r.Some? { out := EmitReviewEvent(r.value, Guardian, terminal.value, NoResolution); }
      }
    }

    /** `ingest_request`, `ingest_response`, `ingest_turn_steer_response`, `ingest_error_response`. */
    method IngestRequest(f: RequestFact) returns (out: seq<Event>)
      modifies this`requests, this`turns
      ensures (View(), out) == RequestStep(old(View()), f)
    {
      out := [];
      var id := (f.connectionId, f.requestId);
      if f.ClientRequest? {
        requests := requests[id := f.request];
        return;
      }
      var pending := if id in requests then Some(requests[id]) else None;
      requests := requests - {id};
      match f {
        case TurnStartResponse(c, _, t) =>
          if pending.Some? && pending.value.TurnStart? {
            var ts := TurnOrNew(View(), t);
            ts := ts.(connectionId := Some(c), threadId := Some(pending.value.threadId));
            turns := turns[t := ts.(images := Some(pending.value.images))];
            out := MaybeEmitTurnEvent(t);
          }
        case TurnSteerResponse(c, _, t) =>
          if pending.Some? && pending.value.TurnSteer? {
            if t in turns {
              turns := turns[t := turns[t].(steerCount := turns[t].steerCount + 1)];
            }
            out := EmitSteer(View(), c, pending.value.threadId, Some(t));
          }
        case ErrorResponse(c, _) =>
          if pending.Some? && pending.value.TurnSteer? {
            out := EmitSteer(View(), c, pending.value.threadId, None);
          }
      }
    }

    /** `ingest_turn_resolved_config`, `ingest_turn_token_usage` and the turn arms of `ingest_notification`. */
    method IngestTurn(f: TurnFact) returns (out: seq<Event>)
      modifies this`turns
      ensures (View(), out) == TurnStep(old(View()), f)
    {
      out := [];
      var t := f.turnId;
      var ts := TurnOrNew(View(), t);
      match f {
        case TurnStarted(_, at) =>
          turns := turns[t := ts.(startedAt := AsU64(at))];
        case TurnDiffUpdated(_, thread, diff) =>
          turns := turns[t := ts.(threadId := Some(thread), latestDiff := Some(diff))];
        case TurnCompleted(_, completed) =>
          turns := turns[t := ts.(completed := Some(completed))];
          out := MaybeEmitTurnEvent(t);
        case TurnResolvedConfig(_, config) =>
          ts := ts.(threadId := Some(config.threadId), images := Some(config.images));
          turns := turns[t := ts.(config := Some(config))];
          out := MaybeEmitTurnEvent(t);
        case TurnTokenUsage(_, thread, usage) =>
          turns := turns[t := ts.(threadId := Some(thread), tokenUsage := Some(usage))];
          out := MaybeEmitTurnEvent(t);
      }
    }

    /** The item arms of `ingest_notification`. */
    method IngestItem(f: ItemFact) returns (out: seq<Event>)
      modifies this`turns, this`toolItemsStartedAtMs, this`itemReviewSummaries
      ensures (View(), out) == ItemStep(old(View()), f)
    {
      out := [];
      if f.item.kind.UntrackedItem? { return; }
      if f.ItemStarted? {
        if f.startedAtMs >= 0 {
          toolItemsStartedAtMs := toolItemsStartedAtMs[f.key := f.startedAtMs];
        }
        return;
      }
      var t := f.key.turnId;
      if t !in turns { return; }
      turns := turns[t := turns[t].(toolCounts := Record(turns[t].toolCounts, f.item.kind))];
      if f.key !in toolItemsStartedAtMs {
        assert toolItemsStartedAtMs - {f.key} == toolItemsStartedAtMs;
        return;
      }
      toolItemsStartedAtMs := toolItemsStartedAtMs - {f.key};
      if f.completedAtMs < 0 { return; }
      if !HasContext(View(), f.key.threadId) { return; }
      if EmitsToolItem(f.item) {
        var m := if f.key in itemReviewSummaries then itemReviewSummaries[f.key] else NO_REVIEWS;
        out := [ToolItemEvent(f.key, f.item.kind, f.key.threadId, ThreadConnection(View(), f.key.threadId).value,
                              ThreadMetadata(View(), f.key.threadId).value, m,
                              if m.outcome.Some? then m.outcome.value else Unknown)];
      }
      itemReviewSummaries := itemReviewSummaries - {f.key};
    }

    /** `ingest`. */
    method Ingest(f: Fact) returns (out: seq<Event>)
      modifies this
      ensures (View(), out) == Step(old(View()), f)
    {
      match f {
        case OnThread(g) => out := IngestThread(g);
        case OnReview(g) => out := IngestReview(g);
        case OnRequest(g) => out := IngestRequest(g);
        case OnTurn(g) => out := IngestTurn(g);
        case OnItem(g) => out := IngestItem(g);
      }
    }

    /** The loop of the queue task: every queued fact is reduced in order, each giving one list of events. */
    method IngestAll(facts: seq<Fact>) returns (sent: seq<seq<Event>>)
      requires View() == EMPTY
      modifies this
      ensures View() == Run(EMPTY, facts) && SentFor(facts, sent)
    {
      sent := [];
      for n := 0 to |facts|
        invariant View() == Run(EMPTY, facts[..n]) && |sent| == n
        invariant forall i :: 0 <= i < n ==> sent[i] == EmittedAt(EMPTY, facts, i)
      {
        RunSnoc(EMPTY, facts, n);
        var out := Ingest(facts[n]);
        sent := sent + [out];
      }
      assert facts[..|facts|] == facts;
    }

    /**
     * The queue task of client.rs, over whatever is queued: each turn whose facts join is reported exactly
     * once, every tool item and turn event accounts for the facts before it, and no approval review is
     * lost or reported twice.
     */
    method Drain(facts: seq<Fact>) returns (sent: seq<seq<Event>>)
      requires View() == EMPTY
      modifies this
      ensures View() == Run(EMPTY, facts) && SentFor(facts, sent)
      ensures JoinsReported(facts, sent) && EventsAccount(facts, sent) && ReviewsKept(facts, View())
    {
      sent := IngestAll(facts);
      SentReportsJoins(facts, sent);
      SentAccounts(facts, sent);
      AllReviewsKept(facts);
    }
  }
}
