// codex-rs/analytics/src/reducer.rs: review summaries on tool items, and conservation of approval reviews.

module AnalyticsReviews {
  import opened Sequences
  import opened AnalyticsModel

  /** A review that reached a terminal status. */
  datatype Closed = Closed(review: Review, reviewer: Reviewer, status: Status, resolution: Resolution)

  /** The review that fact `f` closes in state `s`, if any. */
  function ClosedBy(s: State, f: ReviewFact): Option<Closed> {
    match f
    case GuardianReviewCompleted(_, _, _, _, terminal, _, _) =>
      var r := GuardianReviewOf(f);
      if r.Some? then Some(Closed(r.value, Guardian, terminal.value, NoResolution)) else None
    case ServerResponse(id, status, resolution) =>
      if id in s.pendingReviews then Some(Closed(s.pendingReviews[id], User, status, resolution)) else None
    case ServerRequestAborted(id) =>
      if id in s.pendingReviews then Some(Closed(s.pendingReviews[id], User, Aborted, NoResolution)) else None
    case ServerRequest(_, _, _, _, _, _) => None
  }

  /** The review of the tool item `key` that fact `f` closes, if any. */
  function ClosedFor(s: State, f: Fact, key: ItemKey): Option<Closed> {
    if f.OnReview? && ClosedBy(s, f.review).Some? && SummaryKey(ClosedBy(s, f.review).value.review) == Some(key)
    then ClosedBy(s, f.review) else None
  }

  predicate Clears(s: State, f: Fact, key: ItemKey) {
    f.OnItem? && ClosesItem(s, f.item) && f.item.key == key
  }

  /** The reviews closed for a tool item since its summary was last cleared. */
  function Log(facts: seq<Fact>, key: ItemKey): seq<Closed> {
    if facts == [] then []
    else
      var s, f, before := Run(EMPTY, Init(facts)), Last(facts), Log(Init(facts), key);
      var c := ClosedFor(s, f, key);
      if Clears(s, f, key) then [] else if c.Some? then before + [c.value] else before
  }

  function CountBy(log: seq<Closed>, reviewer: Reviewer): nat {
    if log == [] then 0 else CountBy(Init(log), reviewer) + if Last(log).reviewer == reviewer then 1 else 0
  }

  /** `m` says of `log`: how many reviews, by whom, how the last one ended, and what any of them asked for. */
  ghost predicate Describes(m: Summary, log: seq<Closed>) {
    && m.reviews == |log|
    && m.guardianReviews == CountBy(log, Guardian)
    && m.userReviews == CountBy(log, User)
    && m.outcome == (if log == [] then None
                     else Some(FinalOutcome(Last(log).reviewer, Last(log).status, Last(log).resolution)))
    && (m.additionalPermissions <==> exists c :: c in log && c.review.additionalPermissions)
    && (m.networkAccess <==> exists c :: c in log && c.review.networkAccess)
  }

  lemma DescribesAdd(m: Summary, log: seq<Closed>, c: Closed)
    requires Describes(m, log)
    ensures Describes(AddReview(m, c.review, c.reviewer, c.status, c.resolution), log + [c])
  {
    var log' := log + [c];
    assert Init(log') == log;
    assert forall x :: x in log' <==> x in log || x == c;
    assert c in log';
  }

  /** A fact changes the summary of `key` only by clearing it or by adding the review it closes. */
  ghost predicate SummaryEffect(s: State, f: Fact, key: ItemKey, s': State) {
    var c := ClosedFor(s, f, key);
    if Clears(s, f, key) then key !in s'.summaries
    else if c.Some? then
      key in s'.summaries && s'.summaries[key] ==
        AddReview(SummaryOrNone(s, key), c.value.review, c.value.reviewer, c.value.status, c.value.resolution)
    else (key in s'.summaries <==> key in s.summaries) && SummaryOrNone(s', key) == SummaryOrNone(s, key)
  }

  lemma EmitReviewEffect(s: State, c: Closed, key: ItemKey)
    ensures var s' := EmitReview(s, c.review, c.reviewer, c.status, c.resolution).0;
      if SummaryKey(c.review) == Some(key) then
        key in s'.summaries && s'.summaries[key] ==
          AddReview(SummaryOrNone(s, key), c.review, c.reviewer, c.status, c.resolution)
      else (key in s'.summaries <==> key in s.summaries) && SummaryOrNone(s', key) == SummaryOrNone(s, key)
  {
  }

  lemma SummaryReviewStep(s: State, f: ReviewFact, key: ItemKey)
    ensures SummaryEffect(s, OnReview(f), key, ReviewStep(s, f).0)
  {
    var c := ClosedBy(s, f);
    if c.Some? {
      var s1 := if f.GuardianReviewCompleted? then s else s.(pendingReviews := s.pendingReviews - {f.requestId});
      assert SummaryOrNone(s1, key) == SummaryOrNone(s, key);
      EmitReviewEffect(s1, c.value, key);
    }
  }

  lemma SummaryItemStep(s: State, f: ItemFact, key: ItemKey)
    ensures SummaryEffect(s, OnItem(f), key, ItemStep(s, f).0)
  {
  }

  lemma SummaryStep(s: State, f: Fact, key: ItemKey)
    ensures SummaryEffect(s, f, key, Step(s, f).0)
  {
    match f {
      case OnReview(g) => SummaryReviewStep(s, g, key);
      case OnItem(g) => SummaryItemStep(s, g, key);
      case OnThread(g) => assert ThreadStep(s, g).0.summaries == s.summaries;
      case OnRequest(g) => assert RequestStep(s, g).0.summaries == s.summaries;
      case OnTurn(g) => assert TurnStep(s, g).0.summaries == s.summaries;
    }
  }

  /** In every reachable state each stored summary is the account of the reviews since the last clearing. */
  lemma {:induction false} SummariesAccountForReviews(facts: seq<Fact>, key: ItemKey)
    ensures key in Run(EMPTY, facts).summaries <==> Log(facts, key) != []
    ensures Describes(SummaryOrNone(Run(EMPTY, facts), key), Log(facts, key))
  {
    if facts != [] {
      var s, f := Run(EMPTY, Init(facts)), Last(facts);
      SummariesAccountForReviews(Init(facts), key);
      SummaryStep(s, f, key);
      var c := ClosedFor(s, f, key);
      if c.Some? {
        DescribesAdd(SummaryOrNone(s, key), Log(Init(facts), key), c.value);
      }
    }
  }

  lemma {:induction false} CountsAddUp(log: seq<Closed>)
    ensures |log| == CountBy(log, Guardian) + CountBy(log, User)
  {
    if log != [] {
      CountsAddUp(Init(log));
    }
  }

  /** Only command, file-change and MCP reviews of exactly that thread, turn and item ever enter the log. */
  lemma {:induction false} LogIsAboutItem(facts: seq<Fact>, key: ItemKey)
    ensures forall c :: c in Log(facts, key) ==>
      SummaryKey(c.review) == Some(key) && !c.review.subject.SubjectPermissions? && !c.review.subject.SubjectNetwork?
    ensures |Log(facts, key)| == CountBy(Log(facts, key), Guardian) + CountBy(Log(facts, key), User)
  {
    if facts != [] {
      LogIsAboutItem(Init(facts), key);
      CountsAddUp(Log(facts, key));
    }
  }

  lemma ToolEventCompletesItem(s: State, f: Fact, e: Event)
    requires e in Step(s, f).1 && e.ToolItemEvent?
    ensures f.OnItem? && ClosesItem(s, f.item) && e == ToolItemEventOf(s, f.item)
  {
    match f {
      case OnReview(g) => ReviewEvents(s, g);
      case OnItem(g) =>
      case OnThread(g) => ThreadEvents(s, g);
      case OnRequest(g) => RequestEvents(s, g);
      case OnTurn(g) => TurnEvents(s, g);
    }
  }

  /** The review fields of every tool item event account for the reviews of that item since the last clearing. */
  lemma ToolItemEventReviews(facts: seq<Fact>, f: Fact, e: Event)
    requires e in Step(Run(EMPTY, facts), f).1 && e.ToolItemEvent?
    ensures Describes(e.summary, Log(facts, e.key))
    ensures e.summary.reviews == e.summary.guardianReviews + e.summary.userReviews
    ensures var log := Log(facts, e.key);
      e.outcome ==
        if log == [] then Unknown else FinalOutcome(Last(log).reviewer, Last(log).status, Last(log).resolution)
    ensures Log(facts + [f], e.key) == []
  {
    ToolEventCompletesItem(Run(EMPTY, facts), f, e);
    SummariesAccountForReviews(facts, e.key);
    CountsAddUp(Log(facts, e.key));
    assert Init(facts + [f]) == facts;
  }

  // ---- Conservation of approval reviews ----

  predicate Stores(f: Fact, id: Id) {
    f.OnReview? && f.review.ServerRequest? && f.review.requestId == id && ReviewOf(f.review).Some?
  }

  predicate Answers(f: Fact, id: Id) {
    f.OnReview? && (f.review.ServerResponse? || f.review.ServerRequestAborted?) && f.review.requestId == id
  }

  function Stored(facts: seq<Fact>, id: Id): nat {
    if facts == [] then 0 else Stored(Init(facts), id) + if Stores(Last(facts), id) then 1 else 0
  }

  function Resolved(facts: seq<Fact>, id: Id): nat {
    if facts == [] then 0
    else
      var resolves := Answers(Last(facts), id) && ClosedBy(Run(EMPTY, Init(facts)), Last(facts).review).Some?;
      Resolved(Init(facts), id) + if resolves then 1 else 0
  }

  function Overwritten(facts: seq<Fact>, id: Id): nat {
    if facts == [] then 0
    else
      var overwrites := Stores(Last(facts), id) && id in Run(EMPTY, Init(facts)).pendingReviews;
      Overwritten(Init(facts), id) + if overwrites then 1 else 0
  }

  lemma PendingReviewStep(s: State, f: ReviewFact, id: Id)
    ensures id in ReviewStep(s, f).0.pendingReviews <==>
      Stores(OnReview(f), id) || (id in s.pendingReviews && !Answers(OnReview(f), id))
    ensures Answers(OnReview(f), id) && id !in s.pendingReviews ==> ReviewStep(s, f) == (s, [])
  {
  }

  lemma PendingStep(s: State, f: Fact, id: Id)
    ensures id in Step(s, f).0.pendingReviews <==> Stores(f, id) || (id in s.pendingReviews && !Answers(f, id))
    ensures Answers(f, id) && id !in s.pendingReviews ==> Step(s, f) == (s, [])
  {
    match f {
      case OnReview(g) => PendingReviewStep(s, g, id);
      case OnItem(g) => assert ItemStep(s, g).0.pendingReviews == s.pendingReviews;
      case OnThread(g) => assert ThreadStep(s, g).0.pendingReviews == s.pendingReviews;
      case OnRequest(g) => assert RequestStep(s, g).0.pendingReviews == s.pendingReviews;
      case OnTurn(g) => assert TurnStep(s, g).0.pendingReviews == s.pendingReviews;
    }
  }

  /** Stored approval requests = resolved + overwritten + still pending, for every id in every reachable state. */
  lemma {:induction false} ReviewsConserved(facts: seq<Fact>, id: Id)
    ensures Stored(facts, id) == Resolved(facts, id) + Overwritten(facts, id) +
      if id in Run(EMPTY, facts).pendingReviews then 1 else 0
  {
    if facts != [] {
      ReviewsConserved(Init(facts), id);
      PendingStep(Run(EMPTY, Init(facts)), Last(facts), id);
    }
  }

  /** Once answered or aborted, an id produces nothing and changes nothing until it is stored again. */
  lemma {:induction false} SilentUntilStored(s: State, facts: seq<Fact>, id: Id)
    requires id !in s.pendingReviews && forall f :: f in facts ==> !Stores(f, id)
    ensures id !in Run(s, facts).pendingReviews
    ensures forall i :: 0 <= i < |facts| && Answers(facts[i], id) ==>
      Step(Run(s, facts[..i]), facts[i]) == (Run(s, facts[..i]), [])
  {
    if facts != [] {
      var front := Init(facts);
      SilentUntilStored(s, front, id);
      PendingStep(Run(s, front), Last(facts), id);
      assert forall i :: 0 <= i < |front| ==> front[..i] == facts[..i];
      assert Last(facts) in facts && facts[..|front|] == front;
    }
  }
}
