// codex-rs/analytics/src/client.rs: `track_event_request_batches`.

module EventBatches {

  datatype TrackEvent = AcceptedLineFingerprints(payload: nat) | OtherEvent(payload: nat)

  /** `should_send_in_isolated_request`. */
  predicate Isolated(e: TrackEvent) {
    e.AcceptedLineFingerprints?
  }

  function Concat(batches: seq<seq<TrackEvent>>): seq<TrackEvent> {
    if batches == [] then [] else Concat(batches[..|batches| - 1]) + batches[|batches| - 1]
  }

  predicate BatchOk(b: seq<TrackEvent>) {
    b != [] && (|b| == 1 || forall e :: e in b ==> !Isolated(e))
  }

  /** A way to send `events` in order, without empty requests, with every isolated event alone. */
  predicate Partition(events: seq<TrackEvent>, batches: seq<seq<TrackEvent>>) {
    Concat(batches) == events && forall b :: b in batches ==> BatchOk(b)
  }

  /** The requests no partition can avoid: one, and one more at each side of an isolated event. */
  function Needed(events: seq<TrackEvent>): nat {
    if events == [] then 0
    else
      var front, e := events[..|events| - 1], events[|events| - 1];
      Needed(front) + if front == [] || Isolated(front[|front| - 1]) || Isolated(e) then 1 else 0
  }

  lemma NeededSnoc(events: seq<TrackEvent>, e: TrackEvent)
    ensures Needed(events + [e]) == Needed(events) +
      if events == [] || Isolated(events[|events| - 1]) || Isolated(e) then 1 else 0
  {
    assert (events + [e])[..|events|] == events;
  }

  lemma {:induction false} OneBatchSavesNothing(events: seq<TrackEvent>, b: seq<TrackEvent>)
    requires BatchOk(b)
    ensures Needed(events + b) <= Needed(events) + 1
    decreases |b|
  {
    var front, e := b[..|b| - 1], b[|b| - 1];
    assert events + b == (events + front) + [e];
    NeededSnoc(events + front, e);
    if front == [] {
      assert events + front == events;
    } else {
      OneBatchSavesNothing(events, front);
      assert (events + front)[|events + front| - 1] == front[|front| - 1];
      assert front[|front| - 1] in b && e in b;
    }
  }

  /** No partition uses fewer batches. */
  lemma {:induction false} NeededIsLeast(events: seq<TrackEvent>, batches: seq<seq<TrackEvent>>)
    requires Partition(events, batches)
    ensures Needed(events) <= |batches|
    decreases |batches|
  {
    if batches != [] {
      var front, b := batches[..|batches| - 1], batches[|batches| - 1];
      assert b in batches;
      NeededIsLeast(Concat(front), front);
      OneBatchSavesNothing(Concat(front), b);
    }
  }

  lemma PartitionSnoc(events: seq<TrackEvent>, batches: seq<seq<TrackEvent>>, b: seq<TrackEvent>)
    requires Partition(events, batches) && BatchOk(b)
    ensures Partition(events + b, batches + [b])
  {
    assert (batches + [b])[..|batches|] == batches;
  }

  /** `track_event_request_batches`. */
  method TrackEventRequestBatches(events: seq<TrackEvent>) returns (batches: seq<seq<TrackEvent>>)
    ensures Partition(events, batches)
    ensures forall other :: Partition(events, other) ==> |batches| <= |other|
  {
    batches := [];
    var currentBatch: seq<TrackEvent> := [];
    for i := 0 to |events|
      invariant Partition(Concat(batches), batches) && Concat(batches) + currentBatch == events[..i]
      invariant forall e :: e in currentBatch ==> !Isolated(e)
      invariant |batches| + (if currentBatch == [] then 0 else 1) == Needed(events[..i])
      invariant i > 0 ==> (currentBatch == [] <==> Isolated(events[i - 1]))
    {
      var event := events[i];
      assert events[..i + 1] == events[..i] + [event];
      NeededSnoc(events[..i], event);
      if Isolated(event) {
        if currentBatch != [] {
          PartitionSnoc(Concat(batches), batches, currentBatch);
          batches := batches + [currentBatch];
          currentBatch := [];
        }
        PartitionSnoc(Concat(batches), batches, [event]);
        batches := batches + [[event]];
      } else {
        currentBatch := currentBatch + [event];
      }
    }
    assert events[..|events|] == events;
    if currentBatch != [] {
      PartitionSnoc(Concat(batches), batches, currentBatch);
      batches := batches + [currentBatch];
    }
    forall other | Partition(events, other) ensures |batches| <= |other| {
      NeededIsLeast(events, other);
    }
  }
}
