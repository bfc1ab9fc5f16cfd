// codex-rs/app-server-client/src/lib.rs: forwarding runtime events to a bounded consumer queue.
// Lossless events wait for room; best-effort events are dropped, counted, and reported by a lag marker.

module InProcessForwarder {
  import opened Sequences

  datatype Notification =
    | TurnCompleted(payload: nat)
    | ThreadSettingsUpdated(payload: nat)
    | ItemCompleted(payload: nat)
    | AgentMessageDelta(payload: nat)
    | PlanDelta(payload: nat)
    | ReasoningSummaryTextDelta(payload: nat)
    | ReasoningTextDelta(payload: nat)
    | OtherNotification(payload: nat)

  datatype Request = ChatgptAuthTokensRefresh(id: nat) | OtherRequest(id: nat)

  datatype Event =
    | ServerRequest(request: Request)
    | ServerNotification(notification: Notification)
    | Lagged(skipped: nat)

  /** A server request the worker answered with an error itself. */
  datatype Failure = Failure(request: Request, code: int)

  const UNSUPPORTED := -32000
  const OVERLOADED := -32001
  const USIZE_MAX: nat := 0xFFFF_FFFF_FFFF_FFFF

  /** `server_notification_requires_delivery`. */
  predicate NotificationRequiresDelivery(n: Notification) {
    !n.OtherNotification?
  }

  /** `event_requires_delivery`. */
  predicate RequiresDelivery(e: Event) {
    e.ServerNotification? && NotificationRequiresDelivery(e.notification)
  }

  predicate IsAuthRefresh(e: Event) {
    e.ServerRequest? && e.request.ChatgptAuthTokensRefresh?
  }

  function Saturated(n: nat): nat {
    if n <= USIZE_MAX then n else USIZE_MAX
  }

  // ---- What the queue must explain ----

  /** An item put on the queue: an input event, or a lag marker standing for `count` dropped inputs. */
  datatype Sent = Forwarded(event: Event) | Marker(count: nat)

  function Wire(s: Sent): Event {
    match s case Forwarded(e) => e case Marker(n) => Lagged(Saturated(n))
  }

  function WireAll(sent: seq<Sent>): (r: seq<Event>)
    ensures |r| == |sent| && forall i :: 0 <= i < |r| ==> r[i] == Wire(sent[i])
  {
    seq(|sent|, i requires 0 <= i < |sent| => Wire(sent[i]))
  }

  /**
   * Read backwards, the queued items, the `pending` unreported drops and the failed requests account
   * for every input: an auth refresh was failed as unsupported; each pending drop, and each of the
   * `count` drops of a marker, is one best-effort input, failed as overloaded if it was a request;
   * anything else was queued. So a drop is reported exactly where it happened.
   */
  ghost predicate Accounts(sent: seq<Sent>, pending: nat, inputs: seq<Event>, failed: seq<Failure>)
    decreases |inputs| + |sent|
  {
    if inputs != [] && IsAuthRefresh(Last(inputs)) then
      failed != [] && Last(failed) == Failure(Last(inputs).request, UNSUPPORTED)
      && Accounts(sent, pending, Init(inputs), Init(failed))
    else if pending > 0 then
      inputs != [] && !RequiresDelivery(Last(inputs))
      && if Last(inputs).ServerRequest? then
           failed != [] && Last(failed) == Failure(Last(inputs).request, OVERLOADED)
           && Accounts(sent, pending - 1, Init(inputs), Init(failed))
         else
           Accounts(sent, pending - 1, Init(inputs), failed)
    else if sent == [] then
      inputs == [] && failed == []
    else
      match Last(sent)
      case Marker(n) => n > 0 && Accounts(Init(sent), n, inputs, failed)
      case Forwarded(e) => inputs != [] && Last(inputs) == e && Accounts(Init(sent), 0, Init(inputs), failed)
  }

  // ---- How each action of the worker extends the account ----

  lemma AccountsQueued(sent: seq<Sent>, inputs: seq<Event>, failed: seq<Failure>, e: Event)
    requires Accounts(sent, 0, inputs, failed) && !IsAuthRefresh(e)
    ensures Accounts(sent + [Forwarded(e)], 0, inputs + [e], failed)
  {
    assert Init(sent + [Forwarded(e)]) == sent && Init(inputs + [e]) == inputs;
  }

  lemma AccountsDropped(sent: seq<Sent>, pending: nat, inputs: seq<Event>, failed: seq<Failure>, e: Event)
    requires Accounts(sent, pending, inputs, failed) && !IsAuthRefresh(e) && !RequiresDelivery(e)
    ensures var failed' := if e.ServerRequest? then failed + [Failure(e.request, OVERLOADED)] else failed;
            Accounts(sent, pending + 1, inputs + [e], failed')
  {
    assert Init(inputs + [e]) == inputs;
    if e.ServerRequest? {
      assert Init(failed + [Failure(e.request, OVERLOADED)]) == failed;
    }
  }

  lemma AccountsUnsupported(sent: seq<Sent>, pending: nat, inputs: seq<Event>, failed: seq<Failure>, e: Event)
    requires Accounts(sent, pending, inputs, failed) && IsAuthRefresh(e)
    ensures Accounts(sent, pending, inputs + [e], failed + [Failure(e.request, UNSUPPORTED)])
  {
    assert Init(inputs + [e]) == inputs;
    assert Init(failed + [Failure(e.request, UNSUPPORTED)]) == failed;
  }

  /** Reporting the pending drops with a marker explains the same inputs. */
  lemma {:induction false} AccountsMarked(sent: seq<Sent>, pending: nat, inputs: seq<Event>, failed: seq<Failure>)
    requires Accounts(sent, pending, inputs, failed) && pending > 0
    ensures Accounts(sent + [Marker(pending)], 0, inputs, failed)
    decreases |inputs|
  {
    assert Init(sent + [Marker(pending)]) == sent;
    if inputs != [] && IsAuthRefresh(Last(inputs)) {
      AccountsMarked(sent, pending, Init(inputs), Init(failed));
    }
  }

  // ---- What a consumer can conclude ----

  function Forwards(sent: seq<Sent>): seq<Event> {
    if sent == [] then []
    else if Last(sent).Forwarded? then Forwards(Init(sent)) + [Last(sent).event]
    else Forwards(Init(sent))
  }

  function Reported(sent: seq<Sent>): nat {
    if sent == [] then 0
    else Reported(Init(sent)) + if Last(sent).Marker? then Last(sent).count else 0
  }

  function Select(p: Event -> bool, es: seq<Event>): seq<Event> {
    if es == [] then []
    else if p(Last(es)) then Select(p, Init(es)) + [Last(es)]
    else Select(p, Init(es))
  }

  function TimesFailed(r: Request, failed: seq<Failure>): nat {
    if failed == [] then 0 else TimesFailed(r, Init(failed)) + if Last(failed).request == r then 1 else 0
  }

  function TimesIn(r: Request, es: seq<Event>): nat {
    if es == [] then 0 else TimesIn(r, Init(es)) + if Last(es) == ServerRequest(r) then 1 else 0
  }

  /** No lossless event is ever lost, duplicated or reordered. */
  lemma {:induction false} LosslessDelivered(sent: seq<Sent>, pending: nat, inputs: seq<Event>, failed: seq<Failure>)
    requires Accounts(sent, pending, inputs, failed)
    ensures Select(RequiresDelivery, inputs) == Select(RequiresDelivery, Forwards(sent))
    decreases |inputs| + |sent|
  {
    if inputs != [] && IsAuthRefresh(Last(inputs)) {
      LosslessDelivered(sent, pending, Init(inputs), Init(failed));
    } else if pending > 0 {
      LosslessDelivered(sent, pending - 1, Init(inputs), if Last(inputs).ServerRequest? then Init(failed) else failed);
    } else if sent != [] {
      match Last(sent) {
        case Marker(n) => LosslessDelivered(Init(sent), n, inputs, failed);
        case Forwarded(e) =>
          LosslessDelivered(Init(sent), 0, Init(inputs), failed);
          assert Init(Forwards(sent)) == Forwards(Init(sent));
      }
    }
  }

  /** Every input was queued, reported by a marker, is still to be reported, or was an auth refresh. */
  lemma {:induction false} EventsConserved(sent: seq<Sent>, pending: nat, inputs: seq<Event>, failed: seq<Failure>)
    requires Accounts(sent, pending, inputs, failed)
    ensures |inputs| == |Forwards(sent)| + Reported(sent) + pending + |Select(IsAuthRefresh, inputs)|
    decreases |inputs| + |sent|
  {
    if inputs != [] && IsAuthRefresh(Last(inputs)) {
      EventsConserved(sent, pending, Init(inputs), Init(failed));
    } else if pending > 0 {
      EventsConserved(sent, pending - 1, Init(inputs), if Last(inputs).ServerRequest? then Init(failed) else failed);
    } else if sent != [] {
      match Last(sent) {
        case Marker(n) => EventsConserved(Init(sent), n, inputs, failed);
        case Forwarded(e) => EventsConserved(Init(sent), 0, Init(inputs), failed);
      }
    }
  }

  /** Every server request is queued exactly once or failed exactly once, never both. */
  lemma {:induction false} RequestsAnsweredOnce(
    r: Request, sent: seq<Sent>, pending: nat, inputs: seq<Event>, failed: seq<Failure>)
    requires Accounts(sent, pending, inputs, failed)
    ensures TimesIn(r, inputs) == TimesIn(r, Forwards(sent)) + TimesFailed(r, failed)
    decreases |inputs| + |sent|
  {
    if inputs != [] && IsAuthRefresh(Last(inputs)) {
      RequestsAnsweredOnce(r, sent, pending, Init(inputs), Init(failed));
    } else if pending > 0 {
      var before := if Last(inputs).ServerRequest? then Init(failed) else failed;
      RequestsAnsweredOnce(r, sent, pending - 1, Init(inputs), before);
    } else if sent != [] {
      match Last(sent) {
        case Marker(n) => RequestsAnsweredOnce(r, Init(sent), n, inputs, failed);
        case Forwarded(e) =>
          RequestsAnsweredOnce(r, Init(sent), 0, Init(inputs), failed);
          assert Init(Forwards(sent)) == Forwards(Init(sent));
      }
    }
  }

  /** A request is failed as unsupported exactly when it is an auth refresh, and those are never queued. */
  lemma {:induction false} AuthRefreshNeverQueued(
    sent: seq<Sent>, pending: nat, inputs: seq<Event>, failed: seq<Failure>)
    requires Accounts(sent, pending, inputs, failed)
    ensures forall f :: f in failed ==>
      f.code == if f.request.ChatgptAuthTokensRefresh? then UNSUPPORTED else OVERLOADED
    ensures forall s :: s in sent && s.Forwarded? ==> !IsAuthRefresh(s.event)
    decreases |inputs| + |sent|
  {
    if inputs != [] && IsAuthRefresh(Last(inputs)) {
      AuthRefreshNeverQueued(sent, pending, Init(inputs), Init(failed));
      assert failed == Init(failed) + [Last(failed)];
    } else if pending > 0 {
      var before := if Last(inputs).ServerRequest? then Init(failed) else failed;
      AuthRefreshNeverQueued(sent, pending - 1, Init(inputs), before);
      assert Last(inputs).ServerRequest? ==> failed == Init(failed) + [Last(failed)];
    } else if sent != [] {
      match Last(sent) {
        case Marker(n) => AuthRefreshNeverQueued(Init(sent), n, inputs, failed);
        case Forwarded(e) => AuthRefreshNeverQueued(Init(sent), 0, Init(inputs), failed);
      }
      assert sent == Init(sent) + [Last(sent)];
    }
  }

  /** The inputs that were dropped, oldest first. */
  ghost function Dropped(sent: seq<Sent>, pending: nat, inputs: seq<Event>, failed: seq<Failure>): seq<Event>
    requires Accounts(sent, pending, inputs, failed)
    decreases |inputs| + |sent|
  {
    if inputs != [] && IsAuthRefresh(Last(inputs)) then Dropped(sent, pending, Init(inputs), Init(failed))
    else if pending > 0 then
      (if Last(inputs).ServerRequest? then Dropped(sent, pending - 1, Init(inputs), Init(failed))
       else Dropped(sent, pending - 1, Init(inputs), failed)) + [Last(inputs)]
    else if sent == [] then []
    else match Last(sent)
         case Marker(n) => Dropped(Init(sent), n, inputs, failed)
         case Forwarded(e) => Dropped(Init(sent), 0, Init(inputs), failed)
  }

  function Overloads(failed: seq<Failure>): seq<Request> {
    if failed == [] then []
    else if Last(failed).code == OVERLOADED then Overloads(Init(failed)) + [Last(failed).request]
    else Overloads(Init(failed))
  }

  function RequestList(es: seq<Event>): seq<Request> {
    if es == [] then []
    else if Last(es).ServerRequest? then RequestList(Init(es)) + [Last(es).request]
    else RequestList(Init(es))
  }

  /** The drops are counted exactly, and the overload failures are exactly the dropped requests, in order. */
  lemma {:induction false} OverloadsAreTheDrops(sent: seq<Sent>, pending: nat, inputs: seq<Event>, failed: seq<Failure>)
    requires Accounts(sent, pending, inputs, failed)
    ensures |Dropped(sent, pending, inputs, failed)| == Reported(sent) + pending
    ensures Overloads(failed) == RequestList(Dropped(sent, pending, inputs, failed))
    decreases |inputs| + |sent|
  {
    if inputs != [] && IsAuthRefresh(Last(inputs)) {
      OverloadsAreTheDrops(sent, pending, Init(inputs), Init(failed));
    } else if pending > 0 {
      var failed' := if Last(inputs).ServerRequest? then Init(failed) else failed;
      OverloadsAreTheDrops(sent, pending - 1, Init(inputs), failed');
      assert Init(Dropped(sent, pending, inputs, failed)) == Dropped(sent, pending - 1, Init(inputs), failed');
    } else if sent != [] {
      match Last(sent) {
        case Marker(n) => OverloadsAreTheDrops(Init(sent), n, inputs, failed);
        case Forwarded(e) => OverloadsAreTheDrops(Init(sent), 0, Init(inputs), failed);
      }
    }
  }

  /** Whatever prefix of the queue a consumer has read by itself accounts for a prefix of the inputs. */
  lemma {:induction false} PrefixAccounts(
    sent: seq<Sent>, pending: nat, inputs: seq<Event>, failed: seq<Failure>, n: nat)
    returns (m: nat, k: nat)
    requires Accounts(sent, pending, inputs, failed) && n <= |sent|
    ensures m <= |inputs| && k <= |failed| && Accounts(sent[..n], 0, inputs[..m], failed[..k])
    decreases |inputs| + |sent|
  {
    if n == |sent| && pending == 0 {
      m, k := |inputs|, |failed|;
      assert sent[..n] == sent && inputs[..m] == inputs && failed[..k] == failed;
    } else if inputs != [] && IsAuthRefresh(Last(inputs)) {
      m, k := PrefixAccounts(sent, pending, Init(inputs), Init(failed), n);
      assert Init(inputs)[..m] == inputs[..m] && Init(failed)[..k] == failed[..k];
    } else if pending > 0 {
      var failed' := if Last(inputs).ServerRequest? then Init(failed) else failed;
      m, k := PrefixAccounts(sent, pending - 1, Init(inputs), failed', n);
      assert Init(inputs)[..m] == inputs[..m] && failed'[..k] == failed[..k];
    } else {
      match Last(sent) {
        case Marker(c) => m, k := PrefixAccounts(Init(sent), c, inputs, failed, n);
        case Forwarded(e) =>
          m, k := PrefixAccounts(Init(sent), 0, Init(inputs), failed, n);
          assert Init(inputs)[..m] == inputs[..m];
      }
      assert Init(sent)[..n] == sent[..n];
    }
  }

  // ---- The worker ----

  datatype ForwardEventResult = Continue | DisableStream

  datatype FlushResult = Flushed | Full | Closed

  class Worker {
    const capacity: nat           // channel_capacity.max(1)
    var queue: seq<Event>         // in the channel, not yet received
    var delivered: seq<Event>     // received by the consumer
    var closed: bool              // the receiver was dropped
    var skippedEvents: nat
    var eventStreamEnabled: bool
    var failed: seq<Failure>      // calls to fail_server_request, oldest first

    ghost var sent: seq<Sent>           // everything ever put on the channel
    ghost var pending: nat              // drops since the last marker, not saturated
    ghost var accounted: seq<Event>     // the inputs explained by the above

    ghost predicate Valid()
      reads this
    {
      && |queue| <= capacity && capacity > 0
      && delivered + queue == WireAll(sent)
      && skippedEvents == Saturated(pending)
      && Accounts(sent, pending, accounted, failed)
    }

    constructor (channelCapacity: nat)
      ensures Valid() && eventStreamEnabled && !closed && accounted == [] && delivered == []
    {
      capacity := if channelCapacity < 1 then 1 else channelCapacity;
      queue, delivered, closed := [], [], false;
      skippedEvents, eventStreamEnabled, failed := 0, true, [];
      sent, pending, accounted := [], 0, [];
    }

    /** The consumer receives `n` events. */
    method Receive(n: nat)
      requires Valid() && n <= |queue|
      modifies this`queue, this`delivered
      ensures Valid() && old(delivered) <= delivered && |queue| == old(|queue|) - n
    {
      assert delivered + queue == (delivered + queue[..n]) + queue[n..];
      delivered, queue := delivered + queue[..n], queue[n..];
    }

    /** The consumer receives any number of queued events, and may hang up. */
    method ConsumerRuns()
      requires Valid()
      modifies this`queue, this`delivered, this`closed
      ensures Valid() && old(delivered) <= delivered && (old(closed) ==> closed)
    {
      if !closed {
        var n: nat :| n <= |queue|;
        Receive(n);
        var hangUp: bool := *;
        closed := hangUp;
      }
    }

    method Append(item: Event, ghost s: Sent)
      requires Valid() && |queue| < capacity && item == Wire(s)
      modifies this`queue, this`sent
      ensures queue == old(queue) + [item] && sent == old(sent) + [s]
      ensures delivered + queue == WireAll(sent)
    {
      assert WireAll(sent + [s]) == WireAll(sent) + [item];
      assert delivered + (queue + [item]) == (delivered + queue) + [item];
      queue, sent := queue + [item], sent + [s];
    }

    /** `send(..).await`: returns once there is room or the receiver is gone. */
    method Send(item: Event, ghost s: Sent) returns (ok: bool)
      requires Valid() && item == Wire(s)
      modifies this`queue, this`delivered, this`closed, this`sent
      ensures old(delivered) <= delivered && (old(closed) ==> closed) && |queue| <= capacity
      ensures delivered + queue == WireAll(sent)
      ensures sent == if ok then old(sent) + [s] else old(sent)
      ensures !ok ==> closed
    {
      ConsumerRuns();
      if closed { return false; }
      assert |queue| - |queue| < capacity;
      var n: nat :| n <= |queue| && |queue| - n < capacity;
      Receive(n);
      Append(item, s);
      ok := true;
    }

    /** `try_send(..)`: fails at once when the queue is full or closed. */
    method TrySend(item: Event, ghost s: Sent) returns (ok: bool, full: bool)
      requires Valid() && item == Wire(s)
      modifies this`queue, this`delivered, this`closed, this`sent
      ensures old(delivered) <= delivered && (old(closed) ==> closed) && |queue| <= capacity
      ensures delivered + queue == WireAll(sent)
      ensures sent == if ok then old(sent) + [s] else old(sent)
      ensures ok ==> !full
      ensures !ok ==> (full <==> !closed) && (full ==> |queue| == capacity)
    {
      ConsumerRuns();
      if closed { return false, false; }
      if |queue| == capacity { return false, true; }
      Append(item, s);
      return true, false;
    }

    /** The `Full` arm: count the drop, and fail a dropped server request. */
    method Skip(event: Event)
      requires Valid() && !IsAuthRefresh(event) && !RequiresDelivery(event)
      modifies this`skippedEvents, this`failed, this`pending, this`accounted
      ensures Valid() && accounted == old(accounted) + [event]
    {
      AccountsDropped(sent, pending, accounted, failed, event);
      skippedEvents := if skippedEvents < USIZE_MAX then skippedEvents + 1 else USIZE_MAX;
      if event.ServerRequest? {
        failed := failed + [Failure(event.request, OVERLOADED)];
      }
      pending, accounted := pending + 1, accounted + [event];
    }

    /** The first half of `forward_in_process_event`: report the drops so far, if there are any. */
    method FlushLag(event: Event) returns (result: FlushResult)
      requires Valid() && !IsAuthRefresh(event)
      modifies this`queue, this`delivered, this`closed, this`skippedEvents, this`failed,
               this`sent, this`pending, this`accounted
      ensures Valid() && old(delivered) <= delivered && (old(closed) ==> closed)
      ensures result.Flushed? ==> skippedEvents == 0 && accounted == old(accounted)
      ensures result.Full? ==> !RequiresDelivery(event) && |queue| == capacity && accounted == old(accounted) + [event]
      ensures result.Closed? ==> closed && accounted == old(accounted)
    {
      if skippedEvents == 0 { return Flushed; }
      if RequiresDelivery(event) {
        var ok := Send(Lagged(skippedEvents), Marker(pending));
        if !ok { return Closed; }
      } else {
        var ok, full := TrySend(Lagged(skippedEvents), Marker(pending));
        if full {
          Skip(event);
          return Full;
        }
        if !ok { return Closed; }
      }
      AccountsMarked(old(sent), pending, accounted, failed);
      skippedEvents, pending := 0, 0;
      return Flushed;
    }

    /** `forward_in_process_event`. */
    method Forward(event: Event) returns (result: ForwardEventResult)
      requires Valid() && !IsAuthRefresh(event)
      modifies this`queue, this`delivered, this`closed, this`skippedEvents, this`failed,
               this`sent, this`pending, this`accounted
      ensures Valid() && old(delivered) <= delivered && (old(closed) ==> closed)
      ensures result.Continue? ==> accounted == old(accounted) + [event]
      ensures result.Continue? ==> (sent != [] && Last(sent) == Forwarded(event))
                                   || (!RequiresDelivery(event) && |queue| == capacity)
      ensures result.DisableStream? ==> closed && accounted == old(accounted)
    {
      var flush := FlushLag(event);
      if flush.Full? { return Continue; }
      if flush.Closed? { return DisableStream; }
      ghost var before := sent;
      if RequiresDelivery(event) {
        var ok := Send(event, Forwarded(event));
        if !ok { return DisableStream; }
      } else {
        var ok, full := TrySend(event, Forwarded(event));
        if full {
          Skip(event);
          return Continue;
        }
        if !ok { return DisableStream; }
      }
      AccountsQueued(before, accounted, failed, event);
      accounted := accounted + [event];
      return Continue;
    }

    /**
     * The worker loop over the runtime's event stream, of which it takes `taken` events before a
     * shutdown command, the end of the stream, or a closed consumer stops it.
     */
    method Run(events: seq<Event>) returns (taken: nat)
      requires Valid() && accounted == [] && eventStreamEnabled
      modifies this
      ensures Valid() && taken <= |events|
      ensures eventStreamEnabled ==> accounted == events[..taken]
      ensures !eventStreamEnabled ==> closed && taken > 0 && accounted == events[..taken - 1]
      ensures |delivered| <= |sent| && delivered == WireAll(sent)[..|delivered|]
    {
      taken := 0;
      while taken < |events| && eventStreamEnabled
        invariant Valid() && taken <= |events|
        invariant eventStreamEnabled ==> accounted == events[..taken]
        invariant !eventStreamEnabled ==> closed && taken > 0 && accounted == events[..taken - 1]
        decreases |events| - taken
      {
        ConsumerRuns();
        var shutdown: bool := *;
        if shutdown { break; }
        var event := events[taken];
        assert events[..taken + 1] == events[..taken] + [event];
        taken := taken + 1;
        if IsAuthRefresh(event) {
          AccountsUnsupported(sent, pending, accounted, failed, event);
          failed := failed + [Failure(event.request, UNSUPPORTED)];
          accounted := accounted + [event];
        } else {
          var result := Forward(event);
          if result.DisableStream? {
            eventStreamEnabled := false;
          }
        }
      }
      assert delivered == (delivered + queue)[..|delivered|];
    }
  }
}
