// codex-rs/app-server-client/src/remote.rs: the initialize handshake and the client's event stream.

module RemoteClient {
  import opened Sequences
  import opened RemoteWorker

  datatype Handshake = Connected(events: seq<Event>) | Failed(kind: ErrorKind)

  /** Frames during the handshake: only reads from the server. */
  ghost predicate AllFrames(xs: seq<Input>) {
    forall i :: 0 <= i < |xs| ==> xs[i].FromServer?
  }

  /** The handshake loop reads on after this frame. */
  predicate Continues(x: Input)
    requires x.FromServer?
  {
    match x.frame
    case Response(id, _) => id != INITIALIZE
    case Error(id, _) => id != INITIALIZE
    case Notification(_, _) => true
    case ServerRequest(_, known, _) => known || x.ok
    case Ignored => true
    case _ => false
  }

  /** How the loop ends on a frame it does not read on after: no error only for the initialize response. */
  function Ending(x: Input): Option<ErrorKind>
    requires x.FromServer? && !Continues(x)
  {
    match x.frame
    case Response(_, _) => None
    case Close => Some(ConnectionAborted)
    case EndOfStream => Some(UnexpectedEof)
    case _ => Some(Other)
  }

  /** `frames` ends with the first frame the loop does not read on after. */
  ghost predicate EndsLoop(frames: seq<Input>)
    requires AllFrames(frames)
  {
    frames != [] && !Continues(Last(frames)) && forall i :: 0 <= i < |frames| - 1 ==> Continues(frames[i])
  }

  lemma HandshakeStep(xs: seq<Input>, x: Input)
    requires x.FromServer?
    ensures DecodeAll(Frames(xs + [x])) == Extend(DecodeAll(Frames(xs)), Decode(x.frame))
    ensures UnknownRequests(xs + [x]) == Extend(UnknownRequests(xs), Rejection(x.frame))
  {
    assert Init(xs + [x]) == xs;
    DecodeAllAppend(Frames(xs), x.frame);
  }

  function Rejection(f: Frame): seq<Message> {
    if f.ServerRequest? && !f.known then [UnsupportedMessage(f.id, METHOD_NOT_FOUND)] else []
  }

  /** One frame of the handshake: the event to keep for later, or the rejection to write. */
  method TakeFrame(f: Frame) returns (event: seq<Event>, rejection: seq<Message>)
    ensures event == Decode(f) && rejection == Rejection(f)
  {
    event, rejection := [], [];
    match f {
      case Notification(known, params) =>
        if known { event := [NotificationEvent(params)]; }
      case ServerRequest(id, known, params) =>
        if known {
          event := [RequestEvent(id, params)];
        } else {
          rejection := [UnsupportedMessage(id, METHOD_NOT_FOUND)];
        }
      case _ =>
    }
  }

  /** The loop of `initialize_remote_connection`; running out of frames stands for the timeout. */
  method AwaitInitialized(frames: seq<Input>)
    returns (outcome: Option<ErrorKind>, used: nat, events: seq<Event>, rejections: seq<Message>)
    requires AllFrames(frames)
    ensures used <= |frames|
    ensures EndsLoop(frames[..used]) || (used == |frames| && forall i :: 0 <= i < |frames| ==> Continues(frames[i]))
    ensures outcome == if EndsLoop(frames[..used]) then Ending(frames[used - 1]) else Some(TimedOut)
    ensures events == DecodeAll(Frames(frames[..used]))
    ensures rejections == UnknownRequests(frames[..used])
  {
    used, events, rejections := 0, [], [];
    while used < |frames|
      invariant used <= |frames| && forall i :: 0 <= i < used ==> Continues(frames[i])
      invariant events == DecodeAll(Frames(frames[..used]))
      invariant rejections == UnknownRequests(frames[..used])
    {
      var x := frames[used];
      assert frames[..used + 1] == frames[..used] + [x];
      HandshakeStep(frames[..used], x);
      var event, rejection := TakeFrame(x.frame);
      used, events, rejections := used + 1, events + event, rejections + rejection;
      if !Continues(x) {
        outcome := Ending(x);
        return;
      }
    }
    outcome := Some(TimedOut);
  }

  /** The kind of error the handshake fails with, if it fails. */
  ghost function HandshakeError(initializeWritten: bool, read: seq<Input>, initializedWritten: bool): Option<ErrorKind>
    requires AllFrames(read)
  {
    if !initializeWritten then Some(Other)
    else if !EndsLoop(read) then Some(TimedOut)
    else if Ending(Last(read)).Some? then Ending(Last(read))
    else if !initializedWritten then Some(Other)
    else None
  }

  /** `initialize_remote_connection`, with the outcomes of its first and last write. */
  method InitializeRemoteConnection(initializeWritten: bool, frames: seq<Input>, initializedWritten: bool)
    returns (r: Handshake, used: nat, rejections: seq<Message>)
    requires AllFrames(frames)
    ensures used <= |frames| && (!initializeWritten ==> used == 0)
    ensures initializeWritten ==>
      EndsLoop(frames[..used]) || (used == |frames| && forall i :: 0 <= i < |frames| ==> Continues(frames[i]))
    ensures var error := HandshakeError(initializeWritten, frames[..used], initializedWritten);
      r == if error.Some? then Failed(error.value) else Connected(DecodeAll(Frames(frames[..used])))
    ensures rejections == UnknownRequests(frames[..used])
  {
    if !initializeWritten { return Failed(Other), 0, []; }
    var outcome, n, events, written := AwaitInitialized(frames);
    used, rejections := n, written;
    if outcome.Some? {
      r := Failed(outcome.value);
    } else if !initializedWritten {
      r := Failed(Other);
    } else {
      r := Connected(events);
    }
  }

  /** The receiving half of `RemoteAppServerClient`. */
  class Client {
    var pendingEvents: seq<Event>   // left over from the handshake
    var eventRx: seq<Event>         // delivered by the worker, not yet received
    ghost var seen: seq<Event>      // returned by next_event so far
    ghost const handshake: seq<Event>
    ghost var produced: seq<Event>  // delivered by the worker so far

    ghost predicate Valid()
      reads this
    {
      seen + pendingEvents + eventRx == handshake + produced
    }

    constructor (events: seq<Event>)
      ensures Valid() && seen == [] && handshake == events && produced == []
    {
      pendingEvents, eventRx, seen, handshake, produced := events, [], [], events, [];
    }

    /** The worker puts an event on the unbounded channel. */
    method Publish(e: Event)
      requires Valid()
      modifies this`eventRx, this`produced
      ensures Valid() && produced == old(produced) + [e]
    {
      assert seen + pendingEvents + (eventRx + [e]) == (seen + pendingEvents + eventRx) + [e];
      assert handshake + (produced + [e]) == (handshake + produced) + [e];
      eventRx, produced := eventRx + [e], produced + [e];
    }

    lemma SeenSoFar()
      requires Valid()
      ensures seen <= handshake + produced
    {
      assert seen <= seen + pendingEvents + eventRx;
    }

    /** `next_event`, where `None` also stands for having to wait. */
    method NextEvent() returns (e: Option<Event>)
      requires Valid()
      modifies this`pendingEvents, this`eventRx, this`seen
      ensures Valid() && seen <= handshake + produced
      ensures e.Some? ==> seen == old(seen) + [e.value]
      ensures e.None? ==> seen == old(seen) == handshake + produced
    {
      if pendingEvents != [] {
        e := Some(pendingEvents[0]);
        assert seen + pendingEvents == (seen + [pendingEvents[0]]) + pendingEvents[1..];
        pendingEvents := pendingEvents[1..];
      } else if eventRx != [] {
        e := Some(eventRx[0]);
        assert seen + pendingEvents + eventRx == (seen + [eventRx[0]]) + pendingEvents + eventRx[1..];
        eventRx := eventRx[1..];
      } else {
        assert seen + pendingEvents + eventRx == seen;
        return None;
      }
      seen := seen + [e.value];
      assert seen <= seen + pendingEvents + eventRx;
    }
  }

  // ---- A whole session ----

  /** The worker takes a turn, or the client asks for an event. */
  datatype Move = WorkerTurn(input: Input) | ClientReads

  function Turns(moves: seq<Move>): seq<Input> {
    if moves == [] then []
    else Turns(Init(moves)) + if Last(moves).WorkerTurn? then [Last(moves).input] else []
  }

  /** What the worker has put on the channel since the client last looked reaches it. */
  method PublishRest(client: Client, channel: seq<Event>, from: nat)
    requires client.Valid() && from <= |channel| && client.produced == channel[..from]
    modifies client`eventRx, client`produced
    ensures client.Valid() && client.produced == channel
  {
    var n := from;
    while n < |channel|
      invariant from <= n <= |channel| && client.Valid() && client.produced == channel[..n]
    {
      client.Publish(channel[n]);
      n := n + 1;
    }
  }

  /** One turn of a worker that is still running, and what it delivers. */
  method TakeTurn(worker: Worker, client: Client, x: Input)
    requires worker.Valid() && worker.running && client.Valid() && client.produced == worker.channel
    modifies worker, client`eventRx, client`produced
    ensures worker.Valid() && worker.history == old(worker.history) + [x]
    ensures client.Valid() && client.produced == worker.channel && client.seen == old(client.seen)
  {
    var from := |worker.channel|;
    ghost var h := worker.history;
    worker.Turn(x);
    assert Init(h + [x]) == h;
    PublishRest(client, worker.channel, from);
  }

  /** One move, the event that the client reads with it, and whether the client has nothing left to read. */
  method TakeMove(worker: Worker, client: Client, move: Move, wasIdle: bool)
    returns (read: Option<Event>, idle: bool)
    requires worker.Valid() && client.Valid() && client.produced == worker.channel
    requires wasIdle ==> client.seen == client.handshake + worker.channel
    modifies worker, client
    ensures worker.Valid() && client.Valid() && client.produced == worker.channel
    ensures worker.running ==> old(worker.running)
    ensures worker.history ==
            old(worker.history) + if old(worker.running) && move.WorkerTurn? then [move.input] else []
    ensures client.seen == old(client.seen) + if read.Some? then [read.value] else []
    ensures idle ==> client.seen == client.handshake + worker.channel
  {
    read, idle := None, wasIdle;
    if move.ClientReads? {
      read := client.NextEvent();
      idle := read.None?;
    } else if worker.running {
      TakeTurn(worker, client, move.input);
      idle := false;
    }
  }

  lemma TurnsSnoc(moves: seq<Move>, i: nat)
    requires i < |moves|
    ensures Turns(moves[..i + 1]) == Turns(moves[..i]) + if moves[i].WorkerTurn? then [moves[i].input] else []
  {
    assert Init(moves[..i + 1]) == moves[..i];
  }

  /** After the handshake: the client's stream is the handshake events and what the worker delivers. */
  method Connection(events: seq<Event>, moves: seq<Move>)
    returns (seen: seq<Event>, idle: bool, taken: nat)
    ensures taken <= |Turns(moves)| && History(Turns(moves)[..taken])
    ensures var delivered := Delivered(Turns(moves)[..taken]);
      seen <= events + delivered && (idle ==> seen == events + delivered)
  {
    var worker := new Worker();
    var client := new Client(events);
    seen, idle := [], false;
    for i := 0 to |moves|
      invariant worker.Valid() && client.Valid() && client.handshake == events
      invariant client.produced == worker.channel && seen == client.seen
      invariant worker.history <= Turns(moves[..i]) && (worker.running ==> worker.history == Turns(moves[..i]))
      invariant idle ==> seen == events + worker.channel
    {
      TurnsSnoc(moves, i);
      var read;
      read, idle := TakeMove(worker, client, moves[i], idle);
      if read.Some? { seen := seen + [read.value]; }
    }
    assert moves[..|moves|] == moves;
    taken := worker.clock;
    assert worker.history == Turns(moves)[..taken];
    client.SeenSoFar();
  }

  lemma WholeStream(handshake: seq<Frame>, h: seq<Input>)
    requires History(h) && ConsumerOpen(h)
    ensures DecodeAll(handshake) + Delivered(h) == DecodeAll(handshake + Frames(h)) + Farewell(h)
  {
    AttemptsAreDecodedFrames(h);
    DeliveredUntilHangUp(h);
    DecodeAllConcat(handshake, Frames(h));
    Assoc(DecodeAll(handshake), DecodeAll(Frames(h)), Farewell(h));
  }

  /**
   * Handshake, then any interleaving of worker turns and `next_event` calls, of which the worker takes
   * `taken` turns before it stops. What the client has seen is a prefix of the in-order decoding of every
   * frame read, handshake first, followed by `Disconnected` exactly if the worker failed; and all of it,
   * once `next_event` had nothing left and nobody hung up.
   */
  method Session(initializeWritten: bool, frames: seq<Input>, initializedWritten: bool, moves: seq<Move>)
    returns (r: Handshake, used: nat, rejections: seq<Message>, seen: seq<Event>, idle: bool, taken: nat)
    requires AllFrames(frames)
    ensures used <= |frames| && taken <= |Turns(moves)| && History(Turns(moves)[..taken])
    ensures rejections == UnknownRequests(frames[..used])
    ensures r.Failed? ==> seen == [] && taken == 0
    ensures var history := Turns(moves)[..taken];
      var read := Frames(frames[..used]) + Frames(history);
      && Disconnected !in DecodeAll(read)
      && (r.Connected? ==> seen <= DecodeAll(read) + Farewell(history))
      && (r.Connected? && idle && ConsumerOpen(history) ==> seen == DecodeAll(read) + Farewell(history))
  {
    seen, idle, taken := [], false, 0;
    r, used, rejections := InitializeRemoteConnection(initializeWritten, frames, initializedWritten);
    if r.Connected? {
      seen, idle, taken := Connection(r.events, moves);
      ghost var history := Turns(moves)[..taken];
      StreamIsDecodedWire(Frames(frames[..used]), history, seen);
      if ConsumerOpen(history) { WholeStream(Frames(frames[..used]), history); }
    } else {
      assert Turns(moves)[..taken] == [];
      NoDisconnectDecoded(Frames(frames[..used]) + Frames([]));
    }
  }
}
