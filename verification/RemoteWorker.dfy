// codex-rs/app-server-client/src/remote.rs: the JSON-RPC worker behind a remote app-server client.
// A history is the sequence of everything the worker dequeued or read; what the worker owes its
// callers, the server and the event consumer is stated as a function of the history.

module RemoteWorker {
  import opened Sequences

  type RequestId = string

  const INITIALIZE: RequestId := "initialize"
  const METHOD_NOT_FOUND := -32601

  datatype ErrorKind = InvalidInput | BrokenPipe | InvalidData | ConnectionAborted | UnexpectedEof | Other | TimedOut

  datatype Command =
    | Request(id: RequestId, params: nat)
    | Notify(params: nat)
    | ResolveServerRequest(id: RequestId, params: nat)
    | RejectServerRequest(id: RequestId, params: nat)
    | Shutdown

  /** What `stream.next()` yields; `known` tells whether the method decodes. */
  datatype Frame =
    | Response(id: RequestId, result: nat)
    | Error(id: RequestId, error: nat)
    | Notification(known: bool, params: nat)
    | ServerRequest(id: RequestId, known: bool, params: nat)
    | InvalidJson
    | Close
    | Ignored
    | TransportError
    | EndOfStream

  /** One turn of the `select!`; `ok` is the outcome of the write (or close) it makes, if it makes one. */
  datatype Input =
    | FromClient(command: Command, ok: bool)
    | ClientGone
    | FromServer(frame: Frame, ok: bool)
    | ConsumerDropped

  datatype Event = NotificationEvent(params: nat) | RequestEvent(id: RequestId, params: nat) | Disconnected

  datatype Message =
    | RequestMessage(id: RequestId, params: nat)
    | NotificationMessage(params: nat)
    | ResponseMessage(id: RequestId, params: nat)
    | ErrorMessage(id: RequestId, params: nat)
    | UnsupportedMessage(id: RequestId, code: int)

  datatype Reply = Success(result: nat) | ServerError(error: nat) | IoError(kind: ErrorKind) | Done

  /** A reply on the oneshot channel of the command dequeued at position `ticket`. */
  datatype Answer = Answer(ticket: nat, reply: Reply)

  // ---- What a history means ----

  predicate Asks(x: Input, id: RequestId) {
    x.FromClient? && x.command.Request? && x.command.id == id
  }

  predicate Replies(x: Input, id: RequestId) {
    x.FromServer? && (x.frame.Response? || x.frame.Error?) && x.frame.id == id
  }

  /** The position of the request with this id that is waiting for the server. */
  function Outstanding(h: seq<Input>, id: RequestId): Option<nat> {
    if h == [] then None
    else
      var before, x := Outstanding(Init(h), id), Last(h);
      if Replies(x, id) then None
      else if Asks(x, id) && before.None? && x.ok then Some(|h| - 1)
      else before
  }

  /** The first response or error with this id, reading on from position `i`. */
  function FirstReply(h: seq<Input>, i: nat, id: RequestId): Option<Reply>
    decreases |h| - i
  {
    if i >= |h| then None
    else if Replies(h[i], id) then
      Some(if h[i].frame.Response? then Success(h[i].frame.result) else ServerError(h[i].frame.error))
    else FirstReply(h, i + 1, id)
  }

  /** The answer the command at position `i` has been given within `h`, if any. */
  function Answered(h: seq<Input>, i: nat): Option<Reply>
    requires i < |h| && h[i].FromClient?
  {
    var c, ok := h[i].command, h[i].ok;
    if c.Request? then
      if Outstanding(h[..i], c.id).Some? then Some(IoError(InvalidInput))
      else if !ok then Some(IoError(Other))
      else FirstReply(h, i + 1, c.id)
    else Some(if ok then Done else IoError(Other))
  }

  predicate ConsumerOpen(h: seq<Input>) {
    ConsumerDropped !in h
  }

  /** The events a frame decodes to, when it does not end the stream. */
  function Decode(f: Frame): seq<Event> {
    if f.Notification? && f.known then [NotificationEvent(f.params)]
    else if f.ServerRequest? && f.known then [RequestEvent(f.id, f.params)]
    else []
  }

  /** The exit error that taking `x` after `h` causes, if any. */
  function FailureOf(h: seq<Input>, x: Input): Option<ErrorKind> {
    match x
    case FromClient(Request(id, _), ok) =>
      if Outstanding(h, id).None? && !ok then Some(BrokenPipe) else None
    case FromServer(ServerRequest(_, known, _), ok) => if !known && !ok then Some(BrokenPipe) else None
    case FromServer(InvalidJson, _) => Some(InvalidData)
    case FromServer(TransportError, _) => Some(InvalidData)
    case FromServer(Close, _) => Some(ConnectionAborted)
    case FromServer(EndOfStream, _) => Some(UnexpectedEof)
    case _ => None
  }

  function Failure(h: seq<Input>): Option<ErrorKind> {
    if h == [] then None else FailureOf(Init(h), Last(h))
  }

  /** Whether taking `x` after `h` makes the worker leave its loop. */
  predicate StopsOf(h: seq<Input>, x: Input) {
    || FailureOf(h, x).Some?
    || x.ClientGone?
    || (x.FromClient? && x.command.Shutdown?)
    || (x.FromServer? && Decode(x.frame) != [] && !ConsumerOpen(h))
  }

  predicate Stopped(h: seq<Input>) {
    h != [] && StopsOf(Init(h), Last(h))
  }

  /** The histories the worker can be in: only the last input may stop it. */
  ghost predicate History(h: seq<Input>) {
    h == [] || (History(Init(h)) && !Stopped(Init(h)))
  }

  /** The `deliver_event` call that taking `x` after `h` makes, if any. */
  function AttemptOf(h: seq<Input>, x: Input): seq<Event> {
    if FailureOf(h, x).Some? then [Disconnected] else if x.FromServer? then Decode(x.frame) else []
  }

  function Attempts(h: seq<Input>): seq<Event> {
    if h == [] then [] else Attempts(Init(h)) + AttemptOf(Init(h), Last(h))
  }

  /** The calls of `deliver_event` that reached the consumer's channel. */
  function DeliveryOf(h: seq<Input>, x: Input): seq<Event> {
    if ConsumerOpen(h) then AttemptOf(h, x) else []
  }

  function Delivered(h: seq<Input>): seq<Event> {
    if h == [] then [] else Delivered(Init(h)) + DeliveryOf(Init(h), Last(h))
  }

  /** The message that taking `x` after `h` makes the worker write, successfully or not. */
  function WriteOf(h: seq<Input>, x: Input): seq<Message> {
    match x
    case FromClient(Request(id, p), _) => if Outstanding(h, id).Some? then [] else [RequestMessage(id, p)]
    case FromClient(Notify(p), _) => [NotificationMessage(p)]
    case FromClient(ResolveServerRequest(id, p), _) => [ResponseMessage(id, p)]
    case FromClient(RejectServerRequest(id, p), _) => [ErrorMessage(id, p)]
    case FromServer(ServerRequest(id, known, _), _) => if known then [] else [UnsupportedMessage(id, METHOD_NOT_FOUND)]
    case _ => []
  }

  function Writes(h: seq<Input>): seq<Message> {
    if h == [] then [] else Writes(Init(h)) + WriteOf(Init(h), Last(h))
  }

  /** The error every request still waiting at exit is answered with. */
  function ExitReply(h: seq<Input>): Reply {
    IoError(if Failure(h).Some? then Failure(h).value else BrokenPipe)
  }

  // ---- Exactly-once answers ----

  function Times(answers: seq<Answer>, ticket: nat): nat {
    if answers == [] then 0
    else Times(Init(answers), ticket) + if Last(answers).ticket == ticket then 1 else 0
  }

  lemma TimesAppend(answers: seq<Answer>, a: Answer, ticket: nat)
    ensures Times(answers + [a], ticket) == Times(answers, ticket) + if a.ticket == ticket then 1 else 0
  {
    assert Init(answers + [a]) == answers;
  }

  /** The answer log is exactly the answers the history calls for, each sent once. */
  ghost predicate AnswersMatch(answers: seq<Answer>, h: seq<Input>) {
    && (forall a :: a in answers ==>
          a.ticket < |h| && h[a.ticket].FromClient? && Answered(h, a.ticket) == Some(a.reply))
    && forall i :: 0 <= i < |h| && h[i].FromClient? ==>
         Times(answers, i) == if Answered(h, i).Some? then 1 else 0
  }

  /** Final: every dequeued command has one answer, from the history or from the exit path. */
  ghost predicate AllAnsweredOnce(answers: seq<Answer>, h: seq<Input>) {
    && (forall a :: a in answers ==>
          && a.ticket < |h| && h[a.ticket].FromClient?
          && a.reply == if Answered(h, a.ticket).Some? then Answered(h, a.ticket).value else ExitReply(h))
    && forall i :: 0 <= i < |h| && h[i].FromClient? ==> Times(answers, i) == 1
  }

  lemma {:induction false} FirstReplyAppend(h: seq<Input>, x: Input, i: nat, id: RequestId)
    requires i <= |h|
    ensures FirstReply(h + [x], i, id) ==
      if FirstReply(h, i, id).Some? then FirstReply(h, i, id) else FirstReply([x], 0, id)
    decreases |h| - i
  {
    if i < |h| {
      assert (h + [x])[i] == h[i];
      FirstReplyAppend(h, x, i + 1, id);
    } else {
      assert (h + [x])[i] == x == [x][0];
    }
  }

  /** A recorded answer never changes; a missing one is supplied by the first matching reply. */
  lemma AnsweredAppend(h: seq<Input>, x: Input, i: nat)
    requires i < |h| && h[i].FromClient?
    ensures Answered(h + [x], i) ==
      if Answered(h, i).Some? then Answered(h, i) else FirstReply([x], 0, h[i].command.id)
    ensures Answered(h, i).None? ==> h[i].command.Request?
  {
    var c := h[i].command;
    assert (h + [x])[..i] == h[..i] && (h + [x])[i] == h[i];
    if c.Request? {
      FirstReplyAppend(h, x, i + 1, c.id);
    }
  }

  lemma {:induction false} OutstandingBound(h: seq<Input>, id: RequestId)
    ensures Outstanding(h, id).Some? ==>
      var i := Outstanding(h, id).value; i < |h| && Asks(h[i], id)
  {
    if h != [] {
      OutstandingBound(Init(h), id);
    }
  }

  /** A command is unanswered exactly when it is the outstanding request of its id. */
  lemma {:induction false} UnansweredIffOutstanding(h: seq<Input>, i: nat)
    requires i < |h| && h[i].FromClient?
    ensures Answered(h, i).None? <==> h[i].command.Request? && Outstanding(h, h[i].command.id) == Some(i)
  {
    var h0, x := Init(h), Last(h);
    assert h == h0 + [x];
    if i == |h| - 1 {
      assert h[..i] == h0;
      if h[i].command.Request? { OutstandingBound(h0, h[i].command.id); }
    } else {
      UnansweredIffOutstanding(h0, i);
      AnsweredAppend(h0, x, i);
      if h[i].command.Request? {
        assert h0[i] == h[i];
        assert FirstReply([x], 0, h[i].command.id).Some? <==> Replies(x, h[i].command.id);
      }
    }
  }

  // ---- The event stream ----

  function Frames(h: seq<Input>): seq<Frame> {
    if h == [] then []
    else Frames(Init(h)) + if Last(h).FromServer? then [Last(h).frame] else []
  }

  function DecodeAll(fs: seq<Frame>): seq<Event> {
    if fs == [] then [] else DecodeAll(Init(fs)) + Decode(Last(fs))
  }

  lemma Assoc<T>(a: seq<T>, b: seq<T>, c: seq<T>)
    ensures (a + b) + c == a + (b + c)
  {
  }

  lemma SplitConcat<T>(a: seq<T>, b: seq<T>)
    requires b != []
    ensures a + b == (a + Init(b)) + [Last(b)]
  {
  }

  lemma DecodeAllAppend(fs: seq<Frame>, f: Frame)
    ensures DecodeAll(fs + [f]) == DecodeAll(fs) + Decode(f)
  {
    assert Init(fs + [f]) == fs;
  }

  lemma {:induction false} DecodeAllConcat(fs: seq<Frame>, gs: seq<Frame>)
    ensures DecodeAll(fs + gs) == DecodeAll(fs) + DecodeAll(gs)
  {
    if gs == [] {
      assert fs + gs == fs;
    } else {
      var front, g := Init(gs), Last(gs);
      calc {
        DecodeAll(fs + gs);
        { SplitConcat(fs, gs); }
        DecodeAll((fs + front) + [g]);
        { DecodeAllAppend(fs + front, g); }
        DecodeAll(fs + front) + Decode(g);
        { DecodeAllConcat(fs, front); }
        (DecodeAll(fs) + DecodeAll(front)) + Decode(g);
        { Assoc(DecodeAll(fs), DecodeAll(front), Decode(g)); }
        DecodeAll(fs) + DecodeAll(gs);
      }
    }
  }

  lemma {:induction false} NoDisconnectDecoded(fs: seq<Frame>)
    ensures Disconnected !in DecodeAll(fs)
  {
    if fs != [] {
      NoDisconnectDecoded(Init(fs));
    }
  }

  /** The closing `Disconnected`, present exactly when the exit error is set. */
  function Farewell(h: seq<Input>): seq<Event> {
    if Failure(h).Some? then [Disconnected] else []
  }

  /**
   * The attempted events are the decoded frames in order, then `Disconnected` exactly when the exit
   * error is set; so `Disconnected` is attempted at most once and last.
   */
  lemma {:induction false} AttemptsAreDecodedFrames(h: seq<Input>)
    requires History(h)
    ensures Attempts(h) == DecodeAll(Frames(h)) + Farewell(h)
    ensures Disconnected !in DecodeAll(Frames(h))
  {
    NoDisconnectDecoded(Frames(h));
    if h != [] {
      AttemptsAreDecodedFrames(Init(h));
      var d := DecodeAll(Frames(Init(h)));
      assert Attempts(Init(h)) == d + [] == d;
      if Last(h).FromServer? {
        DecodeAllAppend(Frames(Init(h)), Last(h).frame);
        assert Failure(h).Some? ==> DecodeAll(Frames(h)) == d + [] == d;
        assert Failure(h).None? ==> DecodeAll(Frames(h)) + [] == DecodeAll(Frames(h));
      } else {
        assert Frames(h) == Frames(Init(h));
      }
    }
  }

  /** Events reach the consumer until it hangs up; the first one that cannot be delivered stops the worker. */
  lemma {:induction false} DeliveredUntilHangUp(h: seq<Input>)
    requires History(h)
    ensures Delivered(h) <= Attempts(h)
    ensures ConsumerOpen(h) || !Stopped(h) ==> Delivered(h) == Attempts(h)
  {
    if h != [] {
      assert h == Init(h) + [Last(h)];
      DeliveredUntilHangUp(Init(h));
    }
  }

  lemma PrefixTrans(s: seq<Event>, a: seq<Event>, b: seq<Event>, c: seq<Event>)
    requires s <= a + b && b <= c
    ensures s <= a + c
  {
    assert a + b <= a + c;
  }

  /**
   * What a client can see, handshake events first, is a prefix of the in-order decoding of
   * everything the server sent, closed by `Disconnected` exactly when the worker failed.
   */
  lemma StreamIsDecodedWire(handshake: seq<Frame>, h: seq<Input>, seen: seq<Event>)
    requires History(h) && seen <= DecodeAll(handshake) + Delivered(h)
    ensures seen <= DecodeAll(handshake + Frames(h)) + Farewell(h)
    ensures Disconnected !in DecodeAll(handshake + Frames(h))
  {
    AttemptsAreDecodedFrames(h);
    DeliveredUntilHangUp(h);
    DecodeAllConcat(handshake, Frames(h));
    NoDisconnectDecoded(handshake + Frames(h));
    PrefixTrans(seen, DecodeAll(handshake), Delivered(h), Attempts(h));
    Assoc(DecodeAll(handshake), DecodeAll(Frames(h)), Farewell(h));
  }

  // ---- Unknown server requests ----

  function Unsupported(ms: seq<Message>): seq<Message> {
    if ms == [] then []
    else if Last(ms).UnsupportedMessage? then Unsupported(Init(ms)) + [Last(ms)]
    else Unsupported(Init(ms))
  }

  function UnknownRequests(h: seq<Input>): seq<Message> {
    if h == [] then []
    else if Last(h).FromServer? && Last(h).frame.ServerRequest? && !Last(h).frame.known
    then UnknownRequests(Init(h)) + [UnsupportedMessage(Last(h).frame.id, METHOD_NOT_FOUND)]
    else UnknownRequests(Init(h))
  }

  /** Every undecodable server request gets exactly one -32601 write attempt, in order, and nothing else does. */
  lemma {:induction false} UnknownRequestsRejectedOnce(h: seq<Input>)
    ensures Unsupported(Writes(h)) == UnknownRequests(h)
  {
    if h != [] {
      UnknownRequestsRejectedOnce(Init(h));
      var w := WriteOf(Init(h), Last(h));
      if w == [] {
        assert Writes(h) == Writes(Init(h));
      } else {
        assert Init(Writes(h)) == Writes(Init(h)) && Last(Writes(h)) == w[0];
      }
    }
  }

  /** A duplicate id reaches neither the wire nor the first waiter, and does not stop the worker. */
  lemma DuplicateRefused(h: seq<Input>, id: RequestId, params: nat, ok: bool, other: RequestId)
    requires Outstanding(h, id).Some?
    ensures var h' := h + [FromClient(Request(id, params), ok)];
            && Writes(h') == Writes(h)
            && Outstanding(h', other) == Outstanding(h, other)
            && Attempts(h') == Attempts(h) && !Stopped(h')
            && Answered(h', |h|) == Some(IoError(InvalidInput))
  {
    var h' := h + [FromClient(Request(id, params), ok)];
    assert Init(h') == h && h'[..|h|] == h;
  }

  // ---- One step of the bookkeeping ----

  /** The waiters are exactly the outstanding requests, at most one per id. */
  ghost predicate PendingMatch(pending: map<RequestId, nat>, h: seq<Input>) {
    && (forall id :: id in pending <==> Outstanding(h, id).Some?)
    && (forall id :: id in pending ==> pending[id] == Outstanding(h, id).value)
  }

  /** The answer that taking `x` after `h` calls for, if any. */
  function NewAnswer(h: seq<Input>, x: Input): Option<Answer> {
    if x.FromClient? then
      var r := Answered(h + [x], |h|);
      if r.Some? then Some(Answer(|h|, r.value)) else None
    else if x.FromServer? && (x.frame.Response? || x.frame.Error?) && Outstanding(h, x.frame.id).Some? then
      Some(Answer(Outstanding(h, x.frame.id).value, FirstReply([x], 0, x.frame.id).value))
    else None
  }

  function AddAnswer(answers: seq<Answer>, a: Option<Answer>): seq<Answer> {
    if a.Some? then answers + [a.value] else answers
  }

  lemma NewAnswerIsNew(h: seq<Input>, x: Input, i: nat)
    requires i <= |h| && (h + [x])[i].FromClient?
    ensures i < |h| && Answered(h, i).Some? ==>
      Answered(h + [x], i) == Answered(h, i) && (NewAnswer(h, x).Some? ==> NewAnswer(h, x).value.ticket != i)
    ensures i == |h| || Answered(h, i).None? ==>
      if Answered(h + [x], i).Some? then NewAnswer(h, x) == Some(Answer(i, Answered(h + [x], i).value))
      else NewAnswer(h, x).Some? ==> NewAnswer(h, x).value.ticket != i
  {
    if i < |h| {
      AnsweredAppend(h, x, i);
      UnansweredIffOutstanding(h, i);
      if x.FromServer? && (x.frame.Response? || x.frame.Error?) {
        OutstandingBound(h, x.frame.id);
      }
    }
  }

  lemma TimesBeyond(answers: seq<Answer>, n: nat)
    requires forall a :: a in answers ==> a.ticket < n
    ensures Times(answers, n) == 0
  {
  }

  lemma AnswersStep(answers: seq<Answer>, h: seq<Input>, x: Input)
    requires AnswersMatch(answers, h)
    ensures AnswersMatch(AddAnswer(answers, NewAnswer(h, x)), h + [x])
  {
    var h', n := h + [x], NewAnswer(h, x);
    var answers' := AddAnswer(answers, n);
    forall a | a in answers'
      ensures a.ticket < |h'| && h'[a.ticket].FromClient? && Answered(h', a.ticket) == Some(a.reply)
    {
      if a in answers {
        NewAnswerIsNew(h, x, a.ticket);
      } else if x.FromServer? {
        OutstandingBound(h, x.frame.id);
        UnansweredIffOutstanding(h, a.ticket);
        NewAnswerIsNew(h, x, a.ticket);
        AnsweredAppend(h, x, a.ticket);
      }
    }
    forall i | 0 <= i < |h'| && h'[i].FromClient?
      ensures Times(answers', i) == if Answered(h', i).Some? then 1 else 0
    {
      NewAnswerIsNew(h, x, i);
      if i == |h| { TimesBeyond(answers, |h|); }
      if n.Some? { TimesAppend(answers, n.value, i); }
    }
  }

  function PendingAfter(pending: map<RequestId, nat>, h: seq<Input>, x: Input): map<RequestId, nat> {
    if x.FromServer? && (x.frame.Response? || x.frame.Error?) then pending - {x.frame.id}
    else if x.FromClient? && x.command.Request? && Outstanding(h, x.command.id).None? && x.ok then
      pending[x.command.id := |h|]
    else pending
  }

  lemma PendingStep(pending: map<RequestId, nat>, h: seq<Input>, x: Input)
    requires PendingMatch(pending, h)
    ensures PendingMatch(PendingAfter(pending, h, x), h + [x])
  {
    assert Init(h + [x]) == h && Last(h + [x]) == x;
  }

  /** The local variables of the worker task and the logs of what it did. */
  datatype State = State(
    pending: map<RequestId, nat>, exitError: Option<ErrorKind>, running: bool, consumerOpen: bool,
    clock: nat, answers: seq<Answer>, written: seq<Message>, attempted: seq<Event>, channel: seq<Event>)

  ghost predicate Logged(s: State, h: seq<Input>) {
    && History(h)
    && s.clock == |h|
    && s.consumerOpen == ConsumerOpen(h)
    && s.written == Writes(h)
    && s.attempted == Attempts(h)
    && s.channel == Delivered(h)
    && s.exitError == Failure(h)
    && s.running == !Stopped(h)
  }

  /** The worker's state is the one its history calls for. */
  ghost predicate Explained(s: State, h: seq<Input>) {
    Logged(s, h) && AnswersMatch(s.answers, h) && PendingMatch(s.pending, h)
  }

  function Extend<T(==)>(xs: seq<T>, ys: seq<T>): (r: seq<T>)
    ensures r == xs + ys
  {
    if ys == [] then xs else xs + ys
  }

  /** The state after taking `x`, told through the history only. */
  function Advance(s: State, h: seq<Input>, x: Input): State {
    State(PendingAfter(s.pending, h, x), FailureOf(h, x), !StopsOf(h, x), s.consumerOpen && !x.ConsumerDropped?,
          s.clock + 1, AddAnswer(s.answers, NewAnswer(h, x)), Extend(s.written, WriteOf(h, x)),
          Extend(s.attempted, AttemptOf(h, x)), Extend(s.channel, DeliveryOf(h, x)))
  }

  lemma AdvanceExplained(s: State, h: seq<Input>, x: Input)
    requires Explained(s, h) && s.running
    ensures Explained(Advance(s, h, x), h + [x])
  {
    AnswersStep(s.answers, h, x);
    PendingStep(s.pending, h, x);
    var h' := h + [x];
    assert Init(h') == h && Last(h') == x;
  }

  /** What `Advance` comes to for a request. */
  lemma AdvanceRequest(s: State, h: seq<Input>, id: RequestId, params: nat, ok: bool)
    requires s.running && s.exitError.None? && s.clock == |h| && s.consumerOpen == ConsumerOpen(h)
    requires id in s.pending <==> Outstanding(h, id).Some?
    ensures var sent := s.written + [RequestMessage(id, params)];
      Advance(s, h, FromClient(Request(id, params), ok)) ==
      if id in s.pending then
        s.(answers := s.answers + [Answer(s.clock, IoError(InvalidInput))], clock := s.clock + 1)
      else if ok then
        s.(pending := s.pending[id := s.clock], written := sent, clock := s.clock + 1)
      else
        s.(answers := s.answers + [Answer(s.clock, IoError(Other))], written := sent, clock := s.clock + 1,
           exitError := Some(BrokenPipe), running := false, attempted := s.attempted + [Disconnected],
           channel := if s.consumerOpen then s.channel + [Disconnected] else s.channel)
  {
    var x := FromClient(Request(id, params), ok);
    assert (h + [x])[..|h|] == h && (h + [x])[|h|] == x;
  }

  // ---- The worker ----

  ghost predicate Waiting(h: seq<Input>, i: nat, pending: map<RequestId, nat>)
    requires i < |h| && h[i].FromClient?
  {
    Answered(h, i).None? && h[i].command.Request? && h[i].command.id in pending
  }

  /** While draining: a command is answered unless it is still among the waiters. */
  ghost predicate Draining(answers: seq<Answer>, pending: map<RequestId, nat>, h: seq<Input>)
  {
    && (forall id :: id in pending ==> Outstanding(h, id) == Some(pending[id]))
    && (forall a :: a in answers ==>
          && a.ticket < |h| && h[a.ticket].FromClient?
          && a.reply == if Answered(h, a.ticket).Some? then Answered(h, a.ticket).value else ExitReply(h))
    && forall i :: 0 <= i < |h| && h[i].FromClient? ==>
         Times(answers, i) == if Waiting(h, i, pending) then 0 else 1
  }

  lemma DrainStart(answers: seq<Answer>, pending: map<RequestId, nat>, h: seq<Input>)
    requires AnswersMatch(answers, h) && PendingMatch(pending, h)
    ensures Draining(answers, pending, h)
  {
    forall i | 0 <= i < |h| && h[i].FromClient?
      ensures Times(answers, i) == if Waiting(h, i, pending) then 0 else 1
    {
      UnansweredIffOutstanding(h, i);
    }
  }

  lemma DrainStep(answers: seq<Answer>, pending: map<RequestId, nat>, h: seq<Input>, id: RequestId)
    requires Draining(answers, pending, h) && id in pending
    ensures Draining(answers + [Answer(pending[id], ExitReply(h))], pending - {id}, h)
  {
    OutstandingBound(h, id);
    var a := Answer(pending[id], ExitReply(h));
    UnansweredIffOutstanding(h, a.ticket);
    forall i | 0 <= i < |h| && h[i].FromClient?
      ensures Times(answers + [a], i) == if Waiting(h, i, pending - {id}) then 0 else 1
    {
      TimesAppend(answers, a, i);
      UnansweredIffOutstanding(h, i);
    }
  }

  class Worker {
    var pendingRequests: map<RequestId, nat>
    var exitError: Option<ErrorKind>
    var running: bool
    var consumerOpen: bool
    var clock: nat                 // numbers the oneshot channels
    var answers: seq<Answer>
    var written: seq<Message>
    var attempted: seq<Event>
    var channel: seq<Event>
    ghost var history: seq<Input>

    ghost function View(): State
      reads this
    {
      State(pendingRequests, exitError, running, consumerOpen, clock, answers, written, attempted, channel)
    }

    ghost predicate Valid()
      reads this
    {
      Explained(View(), history)
    }

    /** What a turn relies on besides the waiters. */
    ghost predicate Ready()
      reads this
    {
      running && exitError.None? && clock == |history| && consumerOpen == ConsumerOpen(history)
    }

    /** The state and history after taking `x` in state `s` with history `h`. */
    ghost predicate Took(s: State, h: seq<Input>, x: Input)
      reads this
    {
      history == h + [x] && View() == Advance(s, h, x)
    }

    constructor ()
      ensures Valid() && running && history == []
    {
      pendingRequests, exitError, running, consumerOpen := map[], None, true, true;
      clock, answers, written, attempted, channel := 0, [], [], [], [];
      history := [];
    }

    /** `deliver_event`: fails only when the consumer is gone. */
    method Deliver(e: Event) returns (ok: bool)
      modifies this`attempted, this`channel
      ensures attempted == old(attempted) + [e]
      ensures ok == consumerOpen && channel == if ok then old(channel) + [e] else old(channel)
    {
      attempted := attempted + [e];
      if consumerOpen { channel := channel + [e]; }
      ok := consumerOpen;
    }

    method Disconnect(kind: ErrorKind)
      modifies this`attempted, this`channel, this`exitError, this`running
      ensures attempted == old(attempted) + [Disconnected] && exitError == Some(kind) && !running
      ensures channel == if consumerOpen then old(channel) + [Disconnected] else old(channel)
    {
      var _ := Deliver(Disconnected);
      exitError, running := Some(kind), false;
    }

    /** A request with an id that is already waiting. */
    method RefuseDuplicate(id: RequestId, params: nat, ok: bool)
      requires Ready() && id in pendingRequests && Outstanding(history, id).Some?
      modifies this`answers, this`clock, this`history
      ensures Took(old(View()), old(history), FromClient(Request(id, params), ok))
    {
      AdvanceRequest(View(), history, id, params, ok);
      answers := answers + [Answer(clock, IoError(InvalidInput))];
      clock := clock + 1;
      history := history + [FromClient(Request(id, params), ok)];
    }

    /** A request whose write fails: answered itself, and the end of the worker. */
    method FailRequest(id: RequestId, params: nat)
      requires Ready() && id !in pendingRequests && Outstanding(history, id).None?
      modifies this
      ensures Took(old(View()), old(history), FromClient(Request(id, params), false))
    {
      AdvanceRequest(View(), history, id, params, false);
      ghost var before := pendingRequests;
      pendingRequests := pendingRequests[id := clock];
      written := written + [RequestMessage(id, params)];
      answers := answers + [Answer(pendingRequests[id], IoError(Other))];
      pendingRequests := pendingRequests - {id};
      assert pendingRequests == before;
      Disconnect(BrokenPipe);
      clock := clock + 1;
      history := history + [FromClient(Request(id, params), false)];
    }

    /** `RemoteClientCommand::Request`. */
    method OnRequest(id: RequestId, params: nat, ok: bool)
      requires Ready() && (id in pendingRequests <==> Outstanding(history, id).Some?)
      modifies this
      ensures Took(old(View()), old(history), FromClient(Request(id, params), ok))
    {
      if id in pendingRequests {
        RefuseDuplicate(id, params, ok);
      } else if !ok {
        FailRequest(id, params);
      } else {
        AdvanceRequest(View(), history, id, params, ok);
        pendingRequests := pendingRequests[id := clock];
        written := written + [RequestMessage(id, params)];
        clock := clock + 1;
        history := history + [FromClient(Request(id, params), ok)];
      }
    }

    /** The other commands: one write, answered at once. */
    method OnCommand(c: Command, ok: bool)
      requires Ready() && !c.Request?
      modifies this
      ensures Took(old(View()), old(history), FromClient(c, ok))
    {
      ghost var h, x := history, FromClient(c, ok);
      assert (h + [x])[|h|] == x;
      match c {
        case Notify(params) => written := written + [NotificationMessage(params)];
        case ResolveServerRequest(id, params) => written := written + [ResponseMessage(id, params)];
        case RejectServerRequest(id, params) => written := written + [ErrorMessage(id, params)];
        case Shutdown => running := false;
      }
      answers := answers + [Answer(clock, if ok then Done else IoError(Other))];
      clock := clock + 1;
      history := history + [x];
    }

    /** `JSONRPCMessage::Response` and `JSONRPCMessage::Error`. */
    method OnReply(f: Frame, ok: bool)
      requires Ready() && (f.Response? || f.Error?)
      requires f.id in pendingRequests <==> Outstanding(history, f.id).Some?
      requires f.id in pendingRequests ==> pendingRequests[f.id] == Outstanding(history, f.id).value
      modifies this
      ensures Took(old(View()), old(history), FromServer(f, ok))
    {
      if f.id in pendingRequests {
        var reply := if f.Response? then Success(f.result) else ServerError(f.error);
        answers := answers + [Answer(pendingRequests[f.id], reply)];
        pendingRequests := pendingRequests - {f.id};
      }
      assert pendingRequests == old(pendingRequests) - {f.id};
      clock := clock + 1;
      history := history + [FromServer(f, ok)];
    }

    /** Everything else `stream.next()` can yield. */
    method OnFrame(f: Frame, ok: bool)
      requires Ready() && !f.Response? && !f.Error?
      modifies this
      ensures Took(old(View()), old(history), FromServer(f, ok))
    {
      match f {
        case Notification(known, params) =>
          if known {
            var delivered := Deliver(NotificationEvent(params));
            running := delivered;
          }
        case ServerRequest(id, known, params) =>
          if known {
            var delivered := Deliver(RequestEvent(id, params));
            running := delivered;
          } else {
            written := written + [UnsupportedMessage(id, METHOD_NOT_FOUND)];
            if !ok { Disconnect(BrokenPipe); }
          }
        case InvalidJson => Disconnect(InvalidData);
        case Close => Disconnect(ConnectionAborted);
        case Ignored =>
        case TransportError => Disconnect(InvalidData);
        case EndOfStream => Disconnect(UnexpectedEof);
      }
      clock := clock + 1;
      history := history + [FromServer(f, ok)];
    }

    /** The client handle is gone, or the event receiver was dropped. */
    method OnHangUp(x: Input)
      requires Ready() && (x.ClientGone? || x.ConsumerDropped?)
      modifies this
      ensures Took(old(View()), old(history), x)
    {
      if x.ClientGone? { running := false; } else { consumerOpen := false; }
      clock := clock + 1;
      history := history + [x];
    }

    /** One turn of the `select!`. */
    method Turn(x: Input)
      requires Valid() && running
      modifies this
      ensures Valid() && history == old(history) + [x]
    {
      AdvanceExplained(View(), history, x);
      match x {
        case FromClient(Request(id, params), ok) => OnRequest(id, params, ok);
        case FromClient(c, ok) => OnCommand(c, ok);
        case FromServer(f, ok) => if f.Response? || f.Error? { OnReply(f, ok); } else { OnFrame(f, ok); }
        case ClientGone => OnHangUp(ClientGone);
        case ConsumerDropped => OnHangUp(ConsumerDropped);
      }
    }

    /** After the loop: `for (_, response_tx) in pending_requests`. */
    method DrainPending()
      requires Valid() && !running
      modifies this`pendingRequests, this`answers
      ensures Logged(View(), history) && pendingRequests == map[] && AllAnsweredOnce(answers, history)
    {
      var kind := if exitError.Some? then exitError.value else BrokenPipe;
      DrainStart(answers, pendingRequests, history);
      while pendingRequests != map[]
        invariant Draining(answers, pendingRequests, history)
        decreases |pendingRequests|
      {
        var id :| id in pendingRequests;
        DrainStep(answers, pendingRequests, history, id);
        answers := answers + [Answer(pendingRequests[id], IoError(kind))];
        pendingRequests := pendingRequests - {id};
      }
    }

    /** The worker task over whatever the select loop yields; `history` is what it took before leaving the loop. */
    method Run(inputs: seq<Input>)
      requires Valid() && history == [] && running
      modifies this
      ensures Logged(View(), history) && history <= inputs
      ensures running ==> history == inputs && Valid()
      ensures !running ==> pendingRequests == map[] && AllAnsweredOnce(answers, history)
    {
      while running && clock < |inputs|
        invariant Valid() && history <= inputs
        decreases |inputs| - clock
      {
        Turn(inputs[clock]);
      }
      if !running { DrainPending(); }
    }
  }
}
