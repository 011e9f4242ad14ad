/** What the client gets: over every run of `forward`, its response as a function of the events that
    came in, and what each kind of event does to the response and to the observers. */
module ForwardAnswers {
  import opened Protocol
  import opened Bytes
  import opened StreamGates
  import opened Forwards

  // ---- the events of a run ------------------------------------------------------------------------------

  /** The events of one attempt, in order. */
  function EventsOf(inputs: seq<Input>, a: nat): seq<Event> {
    if inputs == [] then []
    else EventsOf(inputs[..|inputs| - 1], a) + NewEvent(Run(inputs[..|inputs| - 1]), inputs[|inputs| - 1], a)
  }

  function NewEvent(w: World, i: Input, a: nat): seq<Event> {
    if i.Upstream? && i.attempt == a && a < |w.attempts| && Enabled(w.attempts[a], i.event) then [i.event] else []
  }

  /** Those that came before the client's response was over. */
  function EarlyEvents(inputs: seq<Input>, a: nat): seq<Event> {
    if inputs == [] then []
    else if Over(Run(inputs[..|inputs| - 1]).client) then EarlyEvents(inputs[..|inputs| - 1], a)
    else EventsOf(inputs, a)
  }

  /** The chunks of the upstream's body. */
  function DataOf(events: seq<Event>): seq<seq<Byte>> {
    if events == [] then []
    else DataOf(events[..|events| - 1])
         + if events[|events| - 1].Data? then [events[|events| - 1].chunk] else []
  }

  /** The chunks the last transform puts out. */
  function OutputOf(events: seq<Event>): seq<seq<Byte>> {
    if events == [] then []
    else OutputOf(events[..|events| - 1])
         + if events[|events| - 1].TransformOutput? then [events[|events| - 1].chunk] else []
  }

  lemma OneMore(events: seq<Event>, e: Event)
    ensures DataOf(events + [e]) == DataOf(events) + if e.Data? then [e.chunk] else []
    ensures OutputOf(events + [e]) == OutputOf(events) + if e.TransformOutput? then [e.chunk] else []
  {
    assert (events + [e])[..|events|] == events;
  }

  lemma RunSnoc(inputs: seq<Input>, i: Input)
    ensures Run(inputs + [i]) == Step(Run(inputs), i)
    ensures forall a: nat :: EventsOf(inputs + [i], a) == EventsOf(inputs, a) + NewEvent(Run(inputs), i, a)
    ensures forall a: nat :: EarlyEvents(inputs + [i], a)
                          == if Over(Run(inputs).client) then EarlyEvents(inputs, a) else EventsOf(inputs + [i], a)
  {
    hide Step, NewEvent;
    assert (inputs + [i])[..|inputs|] == inputs;
  }

  // ---- how the body moves ---------------------------------------------------------------------------------

  /** One event's effect on the bytes. */
  predicate Moves(s: Scene, e: Event, t: Scene) {
    && t.at.flow.received == s.at.flow.received + (if e.Data? then [e.chunk] else [])
    && (s.at.flow.committed ==>
          && t.at.flow.committed && t.at.shape == s.at.shape
          && t.client.body == s.client.body
                              + if Over(s.client) then []
                                else if e.Data? && s.at.shape.transforms == 0 then [e.chunk]
                                else if e.TransformOutput? && s.at.shape.transforms > 0 then [e.chunk] else [])
    && (!s.at.flow.committed ==>
          && !e.TransformOutput?
          && (t.at.flow.committed ==>
                !Over(s.client) && t.client.body == if t.at.shape.transforms == 0 then t.at.flow.received else []))
  }

  lemma FinishMoves(s: Scene)
    requires s.at.flow.committed ==> s.client.heads > 0
    ensures var t := FinishClient(s);
            && t.at.flow == s.at.flow && t.at.shape == s.at.shape
            && (s.at.flow.committed ==> t.client.body == s.client.body)
  {
  }

  lemma FailMoves(s: Scene, e: Event, reason: Reason, why: Why)
    requires s.at.flow.committed ==> s.client.heads > 0
    requires !e.Data? && !e.TransformOutput?
    ensures Moves(s, e, FailStreaming(s, reason, why)) && Moves(s, e, FailBuffered(s, reason, why))
  {
    hide FinishClient;
    FinishMoves(Told(Terminate(s, reason), why, true));
    FinishMoves(Told(Terminate(s, reason), why, false));
  }

  /** A request that fails outside a response. */
  function RequestFalls(s: Scene): Scene {
    s.(guard := TellEnd(s.guard, Fell(if s.at.requestTimedOut then RequestTimedOut else RequestFailed)),
       at := if s.at.terminal.None? then s.at.(terminal := Some(ErrorReason)) else s.at)
  }

  lemma FallsMoves(s: Scene, e: Event)
    requires s.at.flow.committed ==> s.client.heads > 0
    requires !e.Data? && !e.TransformOutput?
    ensures Moves(s, e, s) && Moves(s, e, FinishClient(RequestFalls(s)))
  {
    hide FinishClient, TellEnd;
    FinishMoves(RequestFalls(s));
  }

  lemma RequestMoves(s: Scene, e: Event)
    requires s.at.flow.committed ==> s.client.heads > 0
    requires !e.Data? && !e.TransformOutput?
    ensures Moves(s, e, FailRequest(s))
  {
    hide FinishClient, FailStreaming, FailBuffered, Moves, TellEnd;
    FailMoves(s, e, ErrorReason, ResponseFailed);
    FallsMoves(s, e);
  }

  /** A commit writes the chunks that waited, as they came. */
  lemma CommitMoves(s: Scene)
    requires !s.at.flow.committed && !Over(s.client) && s.client.body == [] && s.client.heads == 0
    ensures var t := Commit(s);
            && t.at.flow.received == s.at.flow.received
            && (t.at.flow.committed ==>
                  t.client.body == if t.at.shape.transforms == 0 then s.at.flow.pending else [])
  {
    hide FinishClient;
    FinishMoves(s.(at := s.at.(terminal := Some(ErrorReason), turnedDown := true,
                               sink := TellSink(s.at.sink, SinkError))));
  }

  lemma ResponseMoves(s: Scene, e: Event)
    requires SceneOk(s) && e.Response? && s.at.stage == Awaiting
    ensures Moves(s, e, Handle(s, e))
  {
    hide Commit;
    if !s.at.upstreamFailureHandled && !s.client.destroyed {
      StillWanted(s);
      CommitMoves(OpenStream(s, e.status, e.streamed, e.mode, e.observed, e.adapter, e.rewrites));
    }
  }

  lemma DecideMoves(s: Scene)
    requires !s.at.flow.committed && !Over(s.client) && s.client.body == [] && s.client.heads == 0
             && s.at.flow.pending == s.at.flow.received
    ensures var t := Decide(s);
            && t.at.flow.received == s.at.flow.received
            && (t.at.flow.committed ==>
                  t.client.body == if t.at.shape.transforms == 0 then t.at.flow.received else [])
  {
    hide Commit, FinishClient, Judge, Concat;
    CommitMoves(s);
    FinishMoves(s.(at := s.at.(terminal := Some(ErrorReason), turnedDown := true,
                               sink := TellSink(s.at.sink, SinkError))));
  }

  lemma DataMoves(s: Scene, chunk: seq<Byte>)
    requires SceneOk(s) && SettleOk(s) && (s.at.stage == Buffering || s.at.stage == Streaming)
    ensures Moves(s, Data(chunk), TakeData(s, chunk))
  {
    hide Decide;
    if s.at.stage == Streaming && !s.at.flow.committed && s.at.terminal.None? {
      DecideMoves(Hold(s, chunk));
    }
  }

  lemma EndMoves(s: Scene, e: Event)
    requires SceneOk(s) && e.End?
    ensures Moves(s, e, TakeEnd(s, e.recovery))
  {
    hide FinishClient, Wants, TellEnd, TellSink;
    var t := s.(at := s.at.(over := true, terminal := Some(EndReason)));
    FinishMoves(t.(at := t.at.(sink := TellSink(t.at.sink, SinkEnd))));
  }

  lemma HandleMoves(s: Scene, e: Event)
    requires SceneOk(s) && SettleOk(s) && Enabled(s.at, e)
    ensures Moves(s, e, Handle(s, e))
  {
    hide TakeResponse, TakeData, TakeEnd, FailStreaming, FailBuffered, FailRequest;
    match e
    case Response(status, rules, streamed, mode, observed, adapter, rewrites) => ResponseMoves(s, e);
    case Data(chunk) => DataMoves(s, chunk);
    case End(recovery, _) => EndMoves(s, e);
    case ResponseError => FailMoves(s, e, ErrorReason, ResponseFailed);
    case ResponseAbort => FailMoves(s, e, AbortedReason, ResponseAborted);
    case ResponseClose(_) => FailMoves(s, e, CloseReason, ResponseClosed);
    case RequestError => RequestMoves(s, e);
    case TransformError => FailMoves(s, e, ErrorReason, ResponseFailed);
    case _ =>
  }

  /** What has come in, and what of it the client has. */
  predicate Carries(s: Scene, events: seq<Event>, early: seq<Event>) {
    && s.at.flow.received == DataOf(events)
    && (!Over(s.client) ==> early == events)
    && if s.at.flow.committed
       then s.client.body == if s.at.shape.transforms == 0 then DataOf(early) else OutputOf(early)
       else OutputOf(events) == []
  }

  lemma MovesCarries(s: Scene, e: Event, t: Scene, events: seq<Event>, early: seq<Event>)
    requires Carries(s, events, early) && Moves(s, e, t) && StaysOver(s, t)
    ensures Carries(t, events + [e], if Over(s.client) then early else events + [e])
  {
    OneMore(events, e);
  }

  lemma FrozenCarries(s: Scene, e: Event, t: Scene, events: seq<Event>, early: seq<Event>)
    requires Frozen(s.at) && Enabled(s.at, e) && t == Handle(s, e) && Carries(s, events, early)
    ensures Carries(t, events + [e], if Over(s.client) then early else events + [e])
  {
    FrozenStays(s, e);
    OneMore(events, e);
  }

  // ---- what the response said -----------------------------------------------------------------------------

  /** The attempt's response: Node gives it one at most. */
  function ResponseOf(events: seq<Event>): Option<Event> {
    if events == [] then None
    else if ResponseOf(events[..|events| - 1]).None? && events[|events| - 1].Response? then
      Some(events[|events| - 1])
    else ResponseOf(events[..|events| - 1])
  }

  lemma ResponseSnoc(events: seq<Event>, e: Event)
    ensures ResponseOf(events + [e])
         == if ResponseOf(events).None? && e.Response? then Some(e) else ResponseOf(events)
  {
    assert (events + [e])[..|events|] == events;
  }

  /** An error that the recovery rules are to see whole. */
  predicate Recoverable(r: Event) {
    r.Response? && r.rules && (r.status == 400 || r.status == 422)
  }

  /** Only a success is gated or adapted; the id rewriter stands behind the adapter. */
  predicate ShapedLike(shape: Shape, r: Event) {
    r.Response? && shape.status == r.status && shape.mode == r.mode
    && (shape.gated <==> r.streamed && 200 <= r.status <= 299)
    && shape.adapter == (if 200 <= r.status <= 299 then r.adapter else NoAdapter)
    && (shape.transforms > 0 <==> r.rewrites || (200 <= r.status <= 299 && r.adapter == GoodAdapter))
    && (shape.transforms > 1 <==> r.rewrites && 200 <= r.status <= 299 && r.adapter == GoodAdapter)
    && shape.transforms <= 2
  }

  /** Where the attempt stands, by the events it has had. */
  predicate Tracks(s: Scene, events: seq<Event>) {
    && (s.at.requestTimedOut <==> Timeout in events)
    && (s.at.over <==> exists e <- events :: e.End?)
    && (s.at.stage == Unread ==> Over(s.client))
    && match ResponseOf(events)
       case None => s.at.stage == Awaiting
       case Some(r) =>
         || s.at.stage == Unread
         || (s.at.stage == Buffering && Recoverable(r) && s.at.shape.status == r.status)
         || (s.at.stage == Streaming && !Recoverable(r) && ShapedLike(s.at.shape, r))
  }

  /** What the response observer is open to, and how far the transforms have flushed. */
  predicate Listens(s: Scene, events: seq<Event>) {
    && (s.at.stage == Awaiting || s.at.stage == Unread ==> s.at.sink == Sink(false, []))
    && ((s.at.stage == Buffering || s.at.stage == Streaming) && s.at.terminal.None? ==>
          ResponseOf(events).Some? && ResponseOf(events).value.Response?
          && s.at.sink.open == ResponseOf(events).value.observed)
    && (s.at.stage == Streaming && s.at.terminal == Some(EndReason) && s.at.sink.open ==> Over(s.client))
    && (s.at.flow.committed && s.at.terminal.Some? && s.at.terminal != Some(EndReason) ==> Over(s.client))
    && (!s.at.flow.committed ==> EndsOf(events) == 0)
    && (s.at.flow.committed && s.client.ended ==> s.at.flow.flushing == 0)
    && (s.at.flow.committed && !Over(s.client) ==> s.at.flow.flushing + EndsOf(events) == s.at.shape.transforms)
  }

  /** How many transforms have ended. */
  function EndsOf(events: seq<Event>): nat {
    if events == [] then 0 else EndsOf(events[..|events| - 1]) + if events[|events| - 1].TransformEnd? then 1 else 0
  }

  lemma EndsSnoc(events: seq<Event>, e: Event)
    ensures EndsOf(events + [e]) == EndsOf(events) + if e.TransformEnd? then 1 else 0
  {
    assert (events + [e])[..|events|] == events;
  }

  /** An event other than the response keeps the attempt's shape. */
  predicate KeepsShape(s: Scene, e: Event, t: Scene) {
    && t.at.stage == s.at.stage && t.at.shape == s.at.shape
    && (t.at.requestTimedOut <==> s.at.requestTimedOut || e.Timeout?)
    && (t.at.over <==> s.at.over || e.End?)
  }

  lemma FinishKeepsShape(s: Scene, e: Event)
    requires !e.Timeout? && !e.End?
    ensures KeepsShape(s, e, FinishClient(s)) && KeepsShape(s, e, TurnDown(s)) && KeepsShape(s, e, Commit(s))
  {
  }

  lemma FailKeepsShape(s: Scene, e: Event, reason: Reason, why: Why)
    requires !e.Timeout? && !e.End?
    ensures KeepsShape(s, e, FailStreaming(s, reason, why)) && KeepsShape(s, e, FailBuffered(s, reason, why))
  {
    hide FinishClient;
    FinishKeepsShape(Told(Terminate(s, reason), why, true), e);
    FinishKeepsShape(Told(Terminate(s, reason), why, false), e);
  }

  lemma RequestKeepsShape(s: Scene, e: Event)
    requires !e.Timeout? && !e.End?
    ensures KeepsShape(s, e, FailRequest(s))
  {
    hide FinishClient, FailStreaming, FailBuffered, TellEnd;
    FailKeepsShape(s, e, ErrorReason, ResponseFailed);
    FinishKeepsShape(RequestFalls(s), e);
  }

  lemma DecideKeepsShape(s: Scene, e: Event)
    requires !e.Timeout? && !e.End?
    ensures KeepsShape(s, e, Decide(s))
  {
    hide Commit, TurnDown, Judge, Concat;
    FinishKeepsShape(s, e);
  }

  lemma HeldKeepsShape(s: Scene, chunk: seq<Byte>)
    requires s.at.stage != Buffering && !s.at.flow.committed
    ensures KeepsShape(s, Data(chunk), TakeData(s, chunk))
  {
    hide Decide;
    DecideKeepsShape(Hold(s, chunk), Data(chunk));
  }

  lemma PassedKeepsShape(s: Scene, chunk: seq<Byte>)
    requires s.at.stage != Buffering && s.at.flow.committed
    ensures KeepsShape(s, Data(chunk), TakeData(s, chunk))
  {
    hide PipeWrite, TellSink, Decide;
  }

  lemma BufferedKeepsShape(s: Scene, chunk: seq<Byte>)
    requires s.at.stage == Buffering
    ensures KeepsShape(s, Data(chunk), TakeData(s, chunk))
  {
    hide PipeWrite, TellSink, Decide;
  }

  lemma DataKeepsShape(s: Scene, chunk: seq<Byte>)
    ensures KeepsShape(s, Data(chunk), TakeData(s, chunk))
  {
    hide TakeData, KeepsShape;
    if s.at.stage == Buffering {
      BufferedKeepsShape(s, chunk);
    } else if s.at.flow.committed {
      PassedKeepsShape(s, chunk);
    } else {
      HeldKeepsShape(s, chunk);
    }
  }

  lemma EndStreamKeepsShape(s: Scene, e: Event)
    requires !e.Timeout? && !e.End?
    ensures KeepsShape(s, e, EndStream(s))
  {
    hide FinishClient, TellSink, TellEnd;
    FinishKeepsShape(s.(at := s.at.(sink := TellSink(s.at.sink, SinkEnd))), e);
  }

  lemma EndKeepsShape(s: Scene, e: Event)
    requires e.End?
    ensures KeepsShape(s, e, TakeEnd(s, e.recovery))
  {
    hide EndStream, PassBuffered, Wants, PipeEnd;
    var t := s.(at := s.at.(over := true, terminal := Some(EndReason)));
    EndStreamKeepsShape(t, ResponseError);
    PassKeepsShape(t, e.recovery.unrecoverable);
  }

  lemma PassKeepsShape(s: Scene, unrecoverable: bool)
    ensures KeepsShape(s, ResponseError, PassBuffered(s, unrecoverable))
  {
    hide TellSink, TellEnd, Concat, EndWith;
  }

  lemma HandleKeepsShape(s: Scene, e: Event)
    requires !e.Response?
    ensures KeepsShape(s, e, Handle(s, e))
  {
    hide TakeData, TakeEnd, FailStreaming, FailBuffered, FailRequest;
    match e
    case Data(chunk) => DataKeepsShape(s, chunk);
    case End(recovery, _) => EndKeepsShape(s, e);
    case ResponseError => FailKeepsShape(s, e, ErrorReason, ResponseFailed);
    case ResponseAbort => FailKeepsShape(s, e, AbortedReason, ResponseAborted);
    case ResponseClose(_) => FailKeepsShape(s, e, CloseReason, ResponseClosed);
    case RequestError => RequestKeepsShape(s, e);
    case TransformError => FailKeepsShape(s, e, ErrorReason, ResponseFailed);
    case _ =>
  }

  lemma ShapeTracks(s: Scene, e: Event, t: Scene, events: seq<Event>)
    requires Tracks(s, events) && KeepsShape(s, e, t) && StaysOver(s, t) && !e.Response?
    ensures Tracks(t, events + [e])
  {
    hide ShapedLike;
    ResponseSnoc(events, e);
    assert e.End? ==> e in events + [e];
    assert forall f <- events :: f in events + [e];
  }

  lemma OpenedLike(s: Scene, r: Event)
    requires r.Response?
    ensures var t := OpenStream(s, r.status, r.streamed, r.mode, r.observed, r.adapter, r.rewrites);
            && ShapedLike(t.at.shape, r)
            && t == s.(at := s.at.(stage := Streaming, sink := Sink(r.observed, []), shape := t.at.shape))
  {
  }

  /** How a response that may be committed at once, or is held, comes out of the listener. */
  predicate Opened(s: Scene, r: Event, t: Scene) {
    && r.Response? && t.at.requestTimedOut == s.at.requestTimedOut && t.at.over == s.at.over
    && (t.at.stage == Unread || t.at.stage == Buffering || t.at.stage == Streaming)
    && (t.at.stage == Unread ==> t == s.(at := s.at.(stage := Unread)) && Over(s.client))
    && (t.at.stage == Buffering ==> Recoverable(r) && t.at.shape.status == r.status && t.client == s.client
                                    && t.at.flow == s.at.flow)
    && (t.at.stage == Streaming ==> !Recoverable(r) && ShapedLike(t.at.shape, r))
    && (t.at.stage != Unread && t.at.terminal.None? ==> t.at.sink == Sink(r.observed, []))
    && (t.at.stage == Streaming ==> t.at.terminal != Some(EndReason))
    && (t.at.flow.committed ==>
          t.at.flow.flushing == t.at.shape.transforms && !t.client.ended && t.at.terminal.None?)
  }

  lemma CommitOpens(s: Scene)
    requires !s.at.flow.committed && s.at.terminal.None? && !Over(s.client)
    ensures var t := Commit(s);
            && KeepsShape(s, ResponseError, t) && t.at.terminal != Some(EndReason)
            && (t.at.terminal.None? ==> t.at.sink == s.at.sink)
            && (t.at.flow.committed ==>
                  t.at.flow.flushing == s.at.shape.transforms && !t.client.ended && t.at.terminal.None?)
  {
    hide FinishClient, TellSink, PipeWrite;
    FinishKeepsShape(s, ResponseError);
    FinishFlow(s.(at := s.at.(terminal := Some(ErrorReason), turnedDown := true,
                              sink := TellSink(s.at.sink, SinkError))));
    PipeKeepsOpen(WriteHead(s.client), s.at.flow.pending);
  }

  lemma FinishFlow(s: Scene)
    ensures FinishClient(s).at.flow == s.at.flow && FinishClient(s).at.terminal == s.at.terminal
  {
  }

  lemma PipeKeepsOpen(c: Client, chunks: seq<seq<Byte>>)
    ensures PipeWrite(c, chunks).ended == c.ended
  {
  }

  lemma ResponseOpens(s: Scene, e: Event)
    requires SceneOk(s) && SettleOk(s) && e.Response? && s.at.stage == Awaiting
    ensures Opened(s, e, Handle(s, e))
  {
    hide Commit, OpenStream, ShapedLike;
    OpenedLike(s, e);
    if !s.at.upstreamFailureHandled && !s.client.destroyed {
      StillWanted(s);
      CommitOpens(OpenStream(s, e.status, e.streamed, e.mode, e.observed, e.adapter, e.rewrites));
    }
  }

  lemma ResponseTracks(s: Scene, e: Event, t: Scene, events: seq<Event>)
    requires Opened(s, e, t) && s.at.stage == Awaiting && Tracks(s, events)
    ensures Tracks(t, events + [e])
  {
    hide ShapedLike;
    ResponseSnoc(events, e);
    assert forall f <- events :: f in events + [e];
  }

  /** A failure ends the response, or changes nothing. */
  predicate Fails(s: Scene, t: Scene) {
    && t.at.stage == s.at.stage && (t.at.stage == Awaiting || t.at.stage == Unread ==> t.at.sink == s.at.sink)
    && t.at.flow.committed == s.at.flow.committed && t.at.shape == s.at.shape
    && (t == s || (Over(t.client) && t.at.terminal.Some?))
    && (t.at.flow.flushing == s.at.flow.flushing || t.at.flow.flushing == 0)
    && (s.at.flow.committed ==> t.client.ended == s.client.ended)
  }

  lemma FinishFails(s: Scene)
    requires s.at.clientAborted || s.at.proxyDestroyedClient || s.at.upstreamFailureHandled ==> Over(s.client)
    requires s.at.flow.committed ==> s.client.heads > 0
    ensures var t := FinishClient(s);
            && Over(t.client) && t.at.flow == s.at.flow && t.at.sink == s.at.sink && t.at.stage == s.at.stage
            && t.at.terminal == s.at.terminal && t.at.shape == s.at.shape
            && (s.at.flow.committed ==> t.client.ended == s.client.ended)
  {
  }

  lemma StreamFails(s: Scene, reason: Reason, why: Why)
    requires EndsOk(s) && HeadsOk(s) && s.at.stage == Streaming
    ensures Fails(s, FailStreaming(s, reason, why))
  {
    hide FinishClient, TellEnd, TellSink;
    FinishFails(Told(Terminate(s, reason), why, true));
  }

  lemma BufferFails(s: Scene, reason: Reason, why: Why)
    requires EndsOk(s) && HeadsOk(s) && s.at.stage == Buffering
    ensures Fails(s, FailBuffered(s, reason, why))
  {
    hide FinishClient, TellEnd, TellSink;
    FinishFails(Told(Terminate(s, reason), why, false));
  }

  lemma FailFails(s: Scene, reason: Reason, why: Why)
    requires SceneOk(s)
    ensures s.at.stage == Streaming ==> Fails(s, FailStreaming(s, reason, why))
    ensures s.at.stage == Buffering ==> Fails(s, FailBuffered(s, reason, why))
  {
    hide Fails, FailStreaming, FailBuffered, EndsOk, HeadsOk;
    if s.at.stage == Streaming {
      StreamFails(s, reason, why);
    } else if s.at.stage == Buffering {
      BufferFails(s, reason, why);
    }
  }

  lemma RequestFails(s: Scene)
    requires SceneOk(s)
    ensures Fails(s, FailRequest(s))
  {
    hide FinishClient, FailStreaming, FailBuffered, TellEnd, FlowOk, GuardOk, SinkOk;
    FailFails(s, ErrorReason, ResponseFailed);
    FinishFails(RequestFalls(s));
  }

  lemma FailsListens(s: Scene, e: Event, t: Scene, events: seq<Event>)
    requires Fails(s, t) && Listens(s, events) && !e.Response? && !e.TransformEnd?
    ensures Listens(t, events + [e])
  {
    hide EndsOf, ResponseOf;
    ResponseSnoc(events, e);
    EndsSnoc(events, e);
  }

  lemma CommitListens(s: Scene, e: Event, events: seq<Event>)
    requires SceneOk(s) && SettleOk(s) && Listens(s, events) && !e.TransformEnd?
    requires s.at.stage == Streaming && s.at.terminal.None? && !s.at.flow.committed
    requires ResponseOf(events + [e]) == ResponseOf(events)
    ensures Listens(Commit(s), events + [e]) && Listens(TurnDown(s), events + [e])
  {
    EndsSnoc(events, e);
  }

  lemma DataListens(s: Scene, chunk: seq<Byte>, events: seq<Event>)
    requires SceneOk(s) && SettleOk(s) && Listens(s, events) && Enabled(s.at, Data(chunk))
    ensures Listens(TakeData(s, chunk), events + [Data(chunk)])
  {
    hide Commit, TurnDown, Judge;
    ResponseSnoc(events, Data(chunk));
    EndsSnoc(events, Data(chunk));
    if s.at.stage == Streaming && !s.at.flow.committed && s.at.terminal.None? {
      HeldOk(s, chunk);
      CommitListens(Hold(s, chunk), Data(chunk), events);
    }
  }

  lemma EndListens(s: Scene, e: Event, events: seq<Event>)
    requires SceneOk(s) && SettleOk(s) && Listens(s, events) && Enabled(s.at, e) && e.End?
    ensures Listens(TakeEnd(s, e.recovery), events + [e])
  {
    hide Wants;
    ResponseSnoc(events, e);
    EndsSnoc(events, e);
  }

  lemma ResponseListens(s: Scene, e: Event, t: Scene, events: seq<Event>)
    requires Opened(s, e, t) && s.at.stage == Awaiting && Listens(s, events)
    requires ResponseOf(events) == None && !s.at.flow.committed
    ensures Listens(t, events + [e])
  {
    hide ShapedLike, Recoverable, EndsOf, ResponseOf;
    ResponseSnoc(events, e);
    EndsSnoc(events, e);
  }

  lemma HandleListens(s: Scene, e: Event, events: seq<Event>)
    requires SceneOk(s) && SettleOk(s) && Tracks(s, events) && Listens(s, events) && Enabled(s.at, e)
    ensures Listens(Handle(s, e), events + [e])
  {
    hide TakeResponse, TakeData, TakeEnd, FailStreaming, FailBuffered, FailRequest, Fails, Opened;
    FailFails(s, ErrorReason, ResponseFailed);
    FailFails(s, AbortedReason, ResponseAborted);
    FailFails(s, CloseReason, ResponseClosed);
    match e {
      case Response(status, rules, streamed, mode, observed, adapter, rewrites) =>
        ResponseOpens(s, e);
        ResponseListens(s, e, Handle(s, e), events);
      case Data(chunk) => DataListens(s, chunk, events);
      case End(recovery, _) => EndListens(s, e, events);
      case ResponseClose(_) =>
        FailsListens(s, e, FailResponse(s, CloseReason, ResponseClosed), events);
      case RequestError =>
        RequestFails(s);
        FailsListens(s, e, Handle(s, e), events);
      case ResponseError => FailsListens(s, e, Handle(s, e), events);
      case ResponseAbort => FailsListens(s, e, Handle(s, e), events);
      case TransformError => FailsListens(s, e, Handle(s, e), events);
      case _ =>
    }
    ResponseSnoc(events, e);
    EndsSnoc(events, e);
  }

  // ---- over whole runs --------------------------------------------------------------------------------------

  predicate Known(s: Scene, events: seq<Event>, early: seq<Event>) {
    Carries(s, events, early) && Tracks(s, events) && Listens(s, events) && Whole(s, events) && Answered(s)
  }

  /** A failure is not handled without a head. */
  predicate Answered(s: Scene) {
    s.at.upstreamFailureHandled ==> s.client.heads > 0
  }

  lemma FinishAnswers(s: Scene)
    requires Answered(s)
    ensures Answered(FinishClient(s))
  {
  }

  lemma FailAnswers(s: Scene, reason: Reason, why: Why)
    requires Answered(s)
    ensures Answered(FailStreaming(s, reason, why)) && Answered(FailBuffered(s, reason, why))
  {
    hide FinishClient;
    FinishAnswers(Told(Terminate(s, reason), why, true));
    FinishAnswers(Told(Terminate(s, reason), why, false));
  }

  lemma RequestAnswers(s: Scene)
    requires Answered(s)
    ensures Answered(FailRequest(s))
  {
    hide FinishClient, FailStreaming, FailBuffered, TellEnd;
    FailAnswers(s, ErrorReason, ResponseFailed);
    FinishAnswers(RequestFalls(s));
  }

  lemma DecideAnswers(s: Scene)
    requires Answered(s)
    ensures Answered(Commit(s)) && Answered(Decide(s))
  {
    hide FinishClient, Judge, Concat;
    FinishAnswers(s.(at := s.at.(terminal := Some(ErrorReason), turnedDown := true,
                                 sink := TellSink(s.at.sink, SinkError))));
  }

  lemma DataAnswers(s: Scene, chunk: seq<Byte>)
    requires Answered(s)
    ensures Answered(TakeData(s, chunk))
  {
    hide Decide, TellSink;
    DecideAnswers(Hold(s, chunk));
  }

  lemma EndAnswered(s: Scene, recovery: Recovery)
    requires Answered(s)
    ensures Answered(TakeEnd(s, recovery))
  {
    hide FinishClient, Wants, TellSink, TellEnd;
    var t := s.(at := s.at.(over := true, terminal := Some(EndReason)));
    FinishAnswers(t.(at := t.at.(sink := TellSink(t.at.sink, SinkEnd))));
  }

  lemma HandleAnswers(s: Scene, e: Event)
    requires Answered(s)
    ensures Answered(Handle(s, e))
  {
    hide TakeData, TakeEnd, FailStreaming, FailBuffered, FailRequest, Commit;
    match e
    case Response(status, rules, streamed, mode, observed, adapter, rewrites) =>
      DecideAnswers(OpenStream(s, status, streamed, mode, observed, adapter, rewrites));
    case Data(chunk) => DataAnswers(s, chunk);
    case End(recovery, _) => EndAnswered(s, recovery);
    case ResponseError => FailAnswers(s, ErrorReason, ResponseFailed);
    case ResponseAbort => FailAnswers(s, AbortedReason, ResponseAborted);
    case ResponseClose(_) => FailAnswers(s, CloseReason, ResponseClosed);
    case RequestError => RequestAnswers(s);
    case TransformError => FailAnswers(s, ErrorReason, ResponseFailed);
    case _ =>
  }

  /** A committed response that was ended was ended behind the upstream and all transforms, and whole. */
  predicate Whole(s: Scene, events: seq<Event>) {
    s.at.flow.committed && s.client.ended ==>
      && s.at.over && s.at.flow.flushing == 0 && EndsOf(events) >= s.at.shape.transforms
      && s.client.body == if s.at.shape.transforms == 0 then DataOf(events) else OutputOf(events)
  }

  /** Only the upstream's end, or the last transform's, ends a committed response. */
  predicate EndsBy(s: Scene, e: Event, t: Scene) {
    t.at.flow.committed && t.client.ended && !s.client.ended ==>
      && s.at.flow.committed && !Over(s.client)
      && ((e.End? && s.at.shape.transforms == 0) || (e.TransformEnd? && s.at.flow.flushing == 1))
  }

  lemma FinishEndsBy(s: Scene, e: Event)
    requires s.at.flow.committed ==> s.client.heads > 0
    ensures EndsBy(s, e, FinishClient(s))
  {
  }

  lemma FailEndsBy(s: Scene, e: Event, reason: Reason, why: Why)
    requires s.at.flow.committed ==> s.client.heads > 0
    ensures EndsBy(s, e, FailStreaming(s, reason, why)) && EndsBy(s, e, FailBuffered(s, reason, why))
  {
    hide FinishClient;
    FinishEndsBy(Told(Terminate(s, reason), why, true), e);
    FinishEndsBy(Told(Terminate(s, reason), why, false), e);
  }

  lemma RequestEndsBy(s: Scene, e: Event)
    requires s.at.flow.committed ==> s.client.heads > 0
    ensures EndsBy(s, e, FailRequest(s))
  {
    hide FinishClient, FailStreaming, FailBuffered, TellEnd;
    FailEndsBy(s, e, ErrorReason, ResponseFailed);
    FinishEndsBy(RequestFalls(s), e);
  }

  lemma CommitEndsBy(s: Scene, e: Event)
    requires !s.at.flow.committed && !s.client.ended
    ensures EndsBy(s, e, Commit(s)) && EndsBy(s, e, TurnDown(s))
  {
  }

  lemma DataEndsBy(s: Scene, e: Event)
    requires SceneOk(s) && SettleOk(s) && Enabled(s.at, e) && e.Data?
    ensures EndsBy(s, e, TakeData(s, e.chunk))
  {
    hide Commit, TurnDown, Judge;
    if s.at.stage == Streaming && !s.at.flow.committed && s.at.terminal.None? {
      CommitEndsBy(Hold(s, e.chunk), e);
    }
  }

  lemma EndEndsBy(s: Scene, e: Event)
    requires SceneOk(s) && Enabled(s.at, e) && e.End?
    ensures EndsBy(s, e, TakeEnd(s, e.recovery))
  {
    hide Wants, TellSink, TellEnd;
  }

  lemma HandleEndsBy(s: Scene, e: Event)
    requires SceneOk(s) && SettleOk(s) && Enabled(s.at, e)
    ensures EndsBy(s, e, Handle(s, e))
  {
    hide TakeResponse, TakeData, TakeEnd, FailStreaming, FailBuffered, FailRequest, Opened;
    match e
    case Response(status, rules, streamed, mode, observed, adapter, rewrites) =>
      ResponseOpens(s, e);
      OpenedEndsBy(s, e, Handle(s, e));
    case Data(chunk) => DataEndsBy(s, e);
    case End(recovery, _) => EndEndsBy(s, e);
    case ResponseError => FailEndsBy(s, e, ErrorReason, ResponseFailed);
    case ResponseAbort => FailEndsBy(s, e, AbortedReason, ResponseAborted);
    case ResponseClose(_) => FailEndsBy(s, e, CloseReason, ResponseClosed);
    case RequestError => RequestEndsBy(s, e);
    case TransformError => FailEndsBy(s, e, ErrorReason, ResponseFailed);
    case _ =>
  }

  lemma OpenedEndsBy(s: Scene, e: Event, t: Scene)
    requires Opened(s, e, t)
    ensures EndsBy(s, e, t)
  {
  }

  lemma EndsByWhole(s: Scene, e: Event, t: Scene, events: seq<Event>, early: seq<Event>)
    requires Carries(s, events, early) && Listens(s, events) && Whole(s, events) && Enabled(s.at, e)
    requires EndsBy(s, e, t) && Moves(s, e, t) && (t.at.over <==> s.at.over || e.End?)
    requires e.TransformEnd? ==> s.at.over
    requires Carries(t, events + [e], if Over(s.client) then early else events + [e]) && Listens(t, events + [e])
    ensures Whole(t, events + [e])
  {
    hide ResponseOf;
    OneMore(events, e);
    EndsSnoc(events, e);
  }

  lemma OverOrNot(s: Scene, e: Event)
    requires SceneOk(s) && Enabled(s.at, e)
    ensures Handle(s, e).at.over <==> s.at.over || e.End?
  {
    if e.Response? {
      CommitKeepsOver(OpenStream(s, e.status, e.streamed, e.mode, e.observed, e.adapter, e.rewrites));
    } else {
      HandleKeepsShape(s, e);
    }
  }

  lemma CommitKeepsOver(s: Scene)
    ensures Commit(s).at.over == s.at.over
  {
  }

  lemma HandleKnown(s: Scene, e: Event, events: seq<Event>, early: seq<Event>)
    requires SceneOk(s) && SettleOk(s) && Enabled(s.at, e) && Known(s, events, early)
    ensures Known(Handle(s, e), events + [e], if Over(s.client) then early else events + [e])
  {
    hide Handle, Carries, Tracks, Listens, Moves, KeepsShape, StaysOver, SceneOk, SettleOk, Opened, Whole, EndsBy,
      Answered;
    HandleMoves(s, e);
    HandleStaysOver(s, e);
    MovesCarries(s, e, Handle(s, e), events, early);
    HandleListens(s, e, events);
    if e.Response? {
      ResponseOpens(s, e);
      ResponseTracks(s, e, Handle(s, e), events);
    } else {
      HandleKeepsShape(s, e);
      ShapeTracks(s, e, Handle(s, e), events);
    }
    HandleAnswers(s, e);
    HandleEndsBy(s, e);
    OverOrNot(s, e);
    EndsByWhole(s, e, Handle(s, e), events, early);
  }

  lemma FrozenKnown(s: Scene, e: Event, events: seq<Event>, early: seq<Event>)
    requires Frozen(s.at) && Enabled(s.at, e) && Known(s, events, early)
    ensures Known(Handle(s, e), events + [e], if Over(s.client) then early else events + [e])
  {
    hide Handle, Carries, Tracks;
    FrozenStays(s, e);
    FrozenCarries(s, e, Handle(s, e), events, early);
    HandleStaysOver(s, e);
    HandleKeepsShape(s, e);
    ShapeTracks(s, e, Handle(s, e), events);
    EndsSnoc(events, e);
    HandleAnswers(s, e);
  }

  lemma {:induction false} NothingYet(inputs: seq<Input>, a: nat)
    requires a >= |Run(inputs).attempts|
    ensures EventsOf(inputs, a) == EarlyEvents(inputs, a) == []
  {
    hide Step;
    if inputs != [] {
      var before := inputs[..|inputs| - 1];
      AttemptsOnlyGrow(Run(before), inputs[|inputs| - 1]);
      NothingYet(before, a);
    }
  }

  lemma AttemptsOnlyGrow(w: World, i: Input)
    ensures |w.attempts| <= |Step(w, i).attempts|
  {
    hide Handle, ClientCloses, Enabled, Wants;
  }

  function LastOf(w: World): nat
    requires w.attempts != []
  {
    |w.attempts| - 1
  }

  lemma {:induction false} RunKnown(inputs: seq<Input>)
    ensures Run(inputs).attempts != []
    ensures var a := LastOf(Run(inputs)); Known(Last(Run(inputs)), EventsOf(inputs, a), EarlyEvents(inputs, a))
  {
    hide Step, NewEvent, Known;
    if inputs == [] {
      BeginsEmpty();
    } else {
      var before, i := inputs[..|inputs| - 1], inputs[|inputs| - 1];
      assert before + [i] == inputs;
      RunOk(before);
      RunSettles(before);
      RunKnown(before);
      RunSnoc(before, i);
      RunOk(inputs);
      StepKnown(before, i);
    }
  }

  lemma BeginsEmpty()
    ensures Known(Last(Initial()), [], [])
  {
  }

  /** At most the client's going has been noted. */
  predicate Left(at: Attempt, after: Attempt) {
    && after.flow == at.flow && after.shape == at.shape && after.stage == at.stage && after.sink == at.sink
    && after.requestTimedOut == at.requestTimedOut && after.over == at.over
    && after.upstreamFailureHandled == at.upstreamFailureHandled
    && (after.terminal == at.terminal || after.terminal == Some(ClientGone))
  }

  /** A step that is no event of the last attempt leaves its bytes alone. */
  predicate Aside(w: World, next: World)
    requires w.attempts != [] && next.attempts != []
  {
    && |next.attempts| == |w.attempts|
    && Left(Last(w).at, Last(next).at)
    && (Last(w).at.flow.committed ==> next.client.body == w.client.body && next.client.ended == w.client.ended)
    && (w.client.heads > 0 ==> next.client.heads > 0)
    && (Over(w.client) || Last(next).at.terminal != Last(w).at.terminal ==> Over(next.client))
  }

  lemma AsideKnown(w: World, next: World, events: seq<Event>, early: seq<Event>)
    requires w.attempts != [] && next.attempts != [] && Aside(w, next) && Known(Last(w), events, early)
    ensures Known(Last(next), events, if Over(w.client) then early else events)
  {
  }

  lemma OthersAside(w: World, b: nat, e: Event)
    requires Settling(w) && w.attempts != [] && !(b == LastOf(w) && Enabled(Last(w).at, e))
    ensures Step(w, Upstream(b, e)).attempts != [] && Aside(w, Step(w, Upstream(b, e)))
  {
    if b < |w.attempts| && Enabled(w.attempts[b], e) {
      FrozenStays(SceneOf(w, b), e);
    }
  }

  lemma CloseAside(w: World)
    requires Settling(w) && w.attempts != []
    ensures Step(w, ClientClose).attempts != [] && Aside(w, Step(w, ClientClose))
  {
    hide SceneOk, SettleOk;
  }

  lemma GateAside(w: World, i: Input)
    requires Settling(w) && w.attempts != [] && !i.Upstream? && !i.ClientClose?
    requires |Step(w, i).attempts| == |w.attempts|
    ensures Step(w, i).attempts != [] && Aside(w, Step(w, i))
  {
    hide SceneOk, SettleOk;
  }

  /** A new attempt starts on a response without a byte. */
  lemma AgainKnown(w: World, i: Input)
    requires Settling(w) && |Step(w, i).attempts| > |w.attempts|
    ensures Known(Last(Step(w, i)), [], [])
    ensures LastOf(Step(w, i)) == |w.attempts| && NewEvent(w, i, |w.attempts|) == []
  {
    hide Handle, SceneOk, SettleOk, ClientCloses;
  }

  lemma LastKnown(w: World, e: Event, events: seq<Event>, early: seq<Event>)
    requires Settling(w) && w.attempts != [] && Enabled(Last(w).at, e) && Known(Last(w), events, early)
    ensures Known(Handle(Last(w), e), events + [e], if Over(w.client) then early else events + [e])
  {
    hide Handle, Known, SceneOk, SettleOk, Enabled;
    if Handed(w) {
      HandedIsFrozen(w);
      FrozenKnown(Last(w), e, events, early);
    } else {
      HandleKnown(Last(w), e, events, early);
    }
  }

  lemma HandedIsFrozen(w: World)
    requires WorldOk(w) && Handed(w)
    ensures |w.attempts| == 1 && Frozen(Last(w).at)
  {
  }

  lemma LastAfter(w: World, e: Event)
    requires w.attempts != [] && Enabled(Last(w).at, e)
    requires |Step(w, Upstream(LastOf(w), e)).attempts| == |w.attempts|
    ensures Last(Step(w, Upstream(LastOf(w), e))) == Handle(Last(w), e)
    ensures NewEvent(w, Upstream(LastOf(w), e), LastOf(w)) == [e]
  {
    hide Handle, Enabled, Wants;
  }

  lemma StepKnown(inputs: seq<Input>, i: Input)
    requires Settling(Run(inputs)) && Run(inputs).attempts != [] && Run(inputs + [i]) == Step(Run(inputs), i)
    requires var a := LastOf(Run(inputs)); Known(Last(Run(inputs)), EventsOf(inputs, a), EarlyEvents(inputs, a))
    ensures Run(inputs + [i]).attempts != []
    ensures var all := inputs + [i];
            Known(Last(Run(all)), EventsOf(all, LastOf(Run(all))), EarlyEvents(all, LastOf(Run(all))))
  {
    hide Step, Run, Settling, Known, Enabled, EventsOf, EarlyEvents, Aside, Last;
    var w := Run(inputs);
    var a := LastOf(w);
    RunSnoc(inputs, i);
    AttemptsOnlyGrow(w, i);
    if |Step(w, i).attempts| > |w.attempts| {
      NothingYet(inputs, |w.attempts|);
      AgainKnown(w, i);
    } else if i.Upstream? && i.attempt == a && Enabled(w.attempts[a], i.event) {
      LastIs(w);
      LastAfter(w, i.event);
      LastKnown(w, i.event, EventsOf(inputs, a), EarlyEvents(inputs, a));
    } else {
      LastIs(w);
      match i {
        case Upstream(b, e) => OthersAside(w, b, e);
        case ClientClose => CloseAside(w);
        case _ => GateAside(w, i);
      }
      SameLast(w, i);
      assert NewEvent(w, i, a) == [] && EventsOf(inputs + [i], a) == EventsOf(inputs, a);
      AsideKnown(w, Step(w, i), EventsOf(inputs, a), EarlyEvents(inputs, a));
    }
  }

  lemma LastIs(w: World)
    requires w.attempts != []
    ensures Last(w).at == w.attempts[LastOf(w)] && Last(w).client == w.client
  {
  }

  lemma SameLast(w: World, i: Input)
    requires w.attempts != [] && Step(w, i).attempts != [] && Aside(w, Step(w, i))
    ensures LastOf(Step(w, i)) == LastOf(w)
  {
  }

  /** The client's body over every run, once the response is committed: the chunks of the upstream's
      body, or behind a transform those that the last one puts out, that came before the response was
      over, all of them and in order; before, nothing has come out of any transform. */
  lemma BodyIsUpstream(inputs: seq<Input>)
    ensures Run(inputs).attempts != []
    ensures var w := Run(inputs);
            var a := LastOf(w);
            var early := EarlyEvents(inputs, a);
            && Last(w).at.flow.received == DataOf(EventsOf(inputs, a))
            && (!Over(w.client) ==> early == EventsOf(inputs, a))
            && (Last(w).at.flow.committed ==>
                  w.client.body == if Last(w).at.shape.transforms == 0 then DataOf(early) else OutputOf(early))
            && (!Last(w).at.flow.committed ==> OutputOf(EventsOf(inputs, a)) == [])
  {
    hide Run, EventsOf, EarlyEvents;
    RunKnown(inputs);
  }

  // ---- what each event does ----------------------------------------------------------------------------------

  /** What can be seen from outside: the client's response, what the lifecycle observer was told, and
      what the response observer heard. */
  datatype Seen = Seen(client: Client, told: seq<Note>, heard: seq<SinkNote>)

  function SeenIn(s: Scene): Seen {
    Seen(s.client, s.guard.told, s.at.sink.told)
  }

  function SeenOf(inputs: seq<Input>): Seen
    requires Run(inputs).attempts != []
  {
    SeenIn(Last(Run(inputs)))
  }

  /** The last attempt after a run, and the run with one more event of it. */
  function AttemptOf(inputs: seq<Input>): Attempt
    requires Run(inputs).attempts != []
  {
    Last(Run(inputs)).at
  }

  function Then(inputs: seq<Input>, e: Event): seq<Input>
    requires Run(inputs).attempts != []
  {
    inputs + [Upstream(LastOf(Run(inputs)), e)]
  }

  /** The response observer hears only what it is open to. */
  function Hears(inputs: seq<Input>, notes: seq<SinkNote>): seq<SinkNote>
    requires Run(inputs).attempts != []
  {
    HearsIn(Last(Run(inputs)), notes)
  }

  function HearsIn(s: Scene, notes: seq<SinkNote>): seq<SinkNote> {
    s.at.sink.told + if s.at.sink.open then notes else []
  }

  /** The answer to a failure: a head and an end without a byte, or, behind a head, a torn connection. */
  function Failed(c: Client): Client {
    if c.heads == 0 then Client(1, [[]], true, c.destroyed, c.late) else c.(destroyed := true)
  }

  /** An attempt that nothing has decided yet has a client that is still there, with a head exactly if
      the response is committed, and observers that have heard of no end. */
  predicate Undecided(s: Scene) {
    && s.client == Client(if s.at.flow.committed then 1 else 0, s.client.body, false, false, 0)
    && (!s.at.flow.committed ==> s.client.body == [] && s.at.flow.delivered == []
                                 && s.at.flow.pending == s.at.flow.received)
    && s.guard == Guard(true, false, [Began])
    && s.at.stage != Unread && !s.at.clientAborted && !s.at.proxyDestroyedClient && !s.at.upstreamFailureHandled
    && (s.at.flow.committed ==> s.at.stage == Streaming && s.at.flow.pending == [])
    && (s.at.stage == Streaming ==> !s.at.over) && s.finishes == 0
  }

  lemma NotedOnce(g: Guard)
    requires GuardOk(g) && g.started && !g.settled
    ensures g == Guard(true, false, [Began])
  {
    assert g.told == [g.told[0]];
  }

  lemma StillUndecided(s: Scene)
    requires SceneOk(s) && SettleOk(s) && s.at.terminal.None? && (s.at.stage == Unread ==> Over(s.client))
    ensures Undecided(s)
  {
    NotedOnce(s.guard);
  }

  /** What a run's last attempt satisfies. */
  lemma Facts(inputs: seq<Input>)
    ensures Run(inputs).attempts != [] && Settling(Run(inputs))
    ensures var w := Run(inputs);
            var a := LastOf(w);
            && Known(Last(w), EventsOf(inputs, a), EarlyEvents(inputs, a))
            && (Handed(w) ==> Frozen(Last(w).at))
            && (!Handed(w) ==> SceneOk(Last(w)) && SettleOk(Last(w)))
            && (Last(w).at.canRetry <==> |w.attempts| == 1)
            && (Last(w).at.terminal.None? ==> Undecided(Last(w)) && w.asking == NotAsked)
  {
    hide Run, Known, SettleOk;
    RunSettles(inputs);
    RunKnown(inputs);
    var w := Run(inputs);
    if !Handed(w) && Last(w).at.terminal.None? {
      UnreadIsOver(Last(w), EventsOf(inputs, LastOf(w)), EarlyEvents(inputs, LastOf(w)));
      StillUndecided(Last(w));
    }
  }

  lemma UnreadIsOver(s: Scene, events: seq<Event>, early: seq<Event>)
    requires Known(s, events, early)
    ensures s.at.stage == Unread ==> Over(s.client)
  {
  }

  /** The world after one more event of the last attempt. */
  lemma OneEvent(inputs: seq<Input>, e: Event)
    requires Run(inputs).attempts != [] && Enabled(AttemptOf(inputs), e)
    requires !(e.End? && Wants(Last(Run(inputs)), e.recovery))
    ensures var w, next := Run(inputs), Run(Then(inputs, e));
            && |next.attempts| == |w.attempts| && Last(next) == Handle(Last(w), e)
            && next.asking == w.asking && next.closing == w.closing
  {
    hide Run, Handle, Wants, Enabled;
    RunSnoc(inputs, Upstream(LastOf(Run(inputs)), e));
  }

  /** Which events can still come, by those that have: one response, data until the end, a transform's
      chunks until it has ended, the request's own error and timeout at any time. */
  lemma WhatCanCome(inputs: seq<Input>, e: Event)
    ensures Run(inputs).attempts != []
    ensures var at, events := AttemptOf(inputs), EventsOf(inputs, LastOf(Run(inputs)));
            var reading := at.stage == Buffering || at.stage == Streaming;
            var ended := exists f <- events :: f.End?;
            && (e.Response? ==> (Enabled(at, e) <==> ResponseOf(events).None?))
            && (e.Data? || e.End? ==> (Enabled(at, e) <==> reading && !ended))
            && (e.ResponseError? || e.ResponseAbort? || e.ResponseClose? ==> (Enabled(at, e) <==> reading))
            && (e.RequestError? || e.Timeout? ==> Enabled(at, e))
            && (e.TransformEnd? ==> (Enabled(at, e) <==> at.flow.committed && ended))
            && (e.TransformError? ==> (Enabled(at, e) <==> at.flow.committed && at.shape.transforms > 0))
            && (e.TransformOutput? && !Over(Run(inputs).client) ==>
                  (Enabled(at, e) <==> at.flow.committed && EndsOf(events) < at.shape.transforms))
  {
    hide Run;
    RunKnown(inputs);
  }

  /** A response that comes too late is not read; a 400 or 422 under the recovery rules waits for its
      end, as does a gated success for the gate; a success whose adapter cannot be built is turned down;
      any other gets its head at once. */
  lemma ResponseSays(inputs: seq<Input>, r: Event)
    requires Run(inputs).attempts != [] && r.Response? && Enabled(AttemptOf(inputs), r)
    ensures Run(Then(inputs, r)).attempts != []
    ensures var before, after, at := SeenOf(inputs), SeenOf(Then(inputs, r)), AttemptOf(Then(inputs, r));
            var success := 200 <= r.status <= 299;
            if Over(before.client) then at.stage == Unread && after == before
            else if r.rules && (r.status == 400 || r.status == 422) then
              at.stage == Buffering && at.shape.status == r.status && at.sink.open == r.observed && after == before
            else
              && at.stage == Streaming && ShapedLike(at.shape, r)
              && (at.flow.committed <==> !(r.streamed && success) && !(success && r.adapter == BrokenAdapter))
              && after == if r.streamed && success then before
                          else if success && r.adapter == BrokenAdapter then
                            Seen(Failed(before.client), before.told, if r.observed then [SinkError] else [])
                          else before.(client := before.client.(heads := 1))
  {
    hide Run;
    Facts(inputs);
    OneEvent(inputs, r);
    AnswerResponse(Last(Run(inputs)), r);
  }

  lemma AnswerResponse(s: Scene, r: Event)
    requires r.Response? && s.at.stage == Awaiting && s.at.sink == Sink(false, [])
    requires SceneOk(s) && SettleOk(s)
    ensures var t := Handle(s, r);
            var success := 200 <= r.status <= 299;
            if Over(s.client) then t.at.stage == Unread && SeenIn(t) == SeenIn(s)
            else if r.rules && (r.status == 400 || r.status == 422) then
              t.at.stage == Buffering && t.at.shape.status == r.status && t.at.sink.open == r.observed
              && SeenIn(t) == SeenIn(s)
            else
              && t.at.stage == Streaming && ShapedLike(t.at.shape, r)
              && (t.at.flow.committed <==> !(r.streamed && success) && !(success && r.adapter == BrokenAdapter))
              && SeenIn(t) == if r.streamed && success then SeenIn(s)
                              else if success && r.adapter == BrokenAdapter then
                                Seen(Failed(s.client), s.guard.told, if r.observed then [SinkError] else [])
                              else SeenIn(s).(client := s.client.(heads := 1))
  {
    hide Commit, OpenStream;
    OpenedLike(s, r);
    if !Over(s.client) {
      StillUndecided(s);
      CommitSeen(OpenStream(s, r.status, r.streamed, r.mode, r.observed, r.adapter, r.rewrites));
    }
  }

  lemma CommitSeen(s: Scene)
    requires Undecided(s) && s.at.terminal.None? && !s.at.flow.committed && s.at.flow.pending == []
    requires s.at.shape.adapter == BrokenAdapter ==> Success(s.at.shape.status)
    ensures var t := Commit(s);
            && (t.at.flow.committed <==> s.at.shape.adapter != BrokenAdapter)
            && t.at.stage == s.at.stage && t.at.shape == s.at.shape
            && SeenIn(t) == if s.at.shape.adapter == BrokenAdapter then
                              Seen(Failed(s.client), s.guard.told, HearsIn(s, [SinkError]))
                            else SeenIn(s).(client := s.client.(heads := 1))
  {
  }

  /** A chunk: of an attempt decided before, or buffered, nothing is seen; of a committed response the
      observer hears it, and the client gets it unless a transform is in between; of a gated one the
      verdict on all chunks so far decides. */
  lemma DataSays(inputs: seq<Input>, chunk: seq<Byte>)
    requires Run(inputs).attempts != [] && Enabled(AttemptOf(inputs), Data(chunk))
    ensures Run(Then(inputs, Data(chunk))).attempts != []
    ensures var at, before, after := AttemptOf(inputs), SeenOf(inputs), SeenOf(Then(inputs, Data(chunk)));
            var chunks := DataOf(EventsOf(inputs, LastOf(Run(inputs)))) + [chunk];
            var client, verdict := before.client, OnChunks(at.shape.mode, chunks);
            after == if at.terminal.Some? || at.stage == Buffering then before
                     else if at.flow.committed then
                       Seen(client.(body := client.body + if at.shape.transforms == 0 then [chunk] else []),
                            before.told, Hears(inputs, [SinkData(chunk)]))
                     else if verdict == Waiting then
                       Seen(client, before.told, Hears(inputs, [SinkData(chunk)]))
                     else if verdict == Committed && at.shape.adapter != BrokenAdapter then
                       Seen(Client(1, if at.shape.transforms == 0 then chunks else [], false, false, 0), before.told,
                            Hears(inputs, [SinkData(chunk)]))
                     else Seen(Failed(client), before.told, Hears(inputs, [SinkData(chunk), SinkError]))
  {
    hide Run, OnChunks;
    Facts(inputs);
    OneEvent(inputs, Data(chunk));
    RunFollowsGate(inputs);
    var s := Last(Run(inputs));
    if s.at.terminal.Some? || s.at.stage == Buffering {
      DataIgnored(s, chunk);
    } else if s.at.flow.committed {
      DataPassed(s, chunk);
    } else {
      DataHeld(s, chunk);
    }
  }

  lemma DataIgnored(s: Scene, chunk: seq<Byte>)
    requires Enabled(s.at, Data(chunk)) && (s.at.terminal.Some? || s.at.stage == Buffering)
    requires Frozen(s.at) || (SceneOk(s) && SettleOk(s))
    ensures SeenIn(Handle(s, Data(chunk))) == SeenIn(s)
  {
  }

  lemma DataPassed(s: Scene, chunk: seq<Byte>)
    requires Undecided(s) && s.at.terminal.None? && s.at.flow.committed
    ensures SeenIn(Handle(s, Data(chunk)))
         == Seen(s.client.(body := s.client.body + if s.at.shape.transforms == 0 then [chunk] else []), s.guard.told,
                 HearsIn(s, [SinkData(chunk)]))
  {
  }

  lemma DataHeld(s: Scene, chunk: seq<Byte>)
    requires Undecided(s) && SceneOk(s) && SettleOk(s) && FollowsGate(s.at)
    requires s.at.terminal.None? && s.at.stage == Streaming && !s.at.flow.committed
    ensures var chunks := s.at.flow.received + [chunk];
            var verdict := OnChunks(s.at.shape.mode, chunks);
            SeenIn(Handle(s, Data(chunk)))
            == if verdict == Waiting then Seen(s.client, s.guard.told, HearsIn(s, [SinkData(chunk)]))
            else if verdict == Committed && s.at.shape.adapter != BrokenAdapter then
              Seen(Client(1, if s.at.shape.transforms == 0 then chunks else [], false, false, 0), s.guard.told,
                   HearsIn(s, [SinkData(chunk)]))
            else Seen(Failed(s.client), s.guard.told, HearsIn(s, [SinkData(chunk), SinkError]))
  {
    hide Judge, Concat, OnChunks;
    VerdictSoFar(s.at, chunk);
    DecideSeen(Hold(s, chunk));
    assert HearsIn(s, [SinkData(chunk)]) + [SinkError] == s.at.sink.told + ([SinkData(chunk)] + [SinkError])
           || !s.at.sink.open;
  }

  /** The gate is asked about all chunks so far. */
  lemma VerdictSoFar(at: Attempt, chunk: seq<Byte>)
    requires FollowsGate(at) && at.terminal.None? && at.stage == Streaming && !at.flow.committed && !at.turnedDown
    requires at.flow.pending == at.flow.received
    ensures at.shape.gated
    ensures OnChunks(at.shape.mode, at.flow.received + [chunk])
         == Judge(at.shape.mode, Concat(at.flow.received + [chunk]))
    ensures at.shape.adapter == BrokenAdapter ==> Success(at.shape.status)
  {
    hide Judge;
    var chunks := at.flow.received + [chunk];
    assert chunks[..|chunks| - 1] == at.flow.received;
  }

  lemma DecideSeen(s: Scene)
    requires !Over(s.client) && s.client.heads == 0 && s.client.body == [] && s.client.late == 0
    requires !s.at.clientAborted && !s.at.proxyDestroyedClient && !s.at.upstreamFailureHandled
    requires !s.at.flow.committed && s.at.flow.delivered == []
    requires s.at.shape.adapter == BrokenAdapter ==> Success(s.at.shape.status)
    ensures var verdict := Judge(s.at.shape.mode, Concat(s.at.flow.pending));
            SeenIn(Decide(s))
            == if verdict == Waiting then SeenIn(s)
            else if verdict == Committed && s.at.shape.adapter != BrokenAdapter then
              SeenIn(s).(client := Client(1, if s.at.shape.transforms == 0 then s.at.flow.pending else [],
                                          false, false, 0))
            else Seen(Failed(s.client), s.guard.told, HearsIn(s, [SinkError]))
  {
    hide Judge, Concat;
  }

  /** The end: of an attempt decided before nothing is seen. A buffered error is retried, at once or when
      the gate lets it, if the rules strip something and this is the first attempt; otherwise it is passed
      on, or, if unrecoverable, answered without a body. A stream that was never committed is answered
      like a failure; a committed one ends for the client now or when its transforms have. */
  lemma EndSays(inputs: seq<Input>, recovery: Recovery, asksFirst: bool)
    requires Run(inputs).attempts != [] && Enabled(AttemptOf(inputs), End(recovery, asksFirst))
    ensures Run(Then(inputs, End(recovery, asksFirst))).attempts != []
    ensures var end := Then(inputs, End(recovery, asksFirst));
            var at, before, after, w, next := AttemptOf(inputs), SeenOf(inputs), SeenOf(end), Run(inputs), Run(end);
            var whole := Concat(DataOf(EventsOf(inputs, LastOf(w))));
            var finished := before.told + [Finished(at.shape.status)];
            if at.terminal.None? && at.stage == Buffering && recovery.strips && |w.attempts| == 1 then
              && next.client == before.client && next.guard == w.guard
              && if asksFirst then next.asking == Asked && |next.attempts| == 1
                 else next.asking == NotAsked && |next.attempts| == 2 && Last(next).at == NewAttempt(false)
            else
              && |next.attempts| == |w.attempts| && next.asking == w.asking
              && after == if at.terminal.Some? then before
                          else if at.stage == Buffering then
                            Seen(Client(1, [if recovery.unrecoverable then [] else whole], true, false, 0), finished,
                                 Hears(inputs, [SinkData(whole), SinkEnd]))
                          else
                            Seen(if !at.flow.committed then Failed(before.client)
                                 else before.client.(ended := at.shape.transforms == 0),
                                 finished, Hears(inputs, [SinkEnd]))
  {
    hide Run, Concat;
    Facts(inputs);
    var s, e := Last(Run(inputs)), End(recovery, asksFirst);
    if s.at.terminal.None? && s.at.stage == Buffering && recovery.strips && |Run(inputs).attempts| == 1 {
      RetrySeen(s, recovery);
      RetryEvent(inputs, recovery, asksFirst);
    } else {
      NotWanted(s, recovery);
      OneEvent(inputs, e);
      if s.at.terminal.Some? {
        EndIgnored(s, e);
      } else if s.at.stage == Buffering {
        EndPassed(s, e);
      } else {
        EndStreamed(s, e);
      }
    }
  }

  lemma NotWanted(s: Scene, recovery: Recovery)
    requires s.at.terminal.Some? || s.at.stage != Buffering || !recovery.strips || !s.at.canRetry
    ensures !Wants(s, recovery)
  {
  }

  lemma RetrySeen(s: Scene, recovery: Recovery)
    requires Undecided(s) && s.at.terminal.None? && s.at.stage == Buffering && recovery.strips && s.at.canRetry
    ensures Wants(s, recovery)
    ensures TakeEnd(s, recovery).client == s.client && TakeEnd(s, recovery).guard == s.guard
  {
  }

  lemma RetryEvent(inputs: seq<Input>, recovery: Recovery, asksFirst: bool)
    requires Run(inputs).attempts != [] && Enabled(AttemptOf(inputs), End(recovery, asksFirst))
    requires Wants(Last(Run(inputs)), recovery)
    ensures var w, next := Run(inputs), Run(Then(inputs, End(recovery, asksFirst)));
            var t := Back(w, LastOf(w), TakeEnd(Last(w), recovery));
            next == if asksFirst then t.(asking := Asked) else Again(t)
  {
    hide Run, TakeEnd, Wants, Enabled, Again;
    RunSnoc(inputs, Upstream(LastOf(Run(inputs)), End(recovery, asksFirst)));
  }

  lemma EndIgnored(s: Scene, e: Event)
    requires e.End? && Enabled(s.at, e) && s.at.terminal.Some? && (Frozen(s.at) || (SceneOk(s) && SettleOk(s)))
    ensures SeenIn(Handle(s, e)) == SeenIn(s)
  {
  }

  lemma EndPassed(s: Scene, e: Event)
    requires e.End? && Undecided(s) && s.at.terminal.None? && s.at.stage == Buffering && !Wants(s, e.recovery)
    ensures var whole := Concat(s.at.flow.received);
            SeenIn(Handle(s, e))
            == Seen(Client(1, [if e.recovery.unrecoverable then [] else whole], true, false, 0),
                    s.guard.told + [Finished(s.at.shape.status)], HearsIn(s, [SinkData(whole), SinkEnd]))
  {
    hide Concat;
  }

  lemma EndStreamed(s: Scene, e: Event)
    requires e.End? && Undecided(s) && s.at.terminal.None? && s.at.stage == Streaming
    ensures SeenIn(Handle(s, e))
         == Seen(if !s.at.flow.committed then Failed(s.client)
                 else s.client.(ended := s.at.shape.transforms == 0),
                 s.guard.told + [Finished(s.at.shape.status)], HearsIn(s, [SinkEnd]))
  {
  }

  /** What the lifecycle observer is told of a failure. */
  function WhyOf(e: Event, reading: bool, timedOut: bool): Why {
    match e
    case ResponseAbort => ResponseAborted
    case ResponseClose(_) => ResponseClosed
    case RequestError => if reading then ResponseFailed else if timedOut then RequestTimedOut else RequestFailed
    case _ => ResponseFailed
  }

  predicate IsFailure(e: Event) {
    e.ResponseError? || e.ResponseAbort? || e == ResponseClose(false) || e.RequestError? || e.TransformError?
  }

  /** A failure before anything decided the attempt: the client gets the answer to a failure, the
      observer its reason, and the response observer of a stream an error. */
  lemma FailureSays(inputs: seq<Input>, e: Event)
    requires Run(inputs).attempts != [] && Enabled(AttemptOf(inputs), e) && IsFailure(e)
    requires AttemptOf(inputs).terminal.None?
    ensures Run(Then(inputs, e)).attempts != []
    ensures var at, before, after := AttemptOf(inputs), SeenOf(inputs), SeenOf(Then(inputs, e));
            var timedOut := Timeout in EventsOf(inputs, LastOf(Run(inputs)));
            after == Seen(Failed(before.client), [Began, Fell(WhyOf(e, at.stage != Awaiting, timedOut))],
                          if at.stage == Streaming then Hears(inputs, [SinkError]) else at.sink.told)
    ensures Run(Then(inputs, e)).finishes == 1 && AttemptOf(Then(inputs, e)).upstreamFailureHandled
  {
    hide Run;
    Facts(inputs);
    OneEvent(inputs, e);
    FailSeen(Last(Run(inputs)), e);
  }

  lemma FailSeen(s: Scene, e: Event)
    requires Undecided(s) && s.at.terminal.None? && Enabled(s.at, e) && IsFailure(e)
    ensures SeenIn(Handle(s, e))
         == Seen(Failed(s.client), [Began, Fell(WhyOf(e, s.at.stage != Awaiting, s.at.requestTimedOut))],
                 if s.at.stage == Streaming then HearsIn(s, [SinkError]) else s.at.sink.told)
    ensures Handle(s, e).finishes == 1 && Handle(s, e).at.upstreamFailureHandled
  {
  }

  /** Once the response is over, or the retry gate has its attempt, no event of the attempt is seen. */
  lemma DecidedIsQuiet(inputs: seq<Input>, e: Event)
    requires Run(inputs).attempts != [] && Enabled(AttemptOf(inputs), e)
    requires AttemptOf(inputs).terminal.Some? && (AttemptOf(inputs).flow.committed ==> Over(Run(inputs).client))
    ensures Run(Then(inputs, e)).attempts != []
    ensures SeenOf(Then(inputs, e)) == SeenOf(inputs)
    ensures |Run(Then(inputs, e)).attempts| == |Run(inputs).attempts|
            && Run(Then(inputs, e)).asking == Run(inputs).asking
  {
    hide Run, Handle;
    Facts(inputs);
    var s := Last(Run(inputs));
    if e.End? {
      NotWanted(s, e.recovery);
    }
    OneEvent(inputs, e);
    QuietSeen(s, e, EventsOf(inputs, LastOf(Run(inputs))));
  }

  lemma QuietSeen(s: Scene, e: Event, events: seq<Event>)
    requires Enabled(s.at, e) && s.at.terminal.Some? && (s.at.flow.committed ==> Over(s.client))
    requires Frozen(s.at) || (SceneOk(s) && SettleOk(s))
    requires Tracks(s, events) && Listens(s, events)
    ensures SeenIn(Handle(s, e)) == SeenIn(s)
  {
  }

  /** The timer's note and a response that closes complete are never seen. */
  lemma QuietEvents(inputs: seq<Input>, e: Event)
    requires Run(inputs).attempts != [] && Enabled(AttemptOf(inputs), e)
    requires e == Timeout || e == ResponseClose(true)
    ensures Run(Then(inputs, e)).attempts != []
    ensures SeenOf(Then(inputs, e)) == SeenOf(inputs)
  {
    hide Run;
    OneEvent(inputs, e);
  }

  /** While the transforms flush behind the end of the upstream: each chunk goes to the client, the last
      of them to end ends the response, an error of a transform or of the upstream tears it, and the
      observers, who have heard of the end, hear nothing more. */
  lemma FlushSays(inputs: seq<Input>, e: Event)
    requires Run(inputs).attempts != [] && Enabled(AttemptOf(inputs), e)
    requires AttemptOf(inputs).flow.committed && AttemptOf(inputs).terminal.Some? && !Over(Run(inputs).client)
    ensures Run(Then(inputs, e)).attempts != []
    ensures var before, after, at := SeenOf(inputs), SeenOf(Then(inputs, e)), AttemptOf(inputs);
            var client := before.client;
            && at.terminal == Some(EndReason) && at.shape.transforms > 0
            && after == before.(client :=
                 if e.TransformOutput? then client.(body := client.body + [e.chunk])
                 else if e.TransformEnd? then
                   client.(ended := EndsOf(EventsOf(inputs, LastOf(Run(inputs)))) + 1 == at.shape.transforms)
                 else if e.TransformError? || e.ResponseError? || e.ResponseAbort? then client.(destroyed := true)
                 else client)
  {
    hide Run;
    Facts(inputs);
    FlushSeen(Last(Run(inputs)), e, EventsOf(inputs, LastOf(Run(inputs))));
    OneEvent(inputs, e);
  }

  lemma FlushSeen(s: Scene, e: Event, events: seq<Event>)
    requires SceneOk(s) && SettleOk(s) && Tracks(s, events) && Listens(s, events) && Enabled(s.at, e)
    requires s.at.flow.committed && s.at.terminal.Some? && !Over(s.client)
    ensures s.at.terminal == Some(EndReason) && s.at.over && s.at.shape.transforms > 0
    ensures SeenIn(Handle(s, e)) == SeenIn(s).(client :=
              if e.TransformOutput? then s.client.(body := s.client.body + [e.chunk])
              else if e.TransformEnd? then s.client.(ended := EndsOf(events) + 1 == s.at.shape.transforms)
              else if e.TransformError? || e.ResponseError? || e.ResponseAbort? then s.client.(destroyed := true)
              else s.client)
  {
  }

  /** A transform's chunk before the upstream's end goes to the client, too. */
  lemma OutputSays(inputs: seq<Input>, chunk: seq<Byte>)
    requires Run(inputs).attempts != [] && Enabled(AttemptOf(inputs), TransformOutput(chunk))
    requires AttemptOf(inputs).terminal.None?
    ensures Run(Then(inputs, TransformOutput(chunk))).attempts != []
    ensures var before := SeenOf(inputs);
            SeenOf(Then(inputs, TransformOutput(chunk)))
            == before.(client := before.client.(body := before.client.body + [chunk]))
  {
    hide Run;
    Facts(inputs);
    OneEvent(inputs, TransformOutput(chunk));
  }

  /** Whatever came in, the attempt stands where its events put it: what the response said is kept, a
      timeout is noted, and a committed response that was ended has everything in it that the upstream,
      or the last transform, gave, and was ended behind the upstream's end and every transform's. */
  lemma NothingIsMissing(inputs: seq<Input>)
    ensures Run(inputs).attempts != []
    ensures var w, events := Run(inputs), EventsOf(inputs, LastOf(Run(inputs)));
            && Tracks(Last(w), events)
            && (Last(w).at.flow.committed && w.client.ended ==>
                  && (exists e <- events :: e.End?) && EndsOf(events) >= Last(w).at.shape.transforms
                  && w.client.body == if Last(w).at.shape.transforms == 0 then DataOf(events) else OutputOf(events))
  {
    hide Run, EventsOf, EarlyEvents, EndsOf, ResponseOf, DataOf, OutputOf;
    RunKnown(inputs);
  }

  /** An attempt that was retried is heard of no more. */
  lemma EarlierIsQuiet(inputs: seq<Input>, b: nat, e: Event)
    requires b + 1 < |Run(inputs).attempts|
    ensures var w, next := Run(inputs), Run(inputs + [Upstream(b, e)]);
            && next.client == w.client && next.guard == w.guard && |next.attempts| == |w.attempts|
            && Last(next) == Last(w) && next.asking == w.asking
  {
    hide Run, Handle, Enabled;
    RunSnoc(inputs, Upstream(b, e));
    RunOk(inputs);
    var w := Run(inputs);
    if Enabled(w.attempts[b], e) {
      FrozenStays(SceneOf(w, b), e);
      if e.End? {
        FrozenWantsNot(SceneOf(w, b), e);
      }
    }
  }

  lemma FrozenWantsNot(s: Scene, e: Event)
    requires Frozen(s.at) && e.End?
    ensures !Wants(s, e.recovery)
  {
  }

  /** The client's connection closes: the lifecycle observer hears of an abort exactly if it has heard of
      no end and the response was not ended; a later close is nothing new. */
  lemma ClientCloseSays(inputs: seq<Input>)
    ensures Run(inputs).attempts != []
    ensures var w, next := Run(inputs), Run(inputs + [ClientClose]);
            && |next.attempts| == |w.attempts| && next.asking == w.asking
            && if w.closing != StillOpen then next == w
               else
                 && next.client == w.client.(destroyed := true) && next.closing != StillOpen
                 && next.guard.told == w.guard.told + (if !w.guard.settled && !w.client.ended then [Fell(ClientAborted)]
                                                       else [])
                 && Last(next).at.sink == Last(w).at.sink
                 && (Last(w).at.terminal.None? ==> Last(next).at.terminal == Some(ClientGone))
  {
    hide Run;
    Facts(inputs);
    RunSnoc(inputs, ClientClose);
    var w := Run(inputs);
    if w.closing == StillOpen {
      if Handed(w) {
        CloseHanded(w);
      } else {
        RunFollowsGate(inputs);
        CloseSeen(w);
      }
    }
  }

  lemma CloseSeen(w: World)
    requires Settling(w) && !Handed(w) && w.closing == StillOpen
    requires w.attempts != [] && FollowsGate(Last(w).at) && Answered(Last(w))
    ensures var next := Close(w);
            && |next.attempts| == |w.attempts| && next.asking == w.asking
            && next.client == w.client.(destroyed := true) && next.closing != StillOpen
            && next.guard.told == w.guard.told + (if !w.guard.settled && !w.client.ended then [Fell(ClientAborted)]
                                                  else [])
            && Last(next).at.sink == Last(w).at.sink
            && (Last(w).at.terminal.None? ==> Last(next).at.terminal == Some(ClientGone))
  {
  }

  /** The retry gate's answer, if it was asked: the second attempt, unless the client has gone; the
      answer to a failure, likewise; or a handler that takes the response over. */
  lemma GateSays(inputs: seq<Input>, i: Input)
    requires i.GateProceeds? || i.GateThrows? || i.GateHandles?
    ensures Run(inputs).attempts != []
    ensures var w, next := Run(inputs), Run(inputs + [i]);
            && next.closing == w.closing
            && if w.asking != Asked then next == w
               else if i.GateHandles? then next == w.(asking := Handling)
               else
                 && next.asking == NotAsked
                 && |next.attempts| == (if i.GateProceeds? && !w.client.destroyed then 2 else 1)
                 && (|next.attempts| == 2 ==> Last(next).at == NewAttempt(false))
                 && next.client == (if i.GateThrows? && !w.client.destroyed then Failed(w.client) else w.client)
                 && next.guard.told == if i.GateThrows? && !w.client.destroyed then [Began, Fell(RetryFailed)]
                                       else w.guard.told
  {
    hide Run;
    Facts(inputs);
    RunSnoc(inputs, i);
    if Run(inputs).asking == Asked && !i.GateHandles? {
      GateSeen(Run(inputs), i);
    }
  }

  lemma GateSeen(w: World, i: Input)
    requires Settling(w) && (i.GateProceeds? || i.GateThrows?)
    requires w.asking == Asked
    ensures var next := Step(w, i);
            && next.asking == NotAsked && next.closing == w.closing
            && |next.attempts| == (if i.GateProceeds? && !w.client.destroyed then 2 else 1)
            && (|next.attempts| == 2 ==> Last(next).at == NewAttempt(false))
            && next.client == (if i.GateThrows? && !w.client.destroyed then Failed(w.client) else w.client)
            && next.guard.told == if i.GateThrows? && !w.client.destroyed then [Began, Fell(RetryFailed)]
                                  else w.guard.told
  {
    if !w.guard.settled {
      NotedOnce(w.guard);
    }
  }

  /** The local handler's calls on a response that is not over: Node sends the head with the first of
      them that needs one; a handler that has settled ends the response, or tears it if it threw behind a
      head, and the observer hears that the retry was rejected, if it has heard of no end. */
  lemma HandlerSays(inputs: seq<Input>, call: LocalCall)
    ensures Run(inputs).attempts != []
    ensures var w, next := Run(inputs), Run(inputs + [Local(call)]);
            var c := w.client;
            && next.attempts == w.attempts && next.closing == w.closing
            && if w.asking != Handling then next == w
               else
                 && next.asking == (if call.Resolves? || call.Throws? then Refused else Handling)
                 && next.guard.told == w.guard.told + (if (call.Resolves? || call.Throws?) && !w.guard.settled
                                                       then [Fell(RetryRejected)] else [])
                 && (Over(c) ==> next.client.body == c.body && (c.destroyed ==> next.client.destroyed))
                 && (!Over(c) ==>
                       next.client ==
                         if call.Throws? || (call.Resolves? && c.heads == 0) then Failed(c)
                         else c.(heads := 1, ended := call.Ends? || call.Resolves?,
                                 body := c.body + if call.Writes? || call.Ends? then [call.chunk] else []))
  {
    hide Run, Serve;
    RunSettles(inputs);
    RunSnoc(inputs, Local(call));
    ServeSeen(Run(inputs), call);
    if !Run(inputs).guard.settled {
      NotedOnce(Run(inputs).guard);
    }
  }

  lemma ServeSeen(w: World, call: LocalCall)
    requires Settling(w)
    ensures var c, next := w.client, Serve(w.client, call);
            && (Handed(w) && Over(c) ==> next.body == c.body && (c.destroyed ==> next.destroyed))
            && (Handed(w) && !Over(c) ==>
                  next == if call.Throws? || (call.Resolves? && c.heads == 0) then Failed(c)
                          else c.(heads := 1, ended := call.Ends? || call.Resolves?,
                                  body := c.body + if call.Writes? || call.Ends? then [call.chunk] else []))
  {
  }
}
