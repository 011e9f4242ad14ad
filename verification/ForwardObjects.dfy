/** The closures of `forward` as objects that update their variables in place. One request shares its
    client response and lifecycle guard among its calls of `forward`, each with its own stream gate;
    whatever the order of events, the objects go through the run of the event system of Forward.dfy. */
module ForwardObjects {
  import opened Protocol
  import opened Bytes
  import opened StreamGates
  import opened Forwards

  /** `clientRes`, shared by the attempts; `finishes` counts failure endings. */
  class ClientResponse {
    var heads: nat
    var body: seq<seq<Byte>>
    var ended: bool
    var destroyed: bool
    ghost var late: nat
    ghost var finishes: nat

    ghost function Now(): Client
      reads this
    {
      Client(heads, body, ended, destroyed, late)
    }

    constructor ()
      ensures Now() == Client(0, [], false, false, 0) && finishes == 0
    {
      heads, body, ended, destroyed, late, finishes := 0, [], false, false, 0, 0;
    }

    method Head()
      modifies this
      ensures Now() == WriteHead(old(Now())) && finishes == old(finishes)
    {
      late := Tally(Now());
      heads := heads + 1;
    }

    method End(chunk: seq<Byte>)
      modifies this
      ensures Now() == EndWith(old(Now()), chunk) && finishes == old(finishes)
    {
      late := Tally(Now());
      if !ended && !destroyed {
        body := body + [chunk];
      }
      ended := true;
    }

    method EndEmpty()
      modifies this
      ensures Now() == EndBare(old(Now())) && finishes == old(finishes)
    {
      late := Tally(Now());
      ended := true;
    }

    method Tear()
      modifies this
      ensures Now() == Destroy(old(Now())) && finishes == old(finishes)
    {
      late := Tally(Now());
      destroyed := true;
    }

    /** The socket is gone. */
    method Gone()
      modifies this
      ensures Now() == old(Now()).(destroyed := true) && finishes == old(finishes)
    {
      destroyed := true;
    }

    method Pipe(chunks: seq<seq<Byte>>)
      modifies this
      ensures Now() == PipeWrite(old(Now()), chunks) && finishes == old(finishes)
    {
      if !ended && !destroyed {
        body := body + chunks;
      }
    }

    /** What a local handler does, and the defensive finish behind it. */
    method Local(call: LocalCall)
      modifies this
      ensures Now() == Serve(old(Now()), call) && finishes == old(finishes)
    {
      match call {
        case WritesHead =>
          if heads == 0 {
            Head();
          }
        case Writes(chunk) =>
          if heads == 0 {
            Head();
          }
          Pipe([chunk]);
        case Ends(chunk) =>
          if heads == 0 {
            Head();
          }
          End(chunk);
        case Resolves =>
          if !ended {
            if heads == 0 {
              Head();
              End([]);
            } else {
              EndEmpty();
            }
          }
        case Throws =>
          if heads == 0 {
            Head();
            End([]);
          } else {
            Tear();
          }
      }
    }

    method PipeEnds()
      modifies this
      ensures Now() == PipeEnd(old(Now())) && finishes == old(finishes)
    {
      if !ended && !destroyed {
        ended := true;
      }
    }
  }

  /** The object `guardForwardLifecycleObserver` returns. */
  class LifecycleGuard {
    var started: bool
    var settled: bool
    var told: seq<Note>

    ghost function Now(): Guard
      reads this
    {
      Guard(started, settled, told)
    }

    constructor ()
      ensures Now() == Guard(false, false, [])
    {
      started, settled, told := false, false, [];
    }

    method OnStart()
      modifies this
      ensures Now() == TellStart(old(Now()))
    {
      if started || settled {
        return;
      }
      started, told := true, told + [Began];
    }

    /** `onComplete` and `onFailure` */
    method OnTerminal(n: Note)
      modifies this
      ensures Now() == TellEnd(old(Now()), n)
    {
      if !started || settled {
        return;
      }
      settled, told := true, told + [n];
    }
  }

  /** One call of `forward`. */
  class ForwardCall {
    const client: ClientResponse
    const guard: LifecycleGuard
    const canRetry: bool
    var stage: Stage
    var upstreamResponseTerminal: Option<Reason>
    var clientAborted: bool
    var proxyDestroyedClient: bool
    var upstreamFailureHandled: bool
    var requestTimedOut: bool
    var shape: Shape
    var pendingResponseTransforms: nat
    var streamGateCommitted: bool
    var pendingChunks: seq<seq<Byte>>
    var observerSink: Sink
    var gate: StreamGate
    var over: bool
    ghost var turnedDown: bool
    ghost var received: seq<seq<Byte>>
    ghost var delivered: seq<seq<Byte>>

    ghost function At(): Attempt
      reads this
    {
      Attempt(canRetry, stage, upstreamResponseTerminal,
              clientAborted, proxyDestroyedClient, upstreamFailureHandled, requestTimedOut,
              shape, Flow(streamGateCommitted, pendingResponseTransforms, pendingChunks, received, delivered),
              observerSink, over, turnedDown)
    }

    /** While the response is held back, the gate has seen the pending chunks and not decided. */
    ghost predicate Valid()
      reads this, gate
    {
      stage == Streaming && shape.gated && !streamGateCommitted && upstreamResponseTerminal.None? ==>
        gate.Valid() && gate.mode == shape.mode && gate.chunks == pendingChunks && gate.verdict == Waiting
    }

    ghost function Now(): Scene
      reads this, client, guard
    {
      Scene(client.Now(), guard.Now(), client.finishes, At())
    }

    constructor (client: ClientResponse, guard: LifecycleGuard, canRetry: bool)
      modifies guard
      ensures this.client == client && this.guard == guard && At() == NewAttempt(canRetry) && Valid() && fresh(gate)
      ensures guard.Now() == TellStart(old(guard.Now()))
    {
      this.client, this.guard, this.canRetry := client, guard, canRetry;
      stage, shape, upstreamResponseTerminal := Awaiting, Shape(0, false, NotSse, NoAdapter, 0), None;
      clientAborted, proxyDestroyedClient, upstreamFailureHandled, requestTimedOut := false, false, false, false;
      pendingResponseTransforms, streamGateCommitted, pendingChunks, observerSink := 0, false, [], Sink(false, []);
      over, turnedDown, received, delivered := false, false, [], [];
      gate := new StreamGate(NotSse);
      new;
      guard.OnStart();
    }

    method FinishClientAfterUpstreamFailure()
      modifies this, client
      ensures Now() == FinishClient(old(Now())) && gate == old(gate) && shape == old(shape)
    {
      if clientAborted || proxyDestroyedClient || upstreamFailureHandled || client.destroyed || client.ended {
        return;
      }
      upstreamFailureHandled, proxyDestroyedClient := true, true;
      if client.heads == 0 {
        client.Head();
        client.End([]);
      } else {
        client.Tear();
      }
      client.finishes := client.finishes + 1;
    }

    method RejectResponse()
      modifies this, client
      ensures Now() == TurnDown(old(Now())) && gate == old(gate) && shape == old(shape)
              && upstreamResponseTerminal.Some?
    {
      upstreamResponseTerminal, turnedDown := Some(ErrorReason), true;
      observerSink := TellSink(observerSink, SinkError);
      FinishClientAfterUpstreamFailure();
    }

    method CommitStreamResponse()
      modifies this, client
      ensures Now() == Commit(old(Now())) && gate == old(gate) && shape == old(shape)
      ensures !old(upstreamFailureHandled || clientAborted || client.destroyed) ==>
              streamGateCommitted || upstreamResponseTerminal.Some?
    {
      hide TurnDown, PipeWrite;
      if streamGateCommitted || upstreamFailureHandled || clientAborted || client.destroyed {
        return;
      }
      if shape.adapter == BrokenAdapter && Success(shape.status) {
        RejectResponse();
        return;
      }
      streamGateCommitted := true;
      client.Head();
      pendingResponseTransforms := shape.transforms;
      if shape.transforms == 0 {
        client.Pipe(pendingChunks);
      }
      delivered := delivered + pendingChunks;
      pendingChunks := [];
    }

    method StartStreaming(code: int, streamed: bool, declared: Mode, observed: bool, choice: Adapter, rewrites: bool)
      modifies `stage, `shape, `observerSink
      ensures Now() == OpenStream(old(Now()), code, streamed, declared, observed, choice, rewrites)
      ensures shape.mode == declared
    {
      var adapter := if Success(code) then choice else NoAdapter;
      var transforms := (if adapter == GoodAdapter then 1 else 0) + (if rewrites then 1 else 0);
      stage, shape, observerSink := Streaming, Shape(code, streamed && Success(code), declared, adapter, transforms),
          Sink(observed, []);
    }

    method NewGate(declared: Mode)
      requires shape.mode == declared && pendingChunks == []
      modifies `gate
      ensures Valid() && fresh(gate) && Now() == old(Now())
    {
      hide StreamGate.Valid;
      gate := new StreamGate(declared);
    }

    method StartBuffering(code: int, observed: bool)
      modifies `stage, `shape, `observerSink
      ensures At() == old(At()).(stage := Buffering, shape := old(shape).(status := code), sink := Sink(observed, []))
    {
      stage, shape, observerSink := Buffering, shape.(status := code), Sink(observed, []);
    }

    /** The streaming path; without a gate the response is committed at once. */
    method StreamResponse(code: int, streamed: bool, declared: Mode, observed: bool, choice: Adapter, rewrites: bool)
      requires pendingChunks == []
      modifies this, client
      ensures Valid() && fresh(gate)
      ensures var t := OpenStream(old(Now()), code, streamed, declared, observed, choice, rewrites);
              Now() == if t.at.shape.gated then t else Commit(t)
    {
      hide OpenStream, Commit;
      StartStreaming(code, streamed, declared, observed, choice, rewrites);
      NewGate(declared);
      if !shape.gated {
        CommitStreamResponse();
      }
    }

    method OnResponse(code: int, rules: bool, streamed: bool, declared: Mode, observed: bool, choice: Adapter,
        rewrites: bool)
      requires stage == Awaiting && pendingChunks == [] && Valid()
      modifies this, client
      ensures Valid() && (gate == old(gate) || fresh(gate))
      ensures Now() == TakeResponse(old(Now()), code, rules, streamed, declared, observed, choice, rewrites)
    {
      hide OpenStream, Commit;
      if clientAborted || upstreamFailureHandled || client.destroyed || upstreamResponseTerminal == Some(ClientGone) {
        stage := Unread;
      } else if rules && (code == 400 || code == 422) {
        StartBuffering(code, observed);
      } else {
        StreamResponse(code, streamed, declared, observed, choice, rewrites);
      }
    }

    /** The gate's look at the bytes that have come since the last. */
    method CheckGate(chunk: seq<Byte>)
      requires gate.Valid() && gate.mode == shape.mode && gate.verdict == Waiting
               && pendingChunks == gate.chunks + [chunk]
      requires !streamGateCommitted && !upstreamFailureHandled && !clientAborted && !client.destroyed
      modifies this, client, gate
      ensures Now() == Decide(old(Now())) && gate == old(gate) && Valid()
    {
      hide TurnDown, Judge, OnChunks, FinishClient;
      NextVerdict(shape.mode, gate.chunks, chunk);
      gate.OnData(chunk);
      if gate.verdict == Committed {
        CommitStreamResponse();
      } else if gate.verdict != Waiting {
        RejectResponse();
      }
    }

    /** A chunk of a committed response: the handler's observer, then the pipe. */
    method PassChunk(chunk: seq<Byte>)
      requires stage != Buffering && streamGateCommitted
      modifies this, client
      ensures Now() == TakeData(old(Now()), chunk) && gate == old(gate)
    {
      received := received + [chunk];
      if upstreamResponseTerminal.None? {
        observerSink := TellSink(observerSink, SinkData(chunk));
      }
      delivered := delivered + [chunk];
      if shape.transforms == 0 {
        client.Pipe([chunk]);
      }
    }

    /** The handler's own listener runs on a chunk before the pipe that it may just have set up. */
    method OnData(chunk: seq<Byte>)
      requires Valid() && (stage == Buffering || stage == Streaming) && Ready(Now())
      modifies this, client, gate
      ensures Now() == TakeData(old(Now()), chunk) && gate == old(gate) && Valid()
    {
      hide Decide;
      if stage == Buffering {
        received := received + [chunk];
        if upstreamResponseTerminal.None? {
          pendingChunks := pendingChunks + [chunk];
        }
      } else if streamGateCommitted {
        PassChunk(chunk);
      } else if upstreamResponseTerminal.Some? {
        received := received + [chunk];
      } else {
        HoldChunk(chunk);
        CheckGate(chunk);
      }
    }

    method HoldChunk(chunk: seq<Byte>)
      modifies this
      ensures Now() == Hold(old(Now()), chunk) && gate == old(gate)
    {
      observerSink := TellSink(observerSink, SinkData(chunk));
      received, pendingChunks := received + [chunk], pendingChunks + [chunk];
    }

    method PassBufferedResponse(unrecoverable: bool)
      modifies this, client, guard
      ensures Now() == PassBuffered(old(Now()), unrecoverable) && gate == old(gate)
    {
      var body := Concat(pendingChunks);
      observerSink := TellSink(TellSink(observerSink, SinkData(body)), SinkEnd);
      guard.OnTerminal(Forwards.Finished(shape.status));
      if unrecoverable || client.heads == 0 {
        client.Head();
      }
      client.End(if unrecoverable then [] else body);
    }

    /** The handler's `end` listener on a streamed response. */
    method FinishStream()
      modifies this, client, guard
      ensures Now() == EndStream(old(Now())) && gate == old(gate)
    {
      if clientAborted || client.destroyed || upstreamFailureHandled {
        return;
      }
      observerSink := TellSink(observerSink, SinkEnd);
      if !streamGateCommitted {
        FinishClientAfterUpstreamFailure();
      }
      guard.OnTerminal(Forwards.Finished(shape.status));
    }

    /** `end` of a streamed response: the handler's listener, then the pipe's. */
    method OnStreamEnd()
      requires stage != Buffering
      modifies this, client, guard
      ensures forall recovery :: Now() == TakeEnd(old(Now()), recovery)
      ensures gate == old(gate)
    {
      over := true;
      if upstreamResponseTerminal.None? {
        upstreamResponseTerminal := Some(EndReason);
        FinishStream();
      }
      if streamGateCommitted && shape.transforms == 0 {
        client.PipeEnds();
      }
    }

    /** `end` of a buffered response; the result says whether the caller goes on with the retry. */
    method OnBufferedEnd(recovery: Recovery) returns (retry: bool)
      requires stage == Buffering
      modifies this, client, guard
      ensures Now() == TakeEnd(old(Now()), recovery) && retry == Wants(old(Now()), recovery)
      ensures gate == old(gate)
    {
      over, retry := true, false;
      if upstreamResponseTerminal.Some? {
        return;
      }
      upstreamResponseTerminal := Some(EndReason);
      if clientAborted || client.destroyed || upstreamFailureHandled {
        return;
      }
      retry := recovery.strips && canRetry;
      if !retry {
        PassBufferedResponse(recovery.unrecoverable);
      }
    }

    method TellFailure(why: Why, sink: bool)
      modifies this, guard
      ensures Now() == Told(old(Now()), why, sink) && gate == old(gate)
    {
      guard.OnTerminal(Fell(why));
      if sink {
        observerSink := TellSink(observerSink, SinkError);
      }
    }

    method SetTerminal(reason: Reason)
      modifies this
      ensures Now() == Terminate(old(Now()), reason) && gate == old(gate)
    {
      if upstreamResponseTerminal.Some? {
        pendingResponseTransforms := 0;
      }
      upstreamResponseTerminal := Some(reason);
    }

    method FailStreamingResponse(reason: Reason, why: Why)
      modifies this, client, guard
      ensures Now() == FailStreaming(old(Now()), reason, why) && gate == old(gate)
    {
      var isPendingTransformFailure := upstreamResponseTerminal == Some(EndReason) && pendingResponseTransforms > 0;
      if upstreamResponseTerminal.Some? && !isPendingTransformFailure {
        return;
      }
      SetTerminal(reason);
      if !clientAborted && !client.destroyed {
        TellFailure(why, true);
        FinishClientAfterUpstreamFailure();
      }
    }

    method FailBufferedResponse(reason: Reason, why: Why)
      modifies this, client, guard
      ensures Now() == FailBuffered(old(Now()), reason, why) && gate == old(gate)
    {
      if upstreamResponseTerminal.Some? {
        return;
      }
      SetTerminal(reason);
      if !clientAborted && !client.destroyed {
        TellFailure(why, false);
        FinishClientAfterUpstreamFailure();
      }
    }

    method FailActiveResponse(reason: Reason, why: Why)
      modifies this, client, guard
      ensures Now() == FailResponse(old(Now()), reason, why) && gate == old(gate)
    {
      if stage == Buffering {
        FailBufferedResponse(reason, why);
      } else {
        FailStreamingResponse(reason, why);
      }
    }

    method OnRequestError()
      modifies this, client, guard
      ensures Now() == FailRequest(old(Now())) && gate == old(gate)
    {
      if clientAborted || upstreamFailureHandled || upstreamResponseTerminal == Some(EndReason) || client.destroyed
         || client.ended {
        return;
      }
      if (stage == Buffering || stage == Streaming) && upstreamResponseTerminal.None? {
        FailActiveResponse(ErrorReason, ResponseFailed);
        return;
      }
      guard.OnTerminal(Fell(if requestTimedOut then RequestTimedOut else RequestFailed));
      if upstreamResponseTerminal.None? {
        upstreamResponseTerminal := Some(ErrorReason);
      }
      FinishClientAfterUpstreamFailure();
    }

    method OnClientClose()
      modifies this, guard
      ensures Now() == ClientCloses(old(Now())) && gate == old(gate) && (old(Valid()) ==> Valid())
    {
      if proxyDestroyedClient || upstreamResponseTerminal == Some(EndReason) || client.ended {
        return;
      }
      clientAborted := true;
      if upstreamResponseTerminal.None? {
        upstreamResponseTerminal := Some(ClientGone);
      }
      guard.OnTerminal(Fell(ClientAborted));
    }

    method OnTransformEnd()
      modifies this, client
      ensures Now() == TransformEnds(old(Now())) && gate == old(gate)
    {
      if pendingResponseTransforms > 0 {
        pendingResponseTransforms := pendingResponseTransforms - 1;
        if pendingResponseTransforms == 0 {
          client.PipeEnds();
        }
      }
    }

    /** Whether Node can deliver the event now. */
    method CanTake(e: Event) returns (can: bool)
      ensures can == Enabled(At(), e)
    {
      var reading := stage == Buffering || stage == Streaming;
      match e {
        case Response(_, _, _, _, _, _, _) => can := stage == Awaiting;
        case Data(_) => can := reading && !over;
        case End(_, _) => can := reading && !over;
        case ResponseError => can := reading;
        case ResponseAbort => can := reading;
        case ResponseClose(_) => can := reading;
        case TransformOutput(_) => can := streamGateCommitted && shape.transforms > 0 && pendingResponseTransforms > 0;
        case TransformError => can := streamGateCommitted && shape.transforms > 0;
        case TransformEnd => can := streamGateCommitted && over;
        case _ => can := true;
      }
    }

    /** The listeners that neither open the response nor bring data. */
    method OnLateEvent(e: Event) returns (retry: bool)
      requires Valid() && Enabled(At(), e) && !e.Response? && !e.Data?
      modifies this, client, guard
      ensures Now() == Handle(old(Now()), e) && retry == (e.End? && Wants(old(Now()), e.recovery)) && gate == old(gate)
    {
      hide FailResponse, FailStreaming, FailRequest, TakeEnd, TransformEnds, Wants;
      retry := false;
      match e {
        case End(recovery, _) =>
          if stage == Buffering {
            retry := OnBufferedEnd(recovery);
          } else {
            OnStreamEnd();
            NoRetryFromStream(old(Now()), recovery);
          }
        case ResponseError => FailActiveResponse(ErrorReason, ResponseFailed);
        case ResponseAbort => FailActiveResponse(AbortedReason, ResponseAborted);
        case ResponseClose(complete) =>
          if upstreamResponseTerminal.None? && !complete {
            FailActiveResponse(CloseReason, ResponseClosed);
          }
        case RequestError => OnRequestError();
        case Timeout => requestTimedOut := true;
        case TransformOutput(chunk) => client.Pipe([chunk]);
        case TransformError => FailStreamingResponse(ErrorReason, ResponseFailed);
        case TransformEnd => OnTransformEnd();
        case _ =>
      }
    }

    /** Any event; the result says whether the buffered error is to be retried. */
    method On(e: Event) returns (retry: bool)
      requires Valid() && Enabled(At(), e) && Ready(Now())
      modifies this, client, guard, gate
      ensures Now() == Handle(old(Now()), e) && retry == (e.End? && Wants(old(Now()), e.recovery))
      ensures Valid() && (gate == old(gate) || fresh(gate))
    {
      hide TakeResponse, TakeData, Wants, Ready, Enabled, OnChunks;
      EnabledStage(At(), e);
      ReadyStage(Now());
      ghost var before := Now();
      if e.Response? {
        OnResponse(e.status, e.rules, e.streamed, e.mode, e.observed, e.adapter, e.rewrites);
        retry := false;
      } else if e.Data? {
        OnData(e.chunk);
        retry := false;
      } else {
        retry := OnLateEvent(e);
        LateStaysUndecided(before, e);
      }
    }
  }

  lemma NextVerdict(mode: Mode, chunks: seq<seq<Byte>>, chunk: seq<Byte>)
    requires OnChunks(mode, chunks) == Waiting
    ensures OnChunks(mode, chunks + [chunk]) == Judge(mode, Concat(chunks + [chunk]))
  {
    hide Judge, Concat;
    assert (chunks + [chunk])[..|chunks|] == chunks;
  }

  /** A response that is held back is still wanted. */
  predicate Ready(s: Scene) {
    && (s.at.stage == Streaming && !s.at.flow.committed && s.at.terminal.None? ==>
          s.at.shape.gated && !s.at.upstreamFailureHandled && !s.at.clientAborted && !s.client.destroyed)
    && (s.at.stage == Awaiting ==> s.at.flow.pending == [])
  }

  lemma ReadyStage(s: Scene)
    requires Ready(s)
    ensures s.at.stage == Awaiting ==> s.at.flow.pending == []
  {
  }

  lemma EnabledStage(at: Attempt, e: Event)
    requires Enabled(at, e)
    ensures e.Response? ==> at.stage == Awaiting
    ensures e.Data? ==> at.stage == Buffering || at.stage == Streaming
  {
  }

  lemma NoRetryFromStream(s: Scene, recovery: Recovery)
    requires s.at.stage != Buffering
    ensures !Wants(s, recovery)
  {
  }

  /** What is still undecided afterwards was so before. */
  lemma LateStaysUndecided(s: Scene, e: Event)
    requires !e.Response? && !e.Data?
    ensures var t := Handle(s, e);
            t.at.terminal.None? ==>
              s.at.terminal.None? && t.at.stage == s.at.stage && t.at.shape == s.at.shape
              && t.at.flow.committed == s.at.flow.committed && t.at.flow.pending == s.at.flow.pending
  {
    hide FailStreaming, FailBuffered, FailRequest, TakeEnd, OnChunks;
    match e
    case End(recovery, _) =>
      EndKeepsFlow(s, recovery);
      EndTerminates(s, recovery);
    case ResponseError => FailTerminates(s, ErrorReason, ResponseFailed);
    case ResponseAbort => FailTerminates(s, AbortedReason, ResponseAborted);
    case ResponseClose(_) => FailTerminates(s, CloseReason, ResponseClosed);
    case RequestError =>
      FailRequestKeepsFlow(s);
      FailRequestTerminates(s);
    case TransformError => FailTerminates(s, ErrorReason, ResponseFailed);
    case _ =>
  }

  lemma EndTerminates(s: Scene, recovery: Recovery)
    ensures TakeEnd(s, recovery).at.terminal.Some?
  {
  }

  lemma FailTerminates(s: Scene, reason: Reason, why: Why)
    ensures FailStreaming(s, reason, why).at.terminal.Some? && FailBuffered(s, reason, why).at.terminal.Some?
  {
  }

  lemma FailRequestTerminates(s: Scene)
    ensures FailRequest(s).at.terminal.None? ==> s.at.terminal.None? && SameFlow(s, FailRequest(s))
  {
    FailRequestKeepsFlow(s);
  }

  /** Every attempt of a run is ready for its events. */
  lemma SettlingReady(w: World)
    requires Settling(w) && FollowsGate(Last(w).at)
    ensures forall a | 0 <= a < |w.attempts| :: Ready(SceneOf(w, a))
    ensures w.asking == Asked ==> |w.attempts| == 1
  {
    forall a | 0 <= a < |w.attempts|
      ensures Ready(SceneOf(w, a))
    {
      if Handed(w) || a < |w.attempts| - 1 {
        FrozenReady(SceneOf(w, a));
      } else {
        SceneReady(SceneOf(w, a));
      }
    }
  }

  lemma RunReady(inputs: seq<Input>)
    ensures var w := Run(inputs);
            && WorldOk(w) && (w.asking == Asked ==> |w.attempts| == 1)
            && forall a | 0 <= a < |w.attempts| :: Ready(SceneOf(w, a))
  {
    hide Run, FollowsGate, SettleOk;
    RunSettles(inputs);
    RunFollowsGate(inputs);
    SettlingReady(Run(inputs));
  }

  lemma FrozenReady(s: Scene)
    requires Frozen(s.at)
    ensures Ready(s)
  {
  }

  lemma SceneReady(s: Scene)
    requires SceneOk(s) && SettleOk(s) && FollowsGate(s.at)
    ensures Ready(s)
  {
    hide OnChunks;
  }

  /** Only the first attempt, and it alone, asks for a retry. */
  lemma AsksAlone(w: World, a: nat, e: Event)
    requires WorldOk(w) && a < |w.attempts| && Enabled(w.attempts[a], e) && e.End? && Wants(SceneOf(w, a), e.recovery)
    ensures a == 0 && |w.attempts| == 1
  {
  }

  // ---- one request ------------------------------------------------------------------------------------------

  /** The request handler's share: one response and one guard for up to two calls of `forward`, and
      the retry gate between them. */
  class ForwardRequest {
    const clientRes: ClientResponse
    const lifecycle: LifecycleGuard
    const first: ForwardCall
    var retried: ForwardCall?
    var asking: Asking
    var closing: Closing
    ghost var inputs: seq<Input>

    ghost function Ats(): seq<Attempt>
      reads this`retried, first, retried
    {
      if retried == null then [first.At()] else [first.At(), retried.At()]
    }

    ghost function Now(): World
      reads this`retried, this`asking, this`closing, clientRes, lifecycle, first, retried
    {
      World(clientRes.Now(), lifecycle.Now(), clientRes.finishes, Ats(), asking, closing)
    }

    ghost function Repr(): set<object>
      reads this`retried, first, retried
    {
      if retried == null then {this, clientRes, lifecycle, first, first.gate}
      else
        var again: ForwardCall := retried;
        {this, clientRes, lifecycle, first, first.gate, again, again.gate}
    }

    /** The calls share the response and the guard and nothing else. */
    ghost predicate Linked()
      reads this`retried, first, retried, first.gate, if retried == null then {} else {retried.gate}
    {
      && first.client == clientRes && first.guard == lifecycle && first.Valid()
      && (retried != null ==>
            && retried != first && retried.gate != first.gate
            && retried.client == clientRes && retried.guard == lifecycle && retried.Valid())
    }

    /** And all objects together are where the run of the inputs so far is. */
    ghost predicate Valid()
      reads this, clientRes, lifecycle, first, retried, first.gate, if retried == null then {} else {retried.gate}
    {
      Linked() && Now() == Run(inputs)
    }

    constructor ()
      ensures Valid() && fresh(Repr()) && inputs == []
    {
      var response := new ClientResponse();
      var guard := new LifecycleGuard();
      clientRes, lifecycle := response, guard;
      first := new ForwardCall(response, guard, true);
      retried, asking, closing, inputs := null, NotAsked, StillOpen, [];
    }

    /** An event reaches the listeners of one call. */
    method Deliver(a: nat, e: Event) returns (retry: bool)
      requires Linked() && a < |Ats()| && Enabled(Ats()[a], e) && Ready(SceneOf(Now(), a))
      modifies Repr() - {this}
      ensures Linked() && fresh(Repr() - old(Repr()))
      ensures Now() == Back(old(Now()), a, Handle(SceneOf(old(Now()), a), e))
      ensures retry == (e.End? && Wants(SceneOf(old(Now()), a), e.recovery))
    {
      hide Handle, Ready, Enabled, Wants;
      if a == 0 {
        retry := first.On(e);
      } else {
        retry := retried.On(e);
      }
    }

    method CanTake(a: nat, e: Event) returns (can: bool)
      requires Linked()
      ensures can == (a < |Ats()| && Enabled(Ats()[a], e))
    {
      if a == 0 {
        can := first.CanTake(e);
      } else if a == 1 && retried != null {
        can := retried.CanTake(e);
      } else {
        can := false;
      }
    }

    /** `retry` */
    method Retry()
      requires Linked() && retried == null
      modifies this`retried, this`asking, lifecycle
      ensures Linked() && fresh(Repr() - old(Repr()))
      ensures Now() == Again(old(Now()))
    {
      retried := new ForwardCall(clientRes, lifecycle, false);
      asking := NotAsked;
    }

    /** The buffered error is to be retried, at once or if the gate lets it. */
    method OnRetryWished(asksFirst: bool)
      requires Linked() && retried == null
      modifies this`retried, this`asking, lifecycle
      ensures Linked() && fresh(Repr() - old(Repr()))
      ensures Now() == if asksFirst then old(Now()).(asking := Asked) else Again(old(Now()))
    {
      hide Again;
      if asksFirst {
        asking := Asked;
      } else {
        Retry();
      }
    }

    method OnUpstream(a: nat, e: Event)
      requires Linked() && a < |Ats()| ==> Ready(SceneOf(Now(), a))
      requires Linked() && WorldOk(Now())
      modifies Repr() - {this}, this`retried, this`asking
      ensures Linked() && fresh(Repr() - old(Repr()))
      ensures Now() == Step(old(Now()), Upstream(a, e))
    {
      hide Handle, Ready, Enabled, Wants, WorldOk, Linked, Again;
      var can := CanTake(a, e);
      if can {
        ghost var w := Now();
        var retry := Deliver(a, e);
        if retry {
          AsksAlone(w, a, e);
          OnRetryWished(e.asksFirst);
        }
      }
    }

    method SocketGone()
      requires Linked()
      modifies this`closing, clientRes
      ensures Linked() && Repr() == old(Repr())
      ensures Now() == old(Now()).(closing := if old(clientRes.ended) then ClosedAfterEnd else HungUp,
                                   client := old(clientRes.Now()).(destroyed := true))
    {
      closing := if clientRes.ended then ClosedAfterEnd else HungUp;
      clientRes.Gone();
    }

    method CallCloses(a: nat)
      requires Linked() && a < |Ats()|
      modifies first, retried, lifecycle
      ensures Linked() && Repr() == old(Repr()) && clientRes.ended == old(clientRes.ended)
      ensures Now() == Back(old(Now()), a, ClientCloses(SceneOf(old(Now()), a)))
    {
      hide ClientCloses, TellEnd;
      if a == 0 {
        first.OnClientClose();
      } else {
        retried.OnClientClose();
      }
    }

    method GateCloses()
      requires Linked()
      modifies lifecycle
      ensures Linked() && Repr() == old(Repr())
      ensures Now() == old(Now()).(guard := TellEnd(old(lifecycle.Now()), Fell(ClientAborted)))
    {
      hide TellEnd;
      lifecycle.OnTerminal(Fell(ClientAborted));
    }

    /** `close` of the client: the listeners of the calls and of the gate, in the order they were added. */
    method OnClose()
      requires Linked()
      modifies Repr() - {this}, this`closing
      ensures Linked() && Repr() == old(Repr())
      ensures Now() == Close(old(Now()))
    {
      hide ClientCloses, TellEnd, Linked;
      ghost var w := Now();
      SocketGone();
      CallCloses(0);
      if (asking == Asked || asking == Handling) && !clientRes.ended {
        GateCloses();
      }
      if retried != null {
        CallCloses(1);
      }
    }

    method OnClientClose()
      requires Linked()
      modifies Repr() - {this}, this`closing
      ensures Linked() && Repr() == old(Repr())
      ensures Now() == Step(old(Now()), ClientClose)
    {
      hide Close, Linked;
      if closing == StillOpen {
        OnClose();
      }
    }

    method OnGateThrown()
      requires Linked()
      modifies this`asking, clientRes, lifecycle
      ensures Linked() && Repr() == old(Repr())
      ensures Now() == FailGate(old(Now()))
    {
      lifecycle.OnTerminal(Fell(if clientRes.destroyed && !clientRes.ended then ClientAborted else RetryFailed));
      asking := NotAsked;
      if !clientRes.destroyed && clientRes.heads == 0 {
        clientRes.Head();
        clientRes.End([]);
      }
    }

    method OnLocal(call: LocalCall)
      requires Linked()
      modifies this`asking, clientRes, lifecycle
      ensures Linked() && Repr() == old(Repr())
      ensures Now() == ServeLocally(old(Now()), call)
    {
      hide Serve;
      clientRes.Local(call);
      if call.Resolves? || call.Throws? {
        asking := Refused;
        lifecycle.OnTerminal(Fell(RetryRejected));
      }
    }

    method OnProceed()
      requires Linked() && retried == null
      modifies this`retried, this`asking, lifecycle
      ensures Linked() && fresh(Repr() - old(Repr()))
      ensures Now() == (if old(clientRes.destroyed)
                        then old(Now()).(asking := NotAsked, guard := TellEnd(old(Now().guard), Fell(ClientAborted)))
                        else Again(old(Now())))
    {
      if clientRes.destroyed {
        asking := NotAsked;
        lifecycle.OnTerminal(Fell(ClientAborted));
      } else {
        Retry();
      }
    }

    /** The retry gate and its local handler. */
    method OnGate(i: Input)
      requires Linked() && !i.Upstream? && !i.ClientClose? && (asking == Asked ==> retried == null)
      modifies this`retried, this`asking, clientRes, lifecycle
      ensures Linked() && fresh(Repr() - old(Repr())) && Now() == Step(old(Now()), i)
    {
      hide FailGate, ServeLocally, Again, Linked;
      match i {
        case GateProceeds =>
          if asking == Asked {
            OnProceed();
          }
        case GateThrows =>
          if asking == Asked {
            OnGateThrown();
          }
        case GateHandles =>
          if asking == Asked {
            asking := Handling;
          }
        case Local(call) =>
          if asking == Handling {
            OnLocal(call);
          }
      }
    }

    /** One input of any kind. */
    method Receive(i: Input)
      requires Valid()
      modifies Repr()
      ensures Valid() && fresh(Repr() - old(Repr())) && inputs == old(inputs) + [i]
    {
      hide Run, WorldOk, Step, Linked, Ready, Close;
      RunReady(inputs);
      RunStep(inputs, i);
      match i {
        case Upstream(a, e) => OnUpstream(a, e);
        case ClientClose => OnClientClose();
        case _ => OnGate(i);
      }
      inputs := inputs + [i];
    }
  }

  lemma RunStep(inputs: seq<Input>, i: Input)
    ensures Run(inputs + [i]) == Step(Run(inputs), i)
  {
    hide Step;
    assert (inputs + [i])[..|inputs|] == inputs;
  }

  /** A whole request: the shared objects end where the event system ends, so all that was proved of
      its runs holds of them; the client's response got at most one head. */
  method ServeRequest(inputs: seq<Input>) returns (request: ForwardRequest)
    ensures fresh(request.Repr()) && request.Linked() && request.Now() == Run(inputs)
    ensures request.clientRes.heads <= 1 && request.clientRes.finishes <= 1
  {
    hide Run, ForwardRequest.Linked;
    request := new ForwardRequest();
    var n := 0;
    while n < |inputs|
      invariant n <= |inputs| && request.Valid() && fresh(request.Repr()) && request.inputs == inputs[..n]
    {
      request.Receive(inputs[n]);
      n := n + 1;
    }
    assert inputs[..n] == inputs;
    OneResponse(inputs);
  }
}
