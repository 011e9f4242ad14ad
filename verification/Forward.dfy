/** `forward` of server.ts as a system of event handlers: one client response, up to two upstream
    attempts, the retry gate between them with its local handler, and the guarded lifecycle observer. */
module Forwards {
  import opened Protocol
  import opened Bytes
  import opened StreamGates

  // ---- the client response --------------------------------------------------------------------------

  /** `clientRes`: how often `writeHead` was called, what was written, whether it was ended or
      destroyed; `late` counts `writeHead`, `end` and `destroy` calls on a response already over. */
  datatype Client = Client(heads: nat, body: seq<seq<Byte>>, ended: bool, destroyed: bool, late: nat)

  predicate Over(c: Client) {
    c.ended || c.destroyed
  }

  function Tally(c: Client): nat {
    c.late + if Over(c) then 1 else 0
  }

  function WriteHead(c: Client): Client {
    c.(heads := c.heads + 1, late := Tally(c))
  }

  function EndWith(c: Client, chunk: seq<Byte>): Client {
    c.(body := if Over(c) then c.body else c.body + [chunk], ended := true, late := Tally(c))
  }

  /** `end()` without a chunk. */
  function EndBare(c: Client): Client {
    c.(ended := true, late := Tally(c))
  }

  function Destroy(c: Client): Client {
    c.(destroyed := true, late := Tally(c))
  }

  /** What a pipe into the response does: nothing once it is over. */
  function PipeWrite(c: Client, chunks: seq<seq<Byte>>): Client {
    if Over(c) then c else c.(body := c.body + chunks)
  }

  function PipeEnd(c: Client): Client {
    if Over(c) then c else c.(ended := true)
  }

  // ---- observers --------------------------------------------------------------------------------------

  datatype Note = Began | Finished(status: int) | Fell(why: Why)

  datatype Why = ClientAborted | ResponseFailed | ResponseAborted | ResponseClosed | RequestFailed | RequestTimedOut
      | RetryRejected | RetryFailed

  /** `guardForwardLifecycleObserver` and what the observer behind it has been told. */
  datatype Guard = Guard(started: bool, settled: bool, told: seq<Note>)

  function TellStart(g: Guard): Guard {
    if g.started || g.settled then g else Guard(true, g.settled, g.told + [Began])
  }

  function TellEnd(g: Guard, n: Note): Guard {
    if !g.started || g.settled then g else Guard(g.started, true, g.told + [n])
  }

  datatype SinkNote = SinkData(chunk: seq<Byte>) | SinkEnd | SinkError

  /** `observerSink`: open until its first terminal call. */
  datatype Sink = Sink(open: bool, told: seq<SinkNote>)

  function TellSink(k: Sink, n: SinkNote): Sink {
    if !k.open then k else Sink(n.SinkData?, k.told + [n])
  }

  // ---- one attempt --------------------------------------------------------------------------------------

  datatype Reason = EndReason | ErrorReason | AbortedReason | CloseReason | ClientGone

  datatype Stage = Awaiting | Buffering | Streaming | Unread

  datatype Adapter = NoAdapter | GoodAdapter | BrokenAdapter

  /** The closure variables of one call of `forward`; of its history it keeps
      whether the upstream response has ended, whether it was turned down before a byte of it was
      committed, its data events, and the chunks written to the first transform or to the client. */
  datatype Attempt = Attempt(
    canRetry: bool, stage: Stage, terminal: Option<Reason>,
    clientAborted: bool, proxyDestroyedClient: bool, upstreamFailureHandled: bool, requestTimedOut: bool,
    shape: Shape, flow: Flow, sink: Sink, over: bool, turnedDown: bool)

  /** What the response said, whether the validity gate holds it back, and how many transforms its
      body goes through. */
  datatype Shape = Shape(status: int, gated: bool, mode: Mode, adapter: Adapter, transforms: nat)

  /** How its body moves; `flushing` counts the transforms that have not ended yet. */
  datatype Flow = Flow(committed: bool, flushing: nat, pending: seq<seq<Byte>>, received: seq<seq<Byte>>,
      delivered: seq<seq<Byte>>)

  function NewAttempt(canRetry: bool): Attempt {
    Attempt(canRetry, Awaiting, None, false, false, false, false,
            Shape(0, false, NotSse, NoAdapter, 0), Flow(false, 0, [], [], []), Sink(false, []), false, false)
  }

  /** What one attempt's handlers share: the client response, the guard, how often the client was
      finished after a failure, and the attempt itself. */
  datatype Scene = Scene(client: Client, guard: Guard, finishes: nat, at: Attempt)

  predicate Success(status: int) {
    200 <= status < 300
  }

  /** `finishClientAfterUpstreamFailure` */
  function FinishClient(s: Scene): Scene {
    if s.at.clientAborted || s.at.proxyDestroyedClient || s.at.upstreamFailureHandled || Over(s.client) then s
    else
      s.(client := if s.client.heads == 0 then EndWith(WriteHead(s.client), []) else Destroy(s.client),
         finishes := s.finishes + 1,
         at := s.at.(upstreamFailureHandled := true, proxyDestroyedClient := true))
  }

  /** A response the gate rejects or no adapter can be built for. */
  function TurnDown(s: Scene): Scene {
    FinishClient(s.(at := s.at.(terminal := Some(ErrorReason), turnedDown := true,
                                sink := TellSink(s.at.sink, SinkError))))
  }

  /** `commitStreamResponse` */
  function Commit(s: Scene): Scene {
    if s.at.flow.committed || s.at.upstreamFailureHandled || s.at.clientAborted || s.client.destroyed then s
    else if s.at.shape.adapter == BrokenAdapter && Success(s.at.shape.status) then
      TurnDown(s)
    else
      var head := WriteHead(s.client);
      s.(client := if s.at.shape.transforms == 0 then PipeWrite(head, s.at.flow.pending) else head,
         at := s.at.(flow := Flow(true, s.at.shape.transforms, [], s.at.flow.received,
                                  s.at.flow.delivered + s.at.flow.pending)))
  }

  /** The streaming path before anything is committed. */
  function OpenStream(s: Scene, status: int, streamed: bool, mode: Mode, observed: bool, adapter: Adapter,
      rewrites: bool): Scene
  {
    var adapted := if Success(status) then adapter else NoAdapter;
    s.(at := s.at.(stage := Streaming, sink := Sink(observed, []),
                   shape := Shape(status, streamed && Success(status), mode, adapted,
                   (if adapted == GoodAdapter then 1 else 0) + (if rewrites then 1 else 0))))
  }

  /** The `response` listener. */
  function TakeResponse(s: Scene, status: int, rules: bool, streamed: bool, mode: Mode, observed: bool,
      adapter: Adapter, rewrites: bool): Scene
  {
    if s.at.clientAborted || s.at.upstreamFailureHandled || s.client.destroyed || s.at.terminal == Some(ClientGone) then
      s.(at := s.at.(stage := Unread))
    else if rules && (status == 400 || status == 422) then
      s.(at := s.at.(stage := Buffering, shape := s.at.shape.(status := status), sink := Sink(observed, [])))
    else
      var t := OpenStream(s, status, streamed, mode, observed, adapter, rewrites);
      if t.at.shape.gated then t else Commit(t)
  }

  /** The `data` listeners: the handler's own, then the pipe's if the response was committed before. */
  function TakeData(s: Scene, chunk: seq<Byte>): Scene {
    var r := s.(at := s.at.(flow := s.at.flow.(received := s.at.flow.received + [chunk])));
    if s.at.stage == Buffering then
      (if s.at.terminal.Some? then r else r.(at := r.at.(flow := r.at.flow.(pending := r.at.flow.pending + [chunk]))))
    else if s.at.flow.committed then
      var kept := if s.at.terminal.Some? then r.at.sink else TellSink(r.at.sink, SinkData(chunk));
      r.(client := if s.at.shape.transforms == 0 then PipeWrite(r.client, [chunk]) else r.client,
         at := r.at.(flow := r.at.flow.(delivered := r.at.flow.delivered + [chunk]), sink := kept))
    else if s.at.terminal.Some? then r
    else Decide(Hold(s, chunk))
  }

  /** A chunk the gate holds back. */
  function Hold(s: Scene, chunk: seq<Byte>): Scene {
    s.(at := s.at.(flow := s.at.flow.(received := s.at.flow.received + [chunk], pending := s.at.flow.pending + [chunk]),
                   sink := TellSink(s.at.sink, SinkData(chunk))))
  }

  /** The gate's decision on the pending bytes. */
  function Decide(s: Scene): Scene {
    match Judge(s.at.shape.mode, Concat(s.at.flow.pending))
    case Waiting => s
    case Committed => Commit(s)
    case Rejected(_) => TurnDown(s)
  }

  /** What the recovery rules make of a buffered 400 or 422: whether one strips something for a retry,
      and whether one calls the error unrecoverable. */
  datatype Recovery = Recovery(strips: bool, unrecoverable: bool)

  function Wants(s: Scene, recovery: Recovery): bool {
    s.at.stage == Buffering && s.at.terminal.None? && !s.at.clientAborted && !s.client.destroyed
        && !s.at.upstreamFailureHandled
    && recovery.strips && s.at.canRetry
  }

  /** The `end` listener of a buffered response that is not retried. */
  function PassBuffered(s: Scene, unrecoverable: bool): Scene {
    var told := TellSink(TellSink(s.at.sink, SinkData(Concat(s.at.flow.pending))), SinkEnd);
    var head := if unrecoverable || s.client.heads == 0 then WriteHead(s.client) else s.client;
    s.(guard := TellEnd(s.guard, Finished(s.at.shape.status)), at := s.at.(sink := told),
       client := EndWith(head, if unrecoverable then [] else Concat(s.at.flow.pending)))
  }

  /** The `end` listener of a streamed response, then the pipe's. */
  function EndStream(s: Scene): Scene {
    if s.at.clientAborted || s.client.destroyed || s.at.upstreamFailureHandled then s
    else if !s.at.flow.committed then
      var f := FinishClient(s.(at := s.at.(sink := TellSink(s.at.sink, SinkEnd))));
      f.(guard := TellEnd(f.guard, Finished(f.at.shape.status)))
    else
      s.(guard := TellEnd(s.guard, Finished(s.at.shape.status)), at := s.at.(sink := TellSink(s.at.sink, SinkEnd)))
  }

  function TakeEnd(s0: Scene, recovery: Recovery): Scene {
    var s := s0.(at := s0.at.(over := true));
    if s.at.stage == Buffering then
      if s.at.terminal.Some? then s
      else
        var t := s.(at := s.at.(terminal := Some(EndReason)));
        if t.at.clientAborted || t.client.destroyed || t.at.upstreamFailureHandled || Wants(s, recovery) then t
        else PassBuffered(t, recovery.unrecoverable)
    else
      var t := if s.at.terminal.Some? then s else EndStream(s.(at := s.at.(terminal := Some(EndReason))));
      if t.at.flow.committed && t.at.shape.transforms == 0 then t.(client := PipeEnd(t.client)) else t
  }

  /** The observers hear of a failure. */
  function Told(s: Scene, why: Why, sink: bool): Scene {
    s.(guard := TellEnd(s.guard, Fell(why)), at := if sink then s.at.(sink := TellSink(s.at.sink, SinkError)) else s.at)
  }

  /** The new terminal reason; transforms that were still flushing no longer count. */
  function Terminate(s: Scene, reason: Reason): Scene {
    var flushing := if s.at.terminal.Some? then 0 else s.at.flow.flushing;
    s.(at := s.at.(terminal := Some(reason), flow := s.at.flow.(flushing := flushing)))
  }

  /** `failStreamingResponse` */
  function FailStreaming(s: Scene, reason: Reason, why: Why): Scene {
    var isPendingTransformFailure := s.at.terminal == Some(EndReason) && s.at.flow.flushing > 0;
    if s.at.terminal.Some? && !isPendingTransformFailure then s
    else
      var t := Terminate(s, reason);
      if t.at.clientAborted || t.client.destroyed then t else FinishClient(Told(t, why, true))
  }

  /** `failBufferedResponse` */
  function FailBuffered(s: Scene, reason: Reason, why: Why): Scene {
    if s.at.terminal.Some? then s
    else
      var t := Terminate(s, reason);
      if t.at.clientAborted || t.client.destroyed then t else FinishClient(Told(t, why, false))
  }

  function FailResponse(s: Scene, reason: Reason, why: Why): Scene {
    if s.at.stage == Buffering then FailBuffered(s, reason, why) else FailStreaming(s, reason, why)
  }

  /** The request's `error` listener. */
  function FailRequest(s: Scene): Scene {
    if s.at.clientAborted || s.at.upstreamFailureHandled || s.at.terminal == Some(EndReason) || Over(s.client) then s
    else if (s.at.stage == Buffering || s.at.stage == Streaming) && s.at.terminal.None? then
      FailResponse(s, ErrorReason, ResponseFailed)
    else
      FinishClient(s.(guard := TellEnd(s.guard, Fell(if s.at.requestTimedOut then RequestTimedOut else RequestFailed)),
                      at := if s.at.terminal.None? then s.at.(terminal := Some(ErrorReason)) else s.at))
  }

  /** The attempt's listener on the client's `close`. */
  function ClientCloses(s: Scene): Scene {
    if s.at.proxyDestroyedClient || s.at.terminal == Some(EndReason) || s.client.ended then s
    else
      s.(guard := TellEnd(s.guard, Fell(ClientAborted)),
         at := s.at.(clientAborted := true,
                     terminal := if s.at.terminal.None? then Some(ClientGone) else s.at.terminal))
  }

  /** A transform ends; the last one ends the client response through its pipe. */
  function TransformEnds(s: Scene): Scene {
    if s.at.flow.flushing == 0 then s
    else
      s.(at := s.at.(flow := s.at.flow.(flushing := s.at.flow.flushing - 1)),
         client := if s.at.flow.flushing == 1 then PipeEnd(s.client) else s.client)
  }

  // ---- the whole request --------------------------------------------------------------------------------

  /** The retry gate `beforeRetry`: not asked, asked and not yet answered, answered by a local handler
      that has not finished, or answered no. */
  datatype Asking = NotAsked | Asked | Handling | Refused

  /** The client's `close`: not yet, before the response was ended, or after it. */
  datatype Closing = StillOpen | HungUp | ClosedAfterEnd

  datatype World = World(client: Client, guard: Guard, finishes: nat, attempts: seq<Attempt>, asking: Asking,
      closing: Closing)

  function Initial(): World {
    World(Client(0, [], false, false, 0), TellStart(Guard(false, false, [])), 0, [NewAttempt(true)], NotAsked,
        StillOpen)
  }

  datatype Event =
    | Response(status: int, rules: bool, streamed: bool, mode: Mode, observed: bool, adapter: Adapter, rewrites: bool)
    | Data(chunk: seq<Byte>)
    | End(recovery: Recovery, asksFirst: bool)
    | ResponseError
    | ResponseAbort
    | ResponseClose(complete: bool)
    | RequestError
    | Timeout
    | TransformOutput(chunk: seq<Byte>)
    | TransformError
    | TransformEnd

  /** What the local handler does with the response it is given, and how its promise settles. */
  datatype LocalCall = WritesHead | Writes(chunk: seq<Byte>) | Ends(chunk: seq<Byte>) | Resolves | Throws

  datatype Input =
    | Upstream(attempt: nat, event: Event)
    | ClientClose
    | GateProceeds
    | GateThrows
    | GateHandles
    | Local(call: LocalCall)

  function SceneOf(w: World, a: nat): Scene
    requires a < |w.attempts|
  {
    Scene(w.client, w.guard, w.finishes, w.attempts[a])
  }

  function Back(w: World, a: nat, s: Scene): World
    requires a < |w.attempts|
  {
    w.(client := s.client, guard := s.guard, finishes := s.finishes, attempts := w.attempts[a := s.at])
  }

  /** Whether Node can deliver the event in this state of the attempt. */
  predicate Enabled(at: Attempt, e: Event) {
    match e
    case Response(_, _, _, _, _, _, _) => at.stage == Awaiting
    case Data(_) => (at.stage == Buffering || at.stage == Streaming) && !at.over
    case End(_, _) => (at.stage == Buffering || at.stage == Streaming) && !at.over
    case ResponseError => at.stage == Buffering || at.stage == Streaming
    case ResponseAbort => at.stage == Buffering || at.stage == Streaming
    case ResponseClose(_) => at.stage == Buffering || at.stage == Streaming
    case TransformOutput(_) => at.flow.committed && at.shape.transforms > 0 && at.flow.flushing > 0
    case TransformError => at.flow.committed && at.shape.transforms > 0
    case TransformEnd => at.flow.committed && at.over
    case _ => true
  }

  function Handle(s: Scene, e: Event): Scene {
    match e
    case Response(status, rules, streamed, mode, observed, adapter, rewrites) =>
      TakeResponse(s, status, rules, streamed, mode, observed, adapter, rewrites)
    case Data(chunk) => TakeData(s, chunk)
    case End(recovery, _) => TakeEnd(s, recovery)
    case ResponseError => FailResponse(s, ErrorReason, ResponseFailed)
    case ResponseAbort => FailResponse(s, AbortedReason, ResponseAborted)
    case ResponseClose(complete) =>
      if s.at.terminal.Some? || complete then s else FailResponse(s, CloseReason, ResponseClosed)
    case RequestError => FailRequest(s)
    case Timeout => s.(at := s.at.(requestTimedOut := true))
    case TransformOutput(chunk) => s.(client := PipeWrite(s.client, [chunk]))
    case TransformError => FailStreaming(s, ErrorReason, ResponseFailed)
    case TransformEnd => TransformEnds(s)
  }

  /** `retry`: one more call of `forward`, with `canRetry` off. */
  function Again(w: World): World {
    w.(attempts := w.attempts + [NewAttempt(false)], guard := TellStart(w.guard), asking := NotAsked)
  }

  /** Node sends the head with the first write or the end; a second `writeHead` throws. */
  function Headed(c: Client): Client {
    if c.heads == 0 then WriteHead(c) else c
  }

  /** A handler's call on the response, and what `runLocalHandler` does once it has settled. */
  function Serve(c: Client, call: LocalCall): Client {
    match call
    case WritesHead => Headed(c)
    case Writes(chunk) => PipeWrite(Headed(c), [chunk])
    case Ends(chunk) => EndWith(Headed(c), chunk)
    case Resolves => if c.ended then c else if c.heads == 0 then EndWith(WriteHead(c), []) else EndBare(c)
    case Throws => if c.heads == 0 then EndWith(WriteHead(c), []) else Destroy(c)
  }

  /** A handler that has settled means no retry. */
  function ServeLocally(w: World, call: LocalCall): World {
    var t := w.(client := Serve(w.client, call));
    if call.Resolves? || call.Throws? then t.(asking := Refused, guard := TellEnd(w.guard, Fell(RetryRejected))) else t
  }

  /** The client's `close` runs the listeners of the attempts and of the gate, in order. */
  function Close(w: World): World {
    var gone := w.(closing := if w.client.ended then ClosedAfterEnd else HungUp,
                   client := w.client.(destroyed := true));
    var first := if |w.attempts| > 0 then Back(gone, 0, ClientCloses(SceneOf(gone, 0))) else gone;
    var gate := if (w.asking == Asked || w.asking == Handling) && !w.client.ended
                then first.(guard := TellEnd(first.guard, Fell(ClientAborted))) else first;
    if |w.attempts| > 1 then Back(gate, 1, ClientCloses(SceneOf(gate, 1))) else gate
  }

  function FailGate(w: World): World {
    var why := if w.client.destroyed && !w.client.ended then ClientAborted else RetryFailed;
    var t := w.(asking := NotAsked, guard := TellEnd(w.guard, Fell(why)));
    if w.client.destroyed || w.client.heads > 0 then t else t.(client := EndWith(WriteHead(t.client), []))
  }

  function Step(w: World, i: Input): World {
    match i
    case Upstream(a, e) =>
      if a >= |w.attempts| || !Enabled(w.attempts[a], e) then w
      else
        var s := SceneOf(w, a);
        var next := Back(w, a, Handle(s, e));
        if e.End? && Wants(s, e.recovery) then (if e.asksFirst then next.(asking := Asked) else Again(next)) else next
    case ClientClose => if w.closing != StillOpen then w else Close(w)
    case GateProceeds =>
      if w.asking != Asked then w
      else if w.client.destroyed then w.(asking := NotAsked, guard := TellEnd(w.guard, Fell(ClientAborted)))
      else Again(w)
    case GateThrows => if w.asking != Asked then w else FailGate(w)
    case GateHandles => if w.asking != Asked then w else w.(asking := Handling)
    case Local(call) => if w.asking != Handling then w else ServeLocally(w, call)
  }

  function Run(inputs: seq<Input>): World {
    if inputs == [] then Initial() else Step(Run(inputs[..|inputs| - 1]), inputs[|inputs| - 1])
  }

  // ---- what every handler keeps -----------------------------------------------------------------------

  predicate GuardOk(g: Guard) {
    if !g.started then g.told == [] && !g.settled
    else |g.told| == (if g.settled then 2 else 1) && g.told[0] == Began && (g.settled ==> g.told[1] != Began)
  }

  predicate SinkOk(k: Sink) {
    forall i | 0 <= i < |k.told| :: k.told[i].SinkData? || (i == |k.told| - 1 && !k.open)
  }

  /** How the chunks have moved. */
  predicate FlowOk(at: Attempt, c: Client) {
    && (at.flow.committed ==> at.flow.pending == [] && at.flow.delivered == at.flow.received)
    && (!at.flow.committed ==> at.flow.delivered == [] && (at.terminal.None? ==> at.flow.pending == at.flow.received))
    && (at.flow.committed && at.shape.transforms == 0 ==>
          c.body <= at.flow.received && (c.ended ==> at.over) && (!c.destroyed ==> c.body == at.flow.received))
    && (at.stage == Awaiting || at.stage == Unread ==> at.flow.received == [] && at.flow.pending == [])
  }

  /** When and how the client's response is over. */
  predicate EndsOk(s: Scene) {
    && (s.at.upstreamFailureHandled == s.at.proxyDestroyedClient)
    && (s.at.upstreamFailureHandled ==> Over(s.client) && s.at.terminal.Some?)
    && (s.at.clientAborted ==> s.client.destroyed && s.at.terminal.Some?)
    && (s.finishes > 0 ==> Over(s.client))
    && (s.at.turnedDown ==> s.at.stage == Streaming)
    && (s.at.over && s.at.stage == Streaming ==> s.at.terminal.Some?)
    && (s.at.stage == Streaming && s.at.flow.committed && !s.at.over ==> s.at.flow.flushing == s.at.shape.transforms)
    && (s.at.stage == Awaiting || s.at.stage == Unread ==> !s.at.over)
    && (s.at.flow.flushing > 0 ==> s.at.flow.committed)
    && (s.at.terminal.Some? && !(s.at.stage == Buffering && s.at.terminal == Some(EndReason)) ==>
       Over(s.client) || s.at.flow.flushing > 0)
    && (s.at.terminal == Some(EndReason) ==> s.at.over && (s.at.stage == Buffering || s.at.stage == Streaming))
  }

  predicate HeadsOk(s: Scene) {
    && s.client.late == 0 && s.client.heads <= 1 && s.finishes <= 1
    && (s.at.flow.committed ==> s.at.stage == Streaming && s.client.heads == 1)
    && (s.client.heads == 0 ==> s.client.body == [] && !s.client.ended && s.finishes == 0)
    && (s.client.heads == 1 && !s.at.flow.committed ==>
          s.client.ended && (s.at.upstreamFailureHandled || (s.at.stage == Buffering && s.at.terminal.Some?)))
  }

  predicate SceneOk(s: Scene) {
    GuardOk(s.guard) && SinkOk(s.at.sink) && FlowOk(s.at, s.client) && EndsOk(s) && HeadsOk(s)
  }

  lemma FinishOk(s: Scene)
    requires GuardOk(s.guard) && SinkOk(s.at.sink) && HeadsOk(s) && s.at.terminal.Some?
    requires s.at.upstreamFailureHandled == s.at.proxyDestroyedClient
    requires s.at.upstreamFailureHandled ==> Over(s.client)
    requires s.at.clientAborted ==> s.client.destroyed
    requires s.finishes > 0 ==> Over(s.client)
    ensures HeadsOk(FinishClient(s)) && Over(FinishClient(s).client)
  {
  }

  lemma TurnDownOk(s: Scene)
    requires SceneOk(s) && s.at.stage == Streaming && s.at.terminal.None? && !s.at.flow.committed
    ensures SceneOk(TurnDown(s))
  {
    var t := s.(at := s.at.(terminal := Some(ErrorReason), turnedDown := true, sink := TellSink(s.at.sink, SinkError)));
    FinishOk(t);
  }

  lemma CommitOk(s: Scene)
    requires SceneOk(s) && s.at.stage == Streaming && s.at.terminal.None? && !s.at.flow.committed
             && s.at.flow.flushing == 0
    ensures SceneOk(Commit(s))
  {
    if s.at.shape.adapter == BrokenAdapter && Success(s.at.shape.status) {
      TurnDownOk(s);
    }
  }

  /** An attempt without a response that is still wanted is untouched. */
  lemma StillWanted(s: Scene)
    requires SceneOk(s) && s.at.stage == Awaiting && !s.at.upstreamFailureHandled && !s.client.destroyed
    ensures s.at.terminal.None? && !s.client.ended && s.client.heads == 0
  {
  }

  lemma ResponseOk(s: Scene, status: int, rules: bool, streamed: bool, mode: Mode, observed: bool, adapter: Adapter,
      rewrites: bool)
    requires SceneOk(s) && s.at.stage == Awaiting
    ensures SceneOk(TakeResponse(s, status, rules, streamed, mode, observed, adapter, rewrites))
  {
    if !s.at.upstreamFailureHandled && !s.client.destroyed {
      StillWanted(s);
      var t := OpenStream(s, status, streamed, mode, observed, adapter, rewrites);
      assert SceneOk(t);
      CommitOk(t);
    }
  }

  lemma DataOk(s: Scene, chunk: seq<Byte>)
    requires SceneOk(s) && (s.at.stage == Buffering || s.at.stage == Streaming) && !s.at.over
    ensures SceneOk(TakeData(s, chunk))
  {
    if s.at.stage == Streaming && !s.at.flow.committed && s.at.terminal.None? {
      var t := Hold(s, chunk);
      assert SceneOk(t);
      DecideOk(t);
    }
  }

  lemma DecideOk(s: Scene)
    requires SceneOk(s) && s.at.stage == Streaming && s.at.terminal.None? && !s.at.flow.committed
    ensures SceneOk(Decide(s))
  {
    TurnDownOk(s);
    CommitOk(s);
  }

  lemma EndOk(s: Scene, recovery: Recovery)
    requires SceneOk(s) && (s.at.stage == Buffering || s.at.stage == Streaming) && !s.at.over
    ensures SceneOk(TakeEnd(s, recovery))
  {
    if s.at.stage == Buffering {
      EndBufferedOk(s, recovery);
    } else {
      EndStreamIgnoresRules(s, recovery);
      if s.at.flow.committed {
        EndCommittedOk(s);
      } else {
        EndUncommittedOk(s);
      }
    }
  }

  lemma TellSinkOk(k: Sink, n: SinkNote)
    requires SinkOk(k)
    ensures SinkOk(TellSink(k, n))
  {
  }

  lemma PassBufferedOk(s: Scene, unrecoverable: bool)
    requires SceneOk(s) && s.at.stage == Buffering && s.at.terminal == Some(EndReason)
    requires !Over(s.client) && s.client.heads == 0
    ensures SceneOk(PassBuffered(s, unrecoverable))
  {
    TellSinkOk(s.at.sink, SinkData(Concat(s.at.flow.pending)));
    TellSinkOk(TellSink(s.at.sink, SinkData(Concat(s.at.flow.pending))), SinkEnd);
  }

  lemma EndBufferedOk(s: Scene, recovery: Recovery)
    requires SceneOk(s) && s.at.stage == Buffering && !s.at.over
    ensures SceneOk(TakeEnd(s, recovery))
  {
    if s.at.terminal.None? {
      var t := s.(at := s.at.(over := true, terminal := Some(EndReason)));
      assert SceneOk(t);
      if !t.client.destroyed && !t.at.upstreamFailureHandled {
        PassBufferedOk(t, recovery.unrecoverable);
      }
    }
  }

  /** The recovery rules play no part in the end of a streamed response. */
  lemma EndStreamIgnoresRules(s: Scene, recovery: Recovery)
    requires s.at.stage != Buffering
    ensures TakeEnd(s, recovery) == TakeEnd(s, Recovery(false, false))
  {
  }

  lemma EndUncommittedOk(s: Scene)
    requires SceneOk(s) && s.at.stage == Streaming && !s.at.over && !s.at.flow.committed
    ensures SceneOk(TakeEnd(s, Recovery(false, false)))
  {
    if s.at.terminal.None? && !s.at.clientAborted && !s.client.destroyed {
      TellSinkOk(s.at.sink, SinkEnd);
      FinishOk(s.(at := s.at.(over := true, terminal := Some(EndReason), sink := TellSink(s.at.sink, SinkEnd))));
    }
  }

  /** The pipe ends a committed response whose upstream has ended. */
  lemma PipeEndOk(s: Scene)
    requires SceneOk(s.(at := s.at.(flow := s.at.flow.(flushing := 1)))) && s.at.over && s.at.flow.committed
             && s.at.shape.transforms == 0
    requires s.at.flow.flushing == 0
    ensures SceneOk(s.(client := PipeEnd(s.client)))
  {
  }

  /** Between the handler's listener and the pipe's, as if a transform still had to flush. */
  lemma EndToldOk(s: Scene)
    requires SceneOk(s) && s.at.stage == Streaming && !s.at.over && s.at.flow.committed && s.at.terminal.None?
    ensures var u := EndStream(s.(at := s.at.(over := true, terminal := Some(EndReason))));
            SceneOk(u.(at := u.at.(flow := u.at.flow.(flushing := 1)))) && u.at.over && u.at.flow == s.at.flow
                && u.at.shape == s.at.shape
  {
    TellSinkOk(s.at.sink, SinkEnd);
  }

  lemma EndCommittedOk(s: Scene)
    requires SceneOk(s) && s.at.stage == Streaming && !s.at.over && s.at.flow.committed
    ensures SceneOk(TakeEnd(s, Recovery(false, false)))
  {
    if s.at.terminal.None? {
      hide EndStream;
      EndToldOk(s);
      var u := EndStream(s.(at := s.at.(over := true, terminal := Some(EndReason))));
      if s.at.shape.transforms == 0 {
        PipeEndOk(u);
      } else {
        StillFlushing(u);
      }
    } else if s.at.shape.transforms == 0 {
      PipeEndOk(s.(at := s.at.(over := true)));
    }
  }

  lemma StillFlushing(s: Scene)
    requires SceneOk(s.(at := s.at.(flow := s.at.flow.(flushing := 1)))) && s.at.over && s.at.flow.committed
             && s.at.flow.flushing > 0
    ensures SceneOk(s)
  {
  }

  /** Ending a live client's response after a failure. */
  lemma FailOk(s: Scene, reason: Reason, why: Why, sink: bool)
    requires SceneOk(s) && reason != EndReason && !s.at.clientAborted && !s.client.destroyed
    requires s.at.terminal.None?
             || (s.at.terminal == Some(EndReason) && s.at.stage == Streaming && s.at.flow.flushing > 0)
    requires s.at.stage == Buffering || s.at.stage == Streaming
    ensures SceneOk(FinishClient(Told(Terminate(s, reason), why, sink)))
  {
    TellSinkOk(s.at.sink, SinkError);
    FinishOk(Told(Terminate(s, reason), why, sink));
  }

  lemma FailStreamingOk(s: Scene, reason: Reason, why: Why)
    requires SceneOk(s) && s.at.stage == Streaming && reason != EndReason
    ensures SceneOk(FailStreaming(s, reason, why))
  {
    if !s.at.clientAborted && !s.client.destroyed
       && (s.at.terminal.None? || (s.at.terminal == Some(EndReason) && s.at.flow.flushing > 0)) {
      FailOk(s, reason, why, true);
    }
  }

  lemma FailBufferedOk(s: Scene, reason: Reason, why: Why)
    requires SceneOk(s) && s.at.stage == Buffering && reason != EndReason
    ensures SceneOk(FailBuffered(s, reason, why))
  {
    if !s.at.clientAborted && !s.client.destroyed && s.at.terminal.None? {
      FailOk(s, reason, why, false);
    }
  }

  lemma FailRequestOk(s: Scene)
    requires SceneOk(s)
    ensures SceneOk(FailRequest(s))
  {
    if (s.at.stage == Buffering || s.at.stage == Streaming) && s.at.terminal.None? {
      if s.at.stage == Streaming {
        FailStreamingOk(s, ErrorReason, ResponseFailed);
      } else {
        FailBufferedOk(s, ErrorReason, ResponseFailed);
      }
    }
  }

  lemma TransformEndsOk(s: Scene)
    requires SceneOk(s) && s.at.flow.committed && s.at.over
    ensures SceneOk(TransformEnds(s))
  {
  }

  lemma ClientClosesOk(s: Scene)
    requires SceneOk(s) && s.client.destroyed
    ensures SceneOk(ClientCloses(s))
  {
  }

  lemma HandleOk(s: Scene, e: Event)
    requires SceneOk(s) && Enabled(s.at, e)
    ensures SceneOk(Handle(s, e))
  {
    match e
    case Response(status, rules, streamed, mode, observed, adapter, rewrites) =>
      ResponseOk(s, status, rules, streamed, mode, observed, adapter, rewrites);
    case Data(chunk) => DataOk(s, chunk);
    case End(recovery, _) => EndOk(s, recovery);
    case ResponseError => FailResponseOk(s, ErrorReason, ResponseFailed);
    case ResponseAbort => FailResponseOk(s, AbortedReason, ResponseAborted);
    case ResponseClose(complete) => FailResponseOk(s, CloseReason, ResponseClosed);
    case RequestError => FailRequestOk(s);
    case Timeout =>
    case TransformOutput(chunk) =>
    case TransformError => FailStreamingOk(s, ErrorReason, ResponseFailed);
    case TransformEnd => TransformEndsOk(s);
  }

  lemma FailResponseOk(s: Scene, reason: Reason, why: Why)
    requires SceneOk(s) && (s.at.stage == Buffering || s.at.stage == Streaming) && reason != EndReason
    ensures SceneOk(FailResponse(s, reason, why))
  {
    if s.at.stage == Streaming {
      FailStreamingOk(s, reason, why);
    } else {
      FailBufferedOk(s, reason, why);
    }
  }

  // ---- the retried attempt is frozen ------------------------------------------------------------------

  /** A buffered attempt whose response came to its end. */
  predicate Ended(at: Attempt) {
    at.stage == Buffering && at.terminal == Some(EndReason)
  }

  /** A buffered attempt that has ended without answering the client. */
  predicate Frozen(at: Attempt) {
    && at.stage == Buffering && at.terminal == Some(EndReason) && at.over && !at.flow.committed && at.flow.flushing == 0
    && SinkOk(at.sink) && !at.turnedDown
  }

  /** It does nothing any more, whatever its late events are. */
  lemma FrozenStays(s: Scene, e: Event)
    requires Frozen(s.at) && Enabled(s.at, e)
    ensures var t := Handle(s, e);
            t.client == s.client && t.guard == s.guard && t.finishes == s.finishes && Frozen(t.at)
    ensures ClientCloses(s) == s
  {
  }

  // ---- the invariant of the whole request ---------------------------------------------------------------

  function Last(w: World): Scene
    requires w.attempts != []
  {
    SceneOf(w, |w.attempts| - 1)
  }

  /** The response is the local handler's. */
  predicate Handed(w: World) {
    w.asking == Handling || w.asking == Refused
  }

  predicate LocalOk(w: World) {
    && GuardOk(w.guard) && w.finishes == 0 && w.client.heads <= 1
    && (w.client.heads == 0 ==> w.client.body == [] && !w.client.ended)
    && (w.asking == Refused ==> Over(w.client))
  }

  predicate ForwardedOk(w: World)
    requires w.attempts != []
  {
    && SceneOk(Last(w))
    && (w.asking == Asked ==> w.client.heads == 0)
    && (Ended(Last(w).at) ==> Over(w.client) || w.asking == Asked)
  }

  predicate WorldOk(w: World) {
    && 1 <= |w.attempts| <= 2
    && w.attempts[0].canRetry
    && (|w.attempts| == 2 ==> Frozen(w.attempts[0]) && !w.attempts[1].canRetry && w.asking == NotAsked)
    && (w.asking != NotAsked ==> Frozen(w.attempts[0]))
    && (w.closing != StillOpen ==> w.client.destroyed)
    && if Handed(w) then LocalOk(w) else ForwardedOk(w)
  }

  lemma AgainOk(w: World)
    requires 1 == |w.attempts| && GuardOk(w.guard) && w.guard.started && Frozen(w.attempts[0]) && w.attempts[0].canRetry
    requires w.closing != StillOpen ==> w.client.destroyed
    requires w.client.late == 0 && w.client.heads == 0 && w.client.body == [] && !w.client.ended && w.finishes == 0
    ensures WorldOk(Again(w))
  {
    assert Last(Again(w)).at == NewAttempt(false);
  }

  /** The `end` of a buffered response that is to be retried. */
  lemma RetryOk(w: World, recovery: Recovery, asksFirst: bool)
    requires WorldOk(w) && !Handed(w) && |w.attempts| == 1 && w.guard.started
    requires Enabled(w.attempts[0], End(recovery, asksFirst)) && Wants(Last(w), recovery)
    ensures WorldOk(Step(w, Upstream(0, End(recovery, asksFirst))))
  {
    var s := Last(w);
    var t := TakeEnd(s, recovery);
    HandleOk(s, End(recovery, asksFirst));
    assert Frozen(t.at) && t.client == s.client && t.guard == s.guard && t.finishes == s.finishes;
    var next := Back(w, 0, t);
    if !asksFirst {
      AgainOk(next);
    }
  }

  /** Late events of the first attempt reach nobody once the response is the handler's. */
  lemma LateForHanded(w: World, e: Event)
    requires WorldOk(w) && Handed(w) && Enabled(w.attempts[0], e)
    ensures WorldOk(Step(w, Upstream(0, e)))
    ensures Step(w, Upstream(0, e)).client == w.client && Step(w, Upstream(0, e)).guard == w.guard
    ensures Step(w, Upstream(0, e)).asking == w.asking && Step(w, Upstream(0, e)).closing == w.closing
  {
    hide Handle, SceneOk;
    FrozenStays(SceneOf(w, 0), e);
    HandleKeepsKind(SceneOf(w, 0), e);
  }

  lemma EarlierOk(w: World, e: Event)
    requires WorldOk(w) && |w.attempts| == 2 && Enabled(w.attempts[0], e)
    ensures WorldOk(Step(w, Upstream(0, e)))
  {
    hide Handle, SceneOk;
    FrozenStays(SceneOf(w, 0), e);
    HandleKeepsKind(SceneOf(w, 0), e);
    assert Last(Step(w, Upstream(0, e))) == Last(w);
  }

  lemma UpstreamOk(w: World, a: nat, e: Event)
    requires WorldOk(w) && w.guard.started
    ensures WorldOk(Step(w, Upstream(a, e)))
  {
    if a < |w.attempts| && Enabled(w.attempts[a], e) {
      var s := SceneOf(w, a);
      if Handed(w) {
        LateForHanded(w, e);
      } else if a < |w.attempts| - 1 {
        EarlierOk(w, e);
      } else if e.End? && Wants(s, e.recovery) {
        RetryOk(w, e.recovery, e.asksFirst);
      } else {
        HandleOk(s, e);
        LastHandled(w, a, e, Handle(s, e));
      }
    }
  }

  /** No handler changes `canRetry`, and none starts or stops buffering but the response itself. */
  predicate SameKind(s: Scene, t: Scene) {
    t.at.canRetry == s.at.canRetry && (t.at.stage == s.at.stage || s.at.stage == Awaiting)
  }

  lemma FinishKeepsKind(s: Scene)
    ensures SameKind(s, FinishClient(s)) && SameKind(s, TurnDown(s))
  {
  }

  lemma CommitKeepsKind(s: Scene)
    ensures SameKind(s, Commit(s)) && Commit(s).at.stage == s.at.stage
  {
    FinishKeepsKind(s);
  }

  lemma DecideKeepsKind(s: Scene)
    ensures SameKind(s, Decide(s))
  {
    FinishKeepsKind(s);
    CommitKeepsKind(s);
  }

  lemma DataKeepsKind(s: Scene, chunk: seq<Byte>)
    ensures SameKind(s, TakeData(s, chunk))
  {
    hide Decide;
    if s.at.stage != Buffering && !s.at.flow.committed && s.at.terminal.None? {
      DecideKeepsKind(Hold(s, chunk));
    }
  }

  lemma EndKeepsKind(s: Scene, recovery: Recovery)
    ensures SameKind(s, TakeEnd(s, recovery))
  {
  }

  lemma FailStreamingKeepsKind(s: Scene, reason: Reason, why: Why)
    ensures SameKind(s, FailStreaming(s, reason, why))
  {
  }

  lemma FailBufferedKeepsKind(s: Scene, reason: Reason, why: Why)
    ensures SameKind(s, FailBuffered(s, reason, why))
  {
  }

  lemma FailResponseKeepsKind(s: Scene, reason: Reason, why: Why)
    ensures SameKind(s, FailResponse(s, reason, why))
  {
    FailStreamingKeepsKind(s, reason, why);
    FailBufferedKeepsKind(s, reason, why);
  }

  lemma FailRequestKeepsKind(s: Scene)
    ensures SameKind(s, FailRequest(s))
  {
    FailResponseKeepsKind(s, ErrorReason, ResponseFailed);
  }

  lemma ResponseKeepsRetry(s: Scene, e: Event)
    requires e.Response?
    ensures Handle(s, e).at.canRetry == s.at.canRetry
  {
    CommitKeepsKind(OpenStream(s, e.status, e.streamed, e.mode, e.observed, e.adapter, e.rewrites));
  }

  lemma HandleKeepsKind(s: Scene, e: Event)
    ensures Handle(s, e).at.canRetry == s.at.canRetry
    ensures !e.Response? ==> SameKind(s, Handle(s, e))
  {
    match e
    case Response(status, rules, streamed, mode, observed, adapter, rewrites) => ResponseKeepsRetry(s, e);
    case Data(chunk) => DataKeepsKind(s, chunk);
    case End(recovery, _) => EndKeepsKind(s, recovery);
    case ResponseError => FailResponseKeepsKind(s, ErrorReason, ResponseFailed);
    case ResponseAbort => FailResponseKeepsKind(s, AbortedReason, ResponseAborted);
    case ResponseClose(_) => FailResponseKeepsKind(s, CloseReason, ResponseClosed);
    case RequestError => FailRequestKeepsKind(s);
    case TransformError => FailStreamingKeepsKind(s, ErrorReason, ResponseFailed);
    case _ =>
  }

  /** Over is over. */
  predicate StaysOver(s: Scene, t: Scene) {
    && (Over(s.client) ==> Over(t.client)) && (s.client.destroyed ==> t.client.destroyed)
    && (s.guard.started ==> t.guard.started)
  }

  lemma FinishStaysOver(s: Scene)
    ensures StaysOver(s, FinishClient(s)) && StaysOver(s, TurnDown(s)) && StaysOver(s, Commit(s))
  {
  }

  lemma EndStaysOver(s: Scene, recovery: Recovery)
    ensures StaysOver(s, TakeEnd(s, recovery))
  {
  }

  lemma FailStaysOver(s: Scene, reason: Reason, why: Why)
    ensures StaysOver(s, FailStreaming(s, reason, why)) && StaysOver(s, FailBuffered(s, reason, why))
  {
    FinishStaysOver(Told(Terminate(s, reason), why, true));
    FinishStaysOver(Told(Terminate(s, reason), why, false));
  }

  lemma HandleStaysOver(s: Scene, e: Event)
    ensures StaysOver(s, Handle(s, e))
  {
    match e
    case Response(status, rules, streamed, mode, observed, adapter, rewrites) =>
      FinishStaysOver(OpenStream(s, status, streamed, mode, observed, adapter, rewrites));
    case Data(chunk) => FinishStaysOver(Hold(s, chunk));
    case End(recovery, _) => EndStaysOver(s, recovery);
    case ResponseError => FailStaysOver(s, ErrorReason, ResponseFailed);
    case ResponseAbort => FailStaysOver(s, AbortedReason, ResponseAborted);
    case ResponseClose(_) => FailStaysOver(s, CloseReason, ResponseClosed);
    case RequestError => FailRequestStaysOver(s);
    case TransformError => FailStaysOver(s, ErrorReason, ResponseFailed);
    case _ =>
  }

  lemma FailRequestStaysOver(s: Scene)
    ensures StaysOver(s, FailRequest(s))
  {
    FailStaysOver(s, ErrorReason, ResponseFailed);
  }

  lemma EndAnswers(s: Scene, recovery: Recovery)
    requires SceneOk(s) && s.at.stage == Buffering && s.at.terminal.None? && !s.at.over && !Wants(s, recovery)
    ensures Over(TakeEnd(s, recovery).client)
  {
  }

  /** A buffered attempt that ends answers the client, unless it is to be retried. */
  lemma BufferedAnswers(s: Scene, e: Event)
    requires SceneOk(s) && Enabled(s.at, e) && !(e.End? && Wants(s, e.recovery))
    requires Ended(s.at) ==> Over(s.client)
    ensures Ended(Handle(s, e).at) ==> Over(Handle(s, e).client)
  {
    HandleStaysOver(s, e);
    if Over(s.client) {
    } else if e.Response? {
      NewResponseHasNotEnded(s, e);
    } else {
      HandleKeepsKind(s, e);
      if s.at.stage == Buffering {
        if e.End? {
          EndAnswers(s, e.recovery);
        } else {
          BufferedOther(s, e);
        }
      }
    }
  }

  lemma NewResponseHasNotEnded(s: Scene, e: Event)
    requires SceneOk(s) && e.Response? && s.at.stage == Awaiting && !Over(s.client)
    ensures !Ended(Handle(s, e).at)
  {
    StillWanted(s);
  }

  lemma BufferedOther(s: Scene, e: Event)
    requires SceneOk(s) && s.at.stage == Buffering && !Ended(s.at) && Enabled(s.at, e) && !e.End?
    ensures !Ended(Handle(s, e).at)
  {
  }

  lemma HandledWhileAsked(w: World, e: Event, t: Scene)
    requires WorldOk(w) && |w.attempts| == 1 && w.asking == Asked && Enabled(w.attempts[0], e)
             && t == Handle(Last(w), e)
    ensures Frozen(t.at) && t.client == w.client
  {
    FrozenStays(Last(w), e);
  }

  lemma HandledUnasked(s: Scene, e: Event, t: Scene)
    requires SceneOk(s) && Enabled(s.at, e) && !(e.End? && Wants(s, e.recovery)) && t == Handle(s, e)
    requires Ended(s.at) ==> Over(s.client)
    ensures Ended(t.at) ==> Over(t.client)
  {
    BufferedAnswers(s, e);
  }

  lemma LastHandled(w: World, a: nat, e: Event, t: Scene)
    requires WorldOk(w) && !Handed(w) && a == |w.attempts| - 1 && Enabled(w.attempts[a], e)
             && t == Handle(SceneOf(w, a), e)
    requires SceneOk(t) && !(e.End? && Wants(SceneOf(w, a), e.recovery))
    ensures WorldOk(Back(w, a, t))
  {
    hide Handle, SceneOk, Frozen;
    HandleKeepsKind(SceneOf(w, a), e);
    HandleStaysOver(SceneOf(w, a), e);
    if w.asking != NotAsked {
      HandledWhileAsked(w, e, t);
    } else {
      HandledUnasked(SceneOf(w, a), e, t);
    }
    Placed(w, a, t);
  }

  lemma Placed(w: World, a: nat, t: Scene)
    requires WorldOk(w) && !Handed(w) && a == |w.attempts| - 1 && SceneOk(t) && t.at.canRetry == w.attempts[a].canRetry
    requires w.asking != NotAsked ==> Frozen(t.at) && t.client == w.client
    requires w.asking == NotAsked ==> (Ended(t.at) ==> Over(t.client))
    requires w.client.destroyed ==> t.client.destroyed
    ensures WorldOk(Back(w, a, t))
  {
    assert Last(Back(w, a, t)) == t;
  }

  lemma ClientCloseOk(w: World)
    requires WorldOk(w)
    ensures WorldOk(Step(w, ClientClose))
  {
    hide Close, WorldOk, Handed;
    if w.closing == StillOpen {
      if Handed(w) {
        CloseHanded(w);
      } else {
        CloseForwarded(w);
      }
    }
  }

  lemma GoneOk(w: World, gone: World)
    requires WorldOk(w) && !Handed(w) && w.closing == StillOpen
    requires gone == w.(closing := if w.client.ended then ClosedAfterEnd else HungUp,
                        client := w.client.(destroyed := true))
    ensures WorldOk(gone) && !Handed(gone) && SceneOk(ClientCloses(Last(gone)))
  {
    assert SceneOk(Last(gone));
    ClientClosesOk(Last(gone));
  }

  lemma CloseForwarded(w: World)
    requires WorldOk(w) && !Handed(w) && w.closing == StillOpen
    ensures WorldOk(Step(w, ClientClose))
  {
    hide ClientCloses, SceneOk;
    var gone := w.(closing := if w.client.ended then ClosedAfterEnd else HungUp,
                   client := w.client.(destroyed := true));
    GoneOk(w, gone);
    if |w.attempts| == 1 {
      CloseFirst(gone);
      GateHearsClose(Back(gone, 0, ClientCloses(Last(gone))));
    } else {
      FrozenStays(SceneOf(gone, 0), Timeout);
      assert Back(gone, 0, SceneOf(gone, 0)) == gone;
      CloseSecond(gone);
    }
  }

  lemma GateHearsClose(w: World)
    requires WorldOk(w) && !Handed(w) && |w.attempts| == 1
    ensures WorldOk(w.(guard := TellEnd(w.guard, Fell(ClientAborted))))
  {
  }

  lemma CloseSecond(gone: World)
    requires WorldOk(gone) && !Handed(gone) && |gone.attempts| == 2 && gone.client.destroyed
             && SceneOk(ClientCloses(Last(gone)))
    ensures WorldOk(Back(gone, 1, ClientCloses(Last(gone))))
  {
    Placed(gone, 1, ClientCloses(Last(gone)));
  }

  lemma CloseHanded(w: World)
    requires WorldOk(w) && Handed(w) && w.closing == StillOpen
    ensures WorldOk(Step(w, ClientClose))
    ensures Step(w, ClientClose).asking == w.asking && Step(w, ClientClose).attempts == w.attempts
    ensures var t := Step(w, ClientClose);
            && t.client == w.client.(destroyed := true)
            && t.closing == (if w.client.ended then ClosedAfterEnd else HungUp)
            && t.guard == if w.asking == Handling && !w.client.ended
                          then TellEnd(w.guard, Fell(ClientAborted)) else w.guard
  {
    var gone := w.(closing := if w.client.ended then ClosedAfterEnd else HungUp,
                   client := w.client.(destroyed := true));
    FrozenStays(SceneOf(gone, 0), Timeout);
    assert Back(gone, 0, SceneOf(gone, 0)) == gone;
  }

  lemma CloseFirst(gone: World)
    requires WorldOk(gone) && !Handed(gone) && |gone.attempts| == 1 && gone.client.destroyed
             && SceneOk(ClientCloses(Last(gone)))
    ensures WorldOk(Back(gone, 0, ClientCloses(Last(gone))))
  {
    if gone.asking != NotAsked {
      FrozenStays(Last(gone), Timeout);
    }
    Placed(gone, 0, ClientCloses(Last(gone)));
  }

  lemma ServeOk(c: Client, call: LocalCall)
    requires c.heads <= 1 && (c.heads == 0 ==> c.body == [] && !c.ended)
    ensures var t := Serve(c, call);
            && t.heads <= 1 && (t.heads == 0 ==> t.body == [] && !t.ended)
            && (Over(c) ==> Over(t)) && (c.destroyed ==> t.destroyed)
            && (call.Resolves? || call.Throws? ==> Over(t))
  {
  }

  lemma GateOk(w: World, i: Input)
    requires WorldOk(w) && w.guard.started && !i.Upstream? && !i.ClientClose?
    ensures WorldOk(Step(w, i))
  {
    match i
    case GateProceeds =>
      if w.asking == Asked && !w.client.destroyed {
        AgainOk(w);
      }
    case Local(call) => ServeOk(w.client, call);
    case _ =>
  }

  lemma StartedKept(w: World, i: Input)
    requires w.guard.started
    ensures Step(w, i).guard.started
  {
    match i
    case Upstream(a, e) =>
      if a < |w.attempts| && Enabled(w.attempts[a], e) {
        HandleStaysOver(SceneOf(w, a), e);
      }
    case _ =>
  }

  /** Every run of the system, whatever the order of its events, keeps the invariant. */
  lemma {:induction false} RunOk(inputs: seq<Input>)
    ensures WorldOk(Run(inputs)) && Run(inputs).guard.started
  {
    if inputs == [] {
      assert Last(Initial()).at == NewAttempt(true);
    } else {
      var w, i := Run(inputs[..|inputs| - 1]), inputs[|inputs| - 1];
      RunOk(inputs[..|inputs| - 1]);
      StartedKept(w, i);
      match i
      case Upstream(a, e) => UpstreamOk(w, a, e);
      case ClientClose => ClientCloseOk(w);
      case _ => GateOk(w, i);
    }
  }

  // ---- what holds of every run --------------------------------------------------------------------------

  /** How many of the calls a handler input makes meet a response that is already over. */
  function LateOf(w: World, i: Input): nat {
    if !i.Local? || w.asking != Handling || !Over(w.client) then 0
    else match i.call
      case WritesHead => if w.client.heads == 0 then 1 else 0
      case Writes(_) => if w.client.heads == 0 then 1 else 0
      case Ends(_) => if w.client.heads == 0 then 2 else 1
      case Resolves => if w.client.ended then 0 else if w.client.heads == 0 then 2 else 1
      case Throws => if w.client.heads == 0 then 2 else 1
  }

  function LateCalls(inputs: seq<Input>): nat {
    if inputs == [] then 0
    else LateCalls(inputs[..|inputs| - 1]) + LateOf(Run(inputs[..|inputs| - 1]), inputs[|inputs| - 1])
  }

  lemma StepLate(w: World, i: Input)
    requires WorldOk(w) && WorldOk(Step(w, i))
    ensures Step(w, i).client.late == w.client.late + LateOf(w, i)
  {
    hide Handle, ClientCloses, Enabled;
    if Handed(w) {
      match i
      case Upstream(a, e) =>
        if a == 0 && Enabled(w.attempts[0], e) {
          LateForHanded(w, e);
        }
      case ClientClose =>
        if w.closing == StillOpen {
          CloseHanded(w);
        }
      case _ =>
    } else {
      HandedByTheGate(w, i);
    }
  }

  lemma HandedByTheGate(w: World, i: Input)
    requires !Handed(w)
    ensures Handed(Step(w, i)) ==> i.GateHandles? && Step(w, i).client == w.client
  {
    hide Handle, ClientCloses, Enabled, Wants;
  }

  lemma {:induction false} RunLate(inputs: seq<Input>)
    ensures Run(inputs).client.late == LateCalls(inputs)
  {
    if inputs != [] {
      RunLate(inputs[..|inputs| - 1]);
      RunOk(inputs[..|inputs| - 1]);
      RunOk(inputs);
      StepLate(Run(inputs[..|inputs| - 1]), inputs[|inputs| - 1]);
    }
  }

  /** One response per request: over every order of upstream, client and gate events, with or without
      the retry or a local handler, there are at most two upstream requests, `writeHead` is called at
      most once, the client is finished after a failure at most once, and no byte is written before
      the head. The only calls that touch a response already over are those of a local handler that
      runs on after its client has gone or its own end, and of the defensive finish behind it. */
  lemma OneResponse(inputs: seq<Input>)
    ensures var w := Run(inputs);
            && |w.attempts| <= 2 && w.client.heads <= 1 && w.finishes <= 1
            && (w.client.heads == 0 ==> w.client.body == [] && !w.client.ended)
            && w.client.late == LateCalls(inputs)
            && (w.client.late > 0 ==> Handed(w))
  {
    RunOk(inputs);
    RunLate(inputs);
  }

  /** A commit delivers the buffered chunks once and in order: a streamed response waits with all its
      chunks or has handed all of them on, to the client itself if no transform is in between. */
  lemma DeliveredInOrder(inputs: seq<Input>)
    ensures Run(inputs).attempts != []
    ensures var w := Run(inputs);
            var at := Last(w).at;
            && (at.flow.committed ==> at.flow.delivered == at.flow.received && at.flow.pending == [])
            && (!at.flow.committed && at.terminal.None? ==>
               at.flow.pending == at.flow.received && at.flow.delivered == [] && w.client.body == [])
            && (at.flow.committed && at.shape.transforms == 0 ==>
               w.client.body <= at.flow.received && (!w.client.destroyed ==> w.client.body == at.flow.received))
  {
    hide Run;
    RunOk(inputs);
  }

  /** The lifecycle observer sees one start and then at most one terminal note; the response observer
      sees data, then at most one terminal call, and nothing after it. */
  lemma ObserversSeeOneEnd(inputs: seq<Input>)
    ensures GuardOk(Run(inputs).guard) && Run(inputs).guard.started
    ensures Run(inputs).attempts != [] && SinkOk(Last(Run(inputs)).at.sink)
  {
    hide Run;
    RunOk(inputs);
  }

  /** No client is left waiting: once the last attempt's upstream is done, the client's response is
      over, or a transform still has to flush, or the retry gate has not answered. */
  lemma NobodyWaits(inputs: seq<Input>)
    ensures var w := Run(inputs);
            && w.attempts != []
            && (Last(w).at.terminal.Some? ==>
                  Over(w.client) || Last(w).at.flow.flushing > 0 || w.asking == Asked || w.asking == Handling)
  {
    hide Run;
    RunOk(inputs);
  }

  // ---- exactly when the observer is told ------------------------------------------------------------------

  predicate SettleOk(s: Scene) {
    && s.guard.started
    && (s.at.turnedDown ==> s.at.terminal == Some(ErrorReason) && s.at.upstreamFailureHandled && !s.guard.settled)
    && (Over(s.client) ==> s.at.terminal.Some? && (s.guard.settled <==> !s.at.turnedDown))
    && (!Over(s.client) && s.at.terminal.None? ==> !s.guard.settled)
    && (!Over(s.client) && s.at.terminal.Some? && !Ended(s.at) ==> s.guard.settled)
  }

  lemma TurnDownSettles(s: Scene)
    requires SceneOk(s) && SettleOk(s) && s.at.stage == Streaming && s.at.terminal.None? && !s.at.flow.committed
    ensures SettleOk(TurnDown(s))
  {
  }

  lemma CommitSettles(s: Scene)
    requires SceneOk(s) && SettleOk(s) && s.at.stage == Streaming && s.at.terminal.None? && !s.at.flow.committed
    ensures SettleOk(Commit(s))
  {
    TurnDownSettles(s);
  }

  lemma ResponseSettles(s: Scene, e: Event)
    requires SceneOk(s) && SettleOk(s) && e.Response? && s.at.stage == Awaiting
    ensures SettleOk(Handle(s, e))
  {
    if !s.at.upstreamFailureHandled && !s.client.destroyed {
      StillWanted(s);
      var t := OpenStream(s, e.status, e.streamed, e.mode, e.observed, e.adapter, e.rewrites);
      assert SceneOk(t);
      CommitSettles(t);
    }
  }

  lemma DataSettles(s: Scene, chunk: seq<Byte>)
    requires SceneOk(s) && SettleOk(s) && (s.at.stage == Buffering || s.at.stage == Streaming) && !s.at.over
    ensures SettleOk(TakeData(s, chunk))
  {
    if s.at.stage == Streaming && !s.at.flow.committed && s.at.terminal.None? {
      var t := Hold(s, chunk);
      assert SceneOk(t);
      TurnDownSettles(t);
      CommitSettles(t);
    }
  }

  lemma EndSettles(s: Scene, recovery: Recovery)
    requires SceneOk(s) && SettleOk(s) && (s.at.stage == Buffering || s.at.stage == Streaming) && !s.at.over
    ensures SettleOk(TakeEnd(s, recovery))
    ensures Wants(s, recovery) ==> !TakeEnd(s, recovery).guard.settled
  {
  }

  lemma FailStreamingSettles(s: Scene, reason: Reason, why: Why)
    requires SceneOk(s) && SettleOk(s) && s.at.stage == Streaming && reason != EndReason
    ensures SettleOk(FailStreaming(s, reason, why))
  {
  }

  lemma FailBufferedSettles(s: Scene, reason: Reason, why: Why)
    requires SceneOk(s) && SettleOk(s) && s.at.stage == Buffering && reason != EndReason
    ensures SettleOk(FailBuffered(s, reason, why))
  {
  }

  lemma FailResponseSettles(s: Scene, reason: Reason, why: Why)
    requires SceneOk(s) && SettleOk(s) && (s.at.stage == Buffering || s.at.stage == Streaming) && reason != EndReason
    ensures SettleOk(FailResponse(s, reason, why))
  {
    if s.at.stage == Streaming {
      FailStreamingSettles(s, reason, why);
    } else {
      FailBufferedSettles(s, reason, why);
    }
  }

  lemma FailRequestSettles(s: Scene)
    requires SceneOk(s) && SettleOk(s)
    ensures SettleOk(FailRequest(s))
  {
    if (s.at.stage == Buffering || s.at.stage == Streaming) && s.at.terminal.None? {
      FailResponseSettles(s, ErrorReason, ResponseFailed);
    }
  }

  lemma HandleSettles(s: Scene, e: Event)
    requires SceneOk(s) && SettleOk(s) && Enabled(s.at, e)
    ensures SettleOk(Handle(s, e))
  {
    match e
    case Response(status, rules, streamed, mode, observed, adapter, rewrites) => ResponseSettles(s, e);
    case Data(chunk) => DataSettles(s, chunk);
    case End(recovery, _) => EndSettles(s, recovery);
    case ResponseError => FailResponseSettles(s, ErrorReason, ResponseFailed);
    case ResponseAbort => FailResponseSettles(s, AbortedReason, ResponseAborted);
    case ResponseClose(complete) => FailResponseSettles(s, CloseReason, ResponseClosed);
    case RequestError => FailRequestSettles(s);
    case Timeout =>
    case TransformOutput(chunk) =>
    case TransformError => FailStreamingSettles(s, ErrorReason, ResponseFailed);
    case TransformEnd =>
  }

  predicate Settling(w: World) {
    && WorldOk(w) && w.guard.started
    && (w.asking == Asked || w.asking == Handling ==> (w.guard.settled <==> w.closing == HungUp))
    && (w.asking == Refused ==> w.guard.settled)
    && (!Handed(w) ==> SettleOk(Last(w)))
  }

  lemma RetrySettles(w: World, recovery: Recovery, asksFirst: bool)
    requires Settling(w) && !Handed(w) && |w.attempts| == 1
    requires Enabled(w.attempts[0], End(recovery, asksFirst)) && Wants(Last(w), recovery)
    ensures Settling(Step(w, Upstream(0, End(recovery, asksFirst))))
  {
    hide TakeEnd;
    var s := Last(w);
    var t := TakeEnd(s, recovery);
    RetryOk(w, recovery, asksFirst);
    EndSettles(s, recovery);
    assert t.client == s.client && t.guard == s.guard && Frozen(t.at);
    var next := Back(w, 0, t);
    assert Last(next) == t;
    if !asksFirst {
      assert Last(Again(next)).at == NewAttempt(false);
    }
  }

  lemma AskedIsFrozen(w: World, e: Event)
    requires Settling(w) && |w.attempts| == 1 && w.asking == Asked && Enabled(w.attempts[0], e)
    ensures Handle(Last(w), e).client == w.client && Handle(Last(w), e).guard == w.guard
  {
    FrozenStays(Last(w), e);
  }

  lemma LastSettles(w: World, a: nat, e: Event, t: Scene)
    requires Settling(w) && !Handed(w) && a == |w.attempts| - 1 && Enabled(w.attempts[a], e)
             && t == Handle(SceneOf(w, a), e)
    requires WorldOk(Back(w, a, t)) && SettleOk(t)
    ensures Settling(Back(w, a, t))
  {
    if w.asking != NotAsked {
      AskedIsFrozen(w, e);
    }
    LastPlaced(w, a, t);
  }

  lemma LastPlaced(w: World, a: nat, t: Scene)
    requires Settling(w) && !Handed(w) && a == |w.attempts| - 1 && SettleOk(t) && WorldOk(Back(w, a, t))
    requires w.asking != NotAsked ==> t.client == w.client && t.guard == w.guard
    ensures Settling(Back(w, a, t))
  {
    assert Last(Back(w, a, t)) == t;
  }

  lemma EarlierSettles(w: World, e: Event)
    requires Settling(w) && |w.attempts| == 2 && Enabled(w.attempts[0], e)
    ensures Settling(Step(w, Upstream(0, e)))
  {
    UpstreamOk(w, 0, e);
    var s := SceneOf(w, 0);
    FrozenStays(s, e);
    var next := Back(w, 0, Handle(s, e));
    assert Last(next) == Last(w);
  }

  lemma StepOfLast(w: World, a: nat, e: Event, t: Scene)
    requires a == |w.attempts| - 1 && Enabled(w.attempts[a], e) && !(e.End? && Wants(SceneOf(w, a), e.recovery))
    requires t == Handle(SceneOf(w, a), e)
    ensures Step(w, Upstream(a, e)) == Back(w, a, t)
  {
  }

  lemma PlainSettles(w: World, a: nat, e: Event)
    requires Settling(w) && !Handed(w) && a == |w.attempts| - 1 && Enabled(w.attempts[a], e)
             && !(e.End? && Wants(SceneOf(w, a), e.recovery))
    requires WorldOk(Step(w, Upstream(a, e)))
    ensures Settling(Step(w, Upstream(a, e)))
  {
    HandleSettles(SceneOf(w, a), e);
    var t := Handle(SceneOf(w, a), e);
    StepOfLast(w, a, e, t);
    LastSettles(w, a, e, t);
  }

  lemma UpstreamSettles(w: World, a: nat, e: Event)
    requires Settling(w)
    ensures Settling(Step(w, Upstream(a, e)))
  {
    UpstreamOk(w, a, e);
    if a < |w.attempts| && Enabled(w.attempts[a], e) {
      if Handed(w) {
        LateForHanded(w, e);
      } else if a < |w.attempts| - 1 {
        EarlierSettles(w, e);
      } else if e.End? && Wants(SceneOf(w, a), e.recovery) {
        RetrySettles(w, e.recovery, e.asksFirst);
      } else {
        PlainSettles(w, a, e);
      }
    }
  }

  lemma ClientCloseSettles(w: World)
    requires Settling(w)
    ensures Settling(Step(w, ClientClose))
  {
    ClientCloseOk(w);
    if w.closing == StillOpen && Handed(w) {
      CloseHanded(w);
    }
  }

  lemma GateSettles(w: World, i: Input)
    requires Settling(w) && !i.Upstream? && !i.ClientClose?
    ensures Settling(Step(w, i))
  {
    GateOk(w, i);
  }

  lemma {:induction false} RunSettles(inputs: seq<Input>)
    ensures Settling(Run(inputs))
  {
    RunOk(inputs);
    if inputs != [] {
      var w, i := Run(inputs[..|inputs| - 1]), inputs[|inputs| - 1];
      RunSettles(inputs[..|inputs| - 1]);
      match i
      case Upstream(a, e) => UpstreamSettles(w, a, e);
      case ClientClose => ClientCloseSettles(w);
      case _ => GateSettles(w, i);
    }
  }

  // ---- the gate decides ---------------------------------------------------------------------------------

  /** How a streamed response stands to the verdict on the chunks it was held back with. */
  predicate FollowsGate(at: Attempt) {
    if at.stage != Streaming then !at.turnedDown
    else
      && at.flow.pending <= at.flow.received
      && (at.shape.adapter == BrokenAdapter ==> Success(at.shape.status))
      && if at.flow.committed then
           !at.turnedDown && at.shape.adapter != BrokenAdapter
           && (at.shape.gated ==> OnChunks(at.shape.mode, at.flow.received) == Committed)
         else if at.shape.gated then
           var verdict := OnChunks(at.shape.mode, at.flow.pending);
           at.turnedDown == (verdict != Waiting) && (verdict == Committed ==> at.shape.adapter == BrokenAdapter)
         else at.turnedDown && at.shape.adapter == BrokenAdapter
  }

  /** Nothing moved. */
  predicate SameFlow(s: Scene, t: Scene) {
    && t.at.stage == s.at.stage && t.at.shape == s.at.shape && t.at.turnedDown == s.at.turnedDown
    && t.at.flow.committed == s.at.flow.committed
    && t.at.flow.received == s.at.flow.received && t.at.flow.pending == s.at.flow.pending
  }

  lemma FinishKeepsFlow(s: Scene)
    ensures SameFlow(s, FinishClient(s)) && SameFlow(s.(at := s.at.(turnedDown := true)), TurnDown(s))
  {
  }

  lemma FailKeepsFlow(s: Scene, reason: Reason, why: Why)
    ensures SameFlow(s, FailStreaming(s, reason, why)) && SameFlow(s, FailBuffered(s, reason, why))
  {
    hide FinishClient;
    FinishKeepsFlow(Told(Terminate(s, reason), why, true));
    FinishKeepsFlow(Told(Terminate(s, reason), why, false));
  }

  lemma FailRequestKeepsFlow(s: Scene)
    ensures SameFlow(s, FailRequest(s))
  {
    hide FailStreaming, FailBuffered, FinishClient;
    FailKeepsFlow(s, ErrorReason, ResponseFailed);
    var why := Fell(if s.at.requestTimedOut then RequestTimedOut else RequestFailed);
    FinishKeepsFlow(s.(guard := TellEnd(s.guard, why),
                       at := if s.at.terminal.None? then s.at.(terminal := Some(ErrorReason)) else s.at));
  }

  lemma EndStreamKeepsFlow(s: Scene)
    ensures SameFlow(s, EndStream(s))
  {
    hide FinishClient, TellSink, TellEnd;
    FinishKeepsFlow(s.(at := s.at.(sink := TellSink(s.at.sink, SinkEnd))));
  }

  lemma PassKeepsFlow(s: Scene, unrecoverable: bool)
    ensures SameFlow(s, PassBuffered(s, unrecoverable))
  {
    hide TellSink, TellEnd, Concat;
  }

  lemma EndKeepsFlow(s: Scene, recovery: Recovery)
    ensures SameFlow(s, TakeEnd(s, recovery))
  {
    hide EndStream, PassBuffered, Wants;
    var t := s.(at := s.at.(over := true, terminal := Some(EndReason)));
    EndStreamKeepsFlow(t);
    PassKeepsFlow(t, recovery.unrecoverable);
  }

  /** A response that is still wanted is committed, or turned down for want of an adapter. */
  lemma CommitFlow(s: Scene)
    requires !s.at.flow.committed && !s.at.upstreamFailureHandled && !s.at.clientAborted && !s.client.destroyed
    requires s.at.shape.adapter == BrokenAdapter ==> Success(s.at.shape.status)
    ensures var t := Commit(s);
            && t.at.stage == s.at.stage && t.at.shape == s.at.shape && t.at.flow.received == s.at.flow.received
            && if s.at.shape.adapter == BrokenAdapter
               then !t.at.flow.committed && t.at.turnedDown && t.at.flow.pending == s.at.flow.pending
               else t.at.flow.committed && t.at.flow.pending == [] && t.at.turnedDown == s.at.turnedDown
  {
    hide FinishClient, PipeWrite;
    FinishKeepsFlow(s);
  }

  /** Deciding on the held bytes follows the gate. */
  lemma DecideFollowsGate(s: Scene)
    requires SceneOk(s) && SettleOk(s) && s.at.stage == Streaming && s.at.shape.gated && s.at.terminal.None?
             && !s.at.flow.committed
    requires OnChunks(s.at.shape.mode, s.at.flow.received) == Judge(s.at.shape.mode, Concat(s.at.flow.received))
    requires s.at.shape.adapter == BrokenAdapter ==> Success(s.at.shape.status)
    ensures FollowsGate(Decide(s).at)
  {
    hide Judge, OnChunks, Concat, Commit, TurnDown;
    FinishKeepsFlow(s);
    CommitFlow(s);
  }

  lemma DataFollowsGate(s: Scene, chunk: seq<Byte>)
    requires SceneOk(s) && SettleOk(s) && FollowsGate(s.at) && (s.at.stage == Buffering || s.at.stage == Streaming)
    ensures FollowsGate(TakeData(s, chunk).at)
  {
    hide Judge, Decide;
    var chunks := s.at.flow.received + [chunk];
    assert chunks[..|chunks| - 1] == s.at.flow.received;
    if s.at.stage == Streaming && s.at.shape.gated && !s.at.flow.committed && s.at.terminal.None? {
      HeldOk(s, chunk);
      DecideFollowsGate(Hold(s, chunk));
    }
  }

  lemma HeldOk(s: Scene, chunk: seq<Byte>)
    requires SceneOk(s) && SettleOk(s) && s.at.stage == Streaming && s.at.terminal.None? && !s.at.flow.committed
    ensures SceneOk(Hold(s, chunk)) && SettleOk(Hold(s, chunk))
  {
  }

  lemma ResponseFollowsGate(s: Scene, e: Event)
    requires SceneOk(s) && FollowsGate(s.at) && e.Response? && s.at.stage == Awaiting
    ensures FollowsGate(Handle(s, e).at)
  {
    hide Judge, Commit;
    if !s.at.upstreamFailureHandled && !s.client.destroyed {
      StillWanted(s);
      CommitFlow(OpenStream(s, e.status, e.streamed, e.mode, e.observed, e.adapter, e.rewrites));
    }
  }

  lemma HandleFollowsGate(s: Scene, e: Event)
    requires SceneOk(s) && SettleOk(s) && FollowsGate(s.at) && Enabled(s.at, e)
    ensures FollowsGate(Handle(s, e).at)
  {
    hide TakeData, TakeEnd, FailStreaming, FailBuffered, FailRequest, OnChunks;
    match e
    case Response(status, rules, streamed, mode, observed, adapter, rewrites) => ResponseFollowsGate(s, e);
    case Data(chunk) => DataFollowsGate(s, chunk);
    case End(recovery, _) => EndKeepsFlow(s, recovery);
    case ResponseError => FailKeepsFlow(s, ErrorReason, ResponseFailed);
    case ResponseAbort => FailKeepsFlow(s, AbortedReason, ResponseAborted);
    case ResponseClose(_) => FailKeepsFlow(s, CloseReason, ResponseClosed);
    case RequestError => FailRequestKeepsFlow(s);
    case TransformError => FailKeepsFlow(s, ErrorReason, ResponseFailed);
    case _ =>
  }

  lemma {:induction false} RunFollowsGate(inputs: seq<Input>)
    ensures Run(inputs).attempts != [] && FollowsGate(Last(Run(inputs)).at)
  {
    RunOk(inputs);
    if inputs != [] {
      RunSettles(inputs[..|inputs| - 1]);
      RunFollowsGate(inputs[..|inputs| - 1]);
      StepFollowsGate(Run(inputs[..|inputs| - 1]), inputs[|inputs| - 1]);
    }
  }

  lemma StepFollowsGate(w: World, i: Input)
    requires Settling(w) && FollowsGate(Last(w).at) && WorldOk(Step(w, i))
    ensures FollowsGate(Last(Step(w, i)).at)
  {
    hide Handle, FollowsGate, SceneOk, SettleOk, Serve;
    NewAttemptFollowsGate();
    match i
    case Upstream(a, e) =>
      if a < |w.attempts| && Enabled(w.attempts[a], e) {
        if Handed(w) {
          FrozenStays(Last(w), e);
          FrozenFollowsGate(Handle(Last(w), e).at);
        } else if a == |w.attempts| - 1 {
          HandleFollowsGate(Last(w), e);
        }
      }
    case ClientClose =>
      CloseFollowsGate(w);
    case _ =>
  }

  lemma FrozenFollowsGate(at: Attempt)
    requires Frozen(at)
    ensures FollowsGate(at)
  {
  }

  lemma NewAttemptFollowsGate()
    ensures FollowsGate(NewAttempt(false)) && FollowsGate(NewAttempt(true))
  {
  }

  lemma CloseFollowsGate(w: World)
    requires Settling(w) && FollowsGate(Last(w).at)
    ensures FollowsGate(Last(Step(w, ClientClose)).at)
  {
    hide OnChunks, SceneOk, SettleOk;
  }

  /** The chunks the response was held back with and those passed on since. */
  function Shown(at: Attempt): seq<seq<Byte>> {
    at.flow.delivered + at.flow.pending
  }

  /** A streaming request's response is committed exactly on the gate's word: if and only if the gate
      commits on the chunks shown to it, which are all that came before the attempt ended, and the
      adapter, if there is to be one, can be built. With a prefix in the first 64 KiB, that means for
      a headerless response that its first data event ends within 8 MiB. */
  lemma CommittedOnTheGatesWord(inputs: seq<Input>)
    ensures Run(inputs).attempts != []
    ensures var at := Last(Run(inputs)).at;
            at.stage == Streaming && at.shape.gated ==>
              && (at.flow.committed <==>
                    OnChunks(at.shape.mode, Shown(at)) == Committed && at.shape.adapter != BrokenAdapter)
              && Shown(at) <= at.flow.received
              && (at.flow.committed || at.terminal.None? ==> Shown(at) == at.flow.received)
    ensures var at := Last(Run(inputs)).at;
            var bytes := Concat(Shown(at));
            at.stage == Streaming && at.shape.gated && at.shape.mode == Inferable && at.shape.adapter != BrokenAdapter
            && PrefixEnd(bytes[..Min(|bytes|, PENDING_CAP)]).Some? ==>
              (at.flow.committed <==> Within(DataEventEnd(bytes, 0), INFERRED_EVENT_CAP))
  {
    hide OnChunks, Run;
    RunFollowsGate(inputs);
    DeliveredInOrder(inputs);
    RunFlow(inputs);
    var at := Last(Run(inputs)).at;
    assert at.flow.committed ==> Shown(at) == at.flow.received;
    assert at.stage == Streaming && !at.flow.committed ==> Shown(at) == at.flow.pending;
    var bytes := Concat(Shown(at));
    if at.shape.mode == Inferable && PrefixEnd(bytes[..Min(|bytes|, PENDING_CAP)]).Some? {
      InferenceIgnoresChunking(Shown(at));
    }
  }

  lemma RunFlow(inputs: seq<Input>)
    ensures Run(inputs).attempts != []
    ensures var at := Last(Run(inputs)).at; at.stage == Streaming && !at.flow.committed ==> at.flow.delivered == []
  {
    hide Run;
    RunOk(inputs);
    NothingDelivered(Run(inputs));
  }

  lemma NothingDelivered(w: World)
    requires WorldOk(w)
    ensures var at := Last(w).at; at.stage == Streaming && !at.flow.committed ==> at.flow.delivered == []
  {
    hide GuardOk, SinkOk, EndsOk, HeadsOk;
  }

  // ---- when the observer is told ----------------------------------------------------------------------------

  /** The gate rejects the chunks shown to it, or commits, or there is none, and the adapter to commit
      with cannot be built. */
  predicate MustTurnDown(at: Attempt) {
    at.stage == Streaming && !at.flow.committed &&
    if at.shape.gated then
      var verdict := OnChunks(at.shape.mode, at.flow.pending);
      verdict.Rejected? || (verdict == Committed && at.shape.adapter == BrokenAdapter)
    else at.shape.adapter == BrokenAdapter && Success(at.shape.status)
  }

  /** The response was turned down exactly if its bytes or its adapter say so. */
  lemma TurnedDownExactly(inputs: seq<Input>)
    ensures Run(inputs).attempts != []
    ensures Last(Run(inputs)).at.turnedDown <==> MustTurnDown(Last(Run(inputs)).at)
  {
    hide OnChunks, Run;
    RunFollowsGate(inputs);
  }

  /** Exactly when the lifecycle observer hears how a request ended. Once the client's response is over
      it has been told so, unless the gate turned the response down on its bytes or no adapter could be
      built for it; then it is never told. While a local handler holds the response it has been told
      exactly if the client hung up before the handler ended the response. */
  lemma ToldExactly(inputs: seq<Input>)
    ensures var w := Run(inputs);
            && w.attempts != []
            && (w.asking != Handling && Over(w.client) ==>
                  && (w.guard.settled <==> !MustTurnDown(Last(w).at))
                  && (MustTurnDown(Last(w).at) ==> w.guard.told == [Began]))
            && (w.asking == Handling ==> (w.guard.settled <==> w.closing == HungUp))
  {
    hide Run, MustTurnDown;
    RunSettles(inputs);
    TurnedDownExactly(inputs);
    var w := Run(inputs);
    SettledOrNot(w);
  }

  lemma SettledOrNot(w: World)
    requires Settling(w)
    ensures w.asking != Handling && Over(w.client) ==>
              (w.guard.settled <==> !Last(w).at.turnedDown) && (Last(w).at.turnedDown ==> w.guard.told == [Began])
  {
  }

  /** Such a run: an answer to a streaming request with neither an SSE type nor a prefix. */
  lemma TurnedDownIsSilent(chunk: seq<Byte>)
    requires |chunk| > PENDING_CAP
    ensures var w := Run([Upstream(0, Response(200, false, true, NotSse, false, NoAdapter, false)),
            Upstream(0, Data(chunk))]);
            Over(w.client) && w.client.heads == 1 && !w.guard.settled
  {
    var first, second := Upstream(0, Response(200, false, true, NotSse, false, NoAdapter, false)),
        Upstream(0, Data(chunk));
    assert [first, second][..1] == [first] && [first][..0] == [];
    var w := Step(Initial(), first);
    assert Run([first]) == w;
    var s := SceneOf(w, 0);
    assert Concat([chunk]) == chunk && [] + [chunk] == [chunk];
    assert Judge(NotSse, Concat(s.at.flow.pending + [chunk])) == Rejected(NonSseStreamResponse);
  }

  // ---- a local handler at the retry gate ----------------------------------------------------------------------

  /** A 400 that the retry gate takes over with a local handler. */
  function HandedOver(): seq<Input> {
    [Upstream(0, Response(400, true, true, NotSse, false, NoAdapter, false)),
     Upstream(0, End(Recovery(true, false), true)), GateHandles]
  }

  lemma {:induction false} RunAppend(a: seq<Input>, b: seq<Input>)
    ensures Run(a + b) == StepAll(Run(a), b)
  {
    hide Step;
    if b == [] {
      assert a + b == a;
    } else {
      RunAppend(a, b[..|b| - 1]);
      assert (a + b)[..|a + b| - 1] == a + b[..|b| - 1];
    }
  }

  function StepAll(w: World, inputs: seq<Input>): World {
    if inputs == [] then w else Step(StepAll(w, inputs[..|inputs| - 1]), inputs[|inputs| - 1])
  }

  lemma StepTwice(w: World, i: Input, j: Input)
    ensures StepAll(w, [i, j]) == Step(Step(w, i), j)
  {
    hide Step;
    assert [i, j][..1] == [i] && [i][..0] == [];
    assert StepAll(w, []) == w && StepAll(w, [i]) == Step(w, i);
  }

  lemma HandedOverWorld()
    ensures var w := Run(HandedOver());
            w.asking == Handling && w.client == Client(0, [], false, false, 0) && w.guard == Guard(true, false, [Began])
            && w.closing == StillOpen && |w.attempts| == 1 && Frozen(w.attempts[0])
  {
    var all := HandedOver();
    assert all[..2][..1] == all[..1] && all[..1][..0] == [];
    var w := Step(Initial(), all[0]);
    assert Run(all[..1]) == w;
    assert Run(all[..2]) == Step(w, all[1]);
  }

  /** The defensive finish does not ask whether the client is still there: behind a client that has
      gone, a handler that returns without ending makes the proxy write a head and end. */
  lemma FinishBehindTheClient(call: LocalCall)
    requires call.Resolves? || call.Throws?
    ensures var w := Run(HandedOver() + [ClientClose, Local(call)]);
            w.client.late == 2 && w.client.heads == 1 && w.guard.told == [Began, Fell(ClientAborted)]
  {
    hide Run, HandedOver;
    HandedOverWorld();
    RunAppend(HandedOver(), [ClientClose, Local(call)]);
    StepTwice(Run(HandedOver()), ClientClose, Local(call));
    RunOk(HandedOver());
    CloseHanded(Run(HandedOver()));
  }

  /** A handler that has ended the response but not settled leaves the observer untold, even once the
      client has closed; it hears of a rejected retry when the handler settles. */
  lemma HandlerEndsUntold(chunk: seq<Byte>)
    ensures var w := Run(HandedOver() + [Local(Ends(chunk)), ClientClose]);
            Over(w.client) && !w.guard.settled && Step(w, Local(Resolves)).guard.told == [Began, Fell(RetryRejected)]
  {
    hide Run, HandedOver;
    HandedOverWorld();
    RunAppend(HandedOver(), [Local(Ends(chunk)), ClientClose]);
    StepTwice(Run(HandedOver()), Local(Ends(chunk)), ClientClose);
    RunOk(HandedOver());
    GateOk(Run(HandedOver()), Local(Ends(chunk)));
    CloseHanded(Step(Run(HandedOver()), Local(Ends(chunk))));
  }
}
