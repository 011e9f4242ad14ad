/** The Responses-to-Messages state machine of translate-sse.ts as a function on states.
    A state carries, beside the translator's own fields, two histories: the events handed to
    `handleEvent` so far and the events emitted so far. */
module Translation {
  import opened JsText
  import opened Protocol

  datatype Kind = Thinking | Text | Tool

  datatype Block = Block(index: int, kind: Kind, live: bool, argsSent: nat, pending: string)

  datatype State = State(
    started: bool,
    finished: bool,
    next: nat,
    hasToolUse: bool,
    blocks: map<int, Block>,
    order: seq<int>,          // the insertion order of the `blocks` Map
    open: Option<int>,
    deferred: seq<Upstream>,
    handled: seq<Upstream>,
    sent: seq<Sent>)

  const INITIAL := State(false, false, 0, false, map[], [], None, [], [], [])

  function Emit(s: State, item: Option<int>, wire: Wire): State {
    s.(sent := s.sent + [Sent(item, wire)])
  }

  function SetBlock(s: State, i: int, b: Block): State {
    s.(blocks := s.blocks[i := b])
  }

  /** `blocks.set` of a key the Map does not have yet. */
  function Register(s: State, i: int, b: Block): State {
    s.(blocks := s.blocks[i := b], order := s.order + [i])
  }

  predicate Is(s: State, i: int, kind: Kind) {
    i in s.blocks && s.blocks[i].kind == kind
  }

  /** What no handler of an item event touches. */
  predicate Keeps(s: State, t: State) {
    t.finished == s.finished && t.deferred == s.deferred && t.handled == s.handled && (s.started ==> t.started)
  }

  // ---- handlers --------------------------------------------------------------------------

  function EnsureStart(s: State): State {
    if s.started then s else Emit(s.(started := true), None, MessageStart)
  }

  /** Emits `content_block_stop` for item i and marks its block closed. */
  function StopBlock(s: State, i: int): State
    requires i in s.blocks
  {
    SetBlock(Emit(s, Some(i), BlockStop(s.blocks[i].index)), i, s.blocks[i].(live := false))
  }

  /** `closeOpenBlockForOtherItem` */
  function CloseOther(s: State, i: int): (t: State)
    ensures Keeps(s, t)
  {
    if s.open.None? || s.open.value == i then s else
    var k := s.open.value;
    (if k in s.blocks && s.blocks[k].live then StopBlock(s, k) else s).(open := None)
  }

  function ToolId(item: Item, index: nat): string {
    if item.callId.Some? then item.callId.value
    else if item.id.Some? then item.id.value
    else "call_" + Decimal(index)
  }

  function OpenTool(s: State, i: int, item: Item): State {
    Emit(Register(s, i, Block(s.next, Tool, true, 0, "")).(next := s.next + 1, open := Some(i), hasToolUse := true),
         Some(i), BlockStart(s.next, ToolHead(ToolId(item, s.next), item.name)))
  }

  /** `onItemAdded` after its `ensureMessageStart`. */
  function OnItemAdded(s: State, i: int, item: Item): (t: State)
    ensures Keeps(s, t)
  {
    if i in s.blocks then s else
    match item.itemType
    case ReasoningType => Register(s, i, Block(-1, Thinking, false, 0, ""))
    case MessageType => Register(s, i, Block(-1, Text, false, 0, ""))
    case FunctionCallType => OpenTool(CloseOther(s, i), i, item)
    case OtherType => s
  }

  /** Opens the lazily opened text or thinking block of item i with its first delta. */
  function OpenWith(s: State, i: int, head: Head, delta: Delta): State
    requires i in s.blocks
  {
    var b := s.blocks[i].(index := s.next, live := true, pending := "");
    var o := SetBlock(s, i, b).(next := s.next + 1, open := Some(i));
    Emit(Emit(o, Some(i), BlockStart(s.next, head)), Some(i), BlockDelta(s.next, delta))
  }

  function OnTextDelta(s: State, i: int, delta: string): (t: State)
    ensures Keeps(s, t)
  {
    if !Is(s, i, Text) || delta == "" then s else
    var b := s.blocks[i];
    if b.live then Emit(s, Some(i), BlockDelta(b.index, TextD(delta))) else
    var pending := b.pending + delta;
    if Blank(pending) then SetBlock(s, i, b.(pending := pending))
    else OpenWith(CloseOther(s, i), i, TextHead, TextD(pending))
  }

  function OnSummaryDelta(s: State, i: int, delta: string): (t: State)
    ensures Keeps(s, t)
  {
    if !Is(s, i, Thinking) then s else
    var b := s.blocks[i];
    if b.live then (if delta == "" then s else Emit(s, Some(i), BlockDelta(b.index, ThinkingD(delta)))) else
    var c := CloseOther(s, i).(open := Some(i));
    var pending := b.pending + delta;
    if Blank(pending) then SetBlock(c, i, b.(pending := pending))
    else OpenWith(c, i, ThinkingHead, ThinkingD(pending))
  }

  function OnArgsDelta(s: State, i: int, delta: string): (t: State)
    ensures Keeps(s, t)
  {
    if !Is(s, i, Tool) || !s.blocks[i].live || delta == "" then s else
    var b := s.blocks[i];
    Emit(SetBlock(s, i, b.(argsSent := b.argsSent + |delta|)), Some(i), BlockDelta(b.index, JsonD(delta)))
  }

  /** The provider-tagged reasoning blob that item.done carries: `<prefix>#id=<id>#<encrypted>`. */
  function Blob(prefix: string, item: Item): string {
    if item.encrypted == "" then ""
    else prefix + (if item.id.Some? && item.id.value != "" then "#id=" + item.id.value + "#" else "") + item.encrypted
  }

  function Release(s: State, i: int): State {
    if s.open == Some(i) then s.(open := None) else s
  }

  /** A redacted_thinking block, started and stopped at once. */
  function SendSealed(s: State, i: int, blob: string): State
    requires i in s.blocks
  {
    var o := SetBlock(s, i, s.blocks[i].(index := s.next)).(next := s.next + 1);
    Emit(Emit(o, Some(i), BlockStart(s.next, RedactedHead(blob))), Some(i), BlockStop(s.next))
  }

  function ThinkingDone(s: State, i: int, blob: string): (t: State)
    requires i in s.blocks
    ensures Keeps(s, t) && i in t.blocks
  {
    var b := s.blocks[i];
    if b.live then
      var signed := if blob == "" then s else Emit(s, Some(i), BlockDelta(b.index, SignatureD(blob)));
      StopBlock(signed, i)
    else if blob != "" then SendSealed(CloseOther(s, i), i, blob)
    else s
  }

  /** The arguments of item.done that the deltas did not deliver. */
  function MissingArgs(b: Block, item: Item): string {
    if b.kind == Tool && |item.arguments| > b.argsSent then item.arguments[b.argsSent..] else ""
  }

  function SendMissingArgs(s: State, i: int, item: Item): State
    requires i in s.blocks
  {
    var b := s.blocks[i];
    var missing := MissingArgs(b, item);
    if missing == "" then s
    else Emit(SetBlock(s, i, b.(argsSent := |item.arguments|)), Some(i), BlockDelta(b.index, JsonD(missing)))
  }

  function Settle(s: State, i: int): (t: State)
    requires i in s.blocks
    ensures Keeps(s, t)
  {
    Release(SetBlock(s, i, s.blocks[i].(pending := "")), i)
  }

  /** item.done of an open text or tool_use block. */
  function FinishBlock(s: State, i: int, item: Item): (t: State)
    requires i in s.blocks
    ensures Keeps(s, t)
  {
    Release(StopBlock(SendMissingArgs(s, i, item), i), i)
  }

  function OnItemDone(prefix: string, s: State, i: int, item: Item): (t: State)
    ensures Keeps(s, t)
  {
    if i !in s.blocks then s
    else if s.blocks[i].kind == Thinking then Settle(ThinkingDone(s, i, Blob(prefix, item)), i)
    else if s.blocks[i].live then FinishBlock(s, i, item)
    else s
  }

  /** `handleEvent` for the events that do not end the stream. */
  function HandleOpen(prefix: string, s0: State, e: Upstream): (t: State)
    ensures Keeps(s0.(handled := s0.handled + [e]), t)
  {
    var s := s0.(handled := s0.handled + [e]);
    match e
    case Noted => EnsureStart(s)
    case ItemAdded(i, item) => OnItemAdded(EnsureStart(s), i, item)
    case TextDelta(i, d) => OnTextDelta(s, i, d)
    case SummaryDelta(i, d) => OnSummaryDelta(s, i, d)
    case ArgsDelta(i, d) => OnArgsDelta(s, i, d)
    case ItemDone(i, item) => OnItemDone(prefix, s, i, item)
    case _ => s
  }

  // ---- ending the stream -----------------------------------------------------------------

  /** `drainDeferred(out, true)`: plain first-in-first-out. */
  function ForceDrain(prefix: string, s: State): State
    decreases |s.deferred|
  {
    if s.deferred == [] then s
    else ForceDrain(prefix, HandleOpen(prefix, s.(deferred := s.deferred[1..]), s.deferred[0]))
  }

  /** The loop of `closeAllOpenBlocks` over the Map's keys from position n on. */
  function StopAll(s: State, n: nat): State
    decreases |s.order| - n
  {
    if n >= |s.order| then s
    else
      var k := s.order[n];
      if k in s.blocks && s.blocks[k].live && s.blocks[k].index >= 0 then StopAll(StopBlock(s, k), n + 1)
      else StopAll(s, n + 1)
  }

  /** `closeAllOpenBlocks` */
  function CloseAll(s: State): State {
    StopAll(s, 0).(open := None)
  }

  function StopReasonOf(s: State, ending: Ending): StopReason {
    if ending.incomplete && ending.maxTokens then MaxTokens else if s.hasToolUse then ToolUse else EndTurn
  }

  function OnCompleted(prefix: string, s: State, ending: Ending): State {
    if s.finished then s else
    var c := CloseAll(ForceDrain(prefix, EnsureStart(s)));
    Emit(Emit(c, None, MessageDelta(StopReasonOf(c, ending))), None, MessageStop).(finished := true)
  }

  /** `emitFailure` behind the `finished` guard that both `fail()` and `onFailed` put before it. */
  function Fail(prefix: string, s: State, message: string): State {
    if s.finished then s
    else Emit(CloseAll(ForceDrain(prefix, s)), None, ErrorEvent(message)).(finished := true)
  }

  function Handle(prefix: string, s: State, e: Upstream): State {
    match e
    case Completed(ending) => OnCompleted(prefix, s.(handled := s.handled + [e]), ending)
    case Failed(message) => Fail(prefix, s.(handled := s.handled + [e]), message)
    case _ => HandleOpen(prefix, s, e)
  }

  // ---- deferral --------------------------------------------------------------------------

  predicate Uninterruptible(s: State) {
    s.open.Some? && s.open.value in s.blocks && s.blocks[s.open.value].kind != Text
  }

  predicate ShouldDefer(s: State, e: Upstream) {
    Deferrable(e) && Uninterruptible(s) && e.index != s.open.value
  }

  /** Position of the first queued event that can be processed now, or the queue's length. */
  function FirstReady(s: State, queue: seq<Upstream>): (n: nat)
    ensures n <= |queue|
    ensures forall i | 0 <= i < n :: ShouldDefer(s, queue[i])
    ensures n < |queue| ==> !ShouldDefer(s, queue[n])
  {
    if queue == [] || !ShouldDefer(s, queue[0]) then 0 else 1 + FirstReady(s, queue[1..])
  }

  /** The state with the n-th queued event taken out. */
  function TakeOut(s: State, n: nat): State
    requires n < |s.deferred|
  {
    s.(deferred := s.deferred[..n] + s.deferred[n + 1..])
  }

  /** `drainDeferred(out, false)`: handles the first ready event until none is. */
  function Drain(prefix: string, s: State): State
    decreases |s.deferred|
  {
    var n := FirstReady(s, s.deferred);
    if n == |s.deferred| then s
    else Drain(prefix, HandleOpen(prefix, TakeOut(s, n), s.deferred[n]))
  }

  function Push(prefix: string, s: State, e: Upstream): State {
    if ShouldDefer(s, e) then s.(deferred := s.deferred + [e])
    else Drain(prefix, Handle(prefix, s, e))
  }

  // ---- runs ------------------------------------------------------------------------------

  /** One call on the translator's public interface; `finish()` is `Abort` with its own message. */
  datatype Call = Feed(event: Upstream) | Abort(message: string)

  function Apply(prefix: string, s: State, c: Call): State {
    match c
    case Feed(e) => Push(prefix, s, e)
    case Abort(message) => Fail(prefix, s, message)
  }

  function RunFrom(prefix: string, s: State, calls: seq<Call>): State {
    if calls == [] then s else Apply(prefix, RunFrom(prefix, s, calls[..|calls| - 1]), calls[|calls| - 1])
  }

  function Run(prefix: string, calls: seq<Call>): State {
    RunFrom(prefix, INITIAL, calls)
  }

  lemma RunSnoc(prefix: string, s: State, calls: seq<Call>, c: Call)
    ensures RunFrom(prefix, s, calls + [c]) == Apply(prefix, RunFrom(prefix, s, calls), c)
  {
    assert (calls + [c])[..|calls|] == calls;
  }

  lemma {:induction false} RunAppend(prefix: string, s: State, a: seq<Call>, b: seq<Call>)
    ensures RunFrom(prefix, s, a + b) == RunFrom(prefix, RunFrom(prefix, s, a), b)
  {
    hide Apply;
    if b == [] {
      assert a + b == a;
    } else {
      RunAppend(prefix, s, a, b[..|b| - 1]);
      assert (a + b)[..|a + b| - 1] == a + b[..|b| - 1];
    }
  }
}
