/** The Messages streaming grammar as an acceptor of traces, and the proof that every run of the
    translator is accepted by it: interleaved, force-drained, aborted or fed after its end. */
module Bracketing {
  import opened JsText
  import opened Protocol
  import opened Translation

  // ---- the grammar -----------------------------------------------------------------------

  datatype Shape = TextShape | ThinkingShape | RedactedShape | ToolShape

  function ShapeOf(head: Head): Shape {
    match head
    case TextHead => TextShape
    case ThinkingHead => ThinkingShape
    case RedactedHead(_) => RedactedShape
    case ToolHead(_, _) => ToolShape
  }

  /** The open block; `begun` once nothing more has to come before it may stop. */
  datatype OpenBlock = OpenBlock(item: int, index: int, shape: Shape, begun: bool)

  /** What a reader of the stream knows: `count` blocks were started, `tools` says whether one of
      them was a tool_use, `closing` that a message_delta awaits its message_stop. */
  datatype Reader = Reader(started: bool, ended: bool, count: nat, tools: bool, open: Option<OpenBlock>, closing: bool)

  const FRESH := Reader(false, false, 0, false, None, false)

  /** May delta d come next in block b? A text or thinking block begins with non-blank text. */
  predicate Fits(b: OpenBlock, d: Delta) {
    match d
    case TextD(t) => b.shape == TextShape && (b.begun || !Blank(t))
    case ThinkingD(t) => b.shape == ThinkingShape && (b.begun || !Blank(t))
    case SignatureD(_) => b.shape == ThinkingShape && b.begun
    case JsonD(_) => b.shape == ToolShape
  }

  predicate StopReasonFits(r: Reader, reason: StopReason) {
    (reason == ToolUse ==> r.tools) && (reason == EndTurn ==> !r.tools)
  }

  /** May x come next? */
  predicate Allowed(r: Reader, x: Sent) {
    match x.wire
    case MessageStart => !r.closing && x.item == None && !r.started && r.count == 0
    case BlockStart(n, _) => !r.closing && x.item.Some? && r.started && r.open.None? && n == r.count
    case BlockDelta(n, d) =>
      !r.closing && r.open.Some? && x.item == Some(r.open.value.item) && n == r.open.value.index
          && Fits(r.open.value, d)
    case BlockStop(n) =>
      !r.closing && r.open.Some? && x.item == Some(r.open.value.item) && n == r.open.value.index && r.open.value.begun
    case MessageDelta(reason) =>
      !r.closing && x.item == None && r.started && !r.ended && r.open.None? && StopReasonFits(r, reason)
    case MessageStop => r.closing && x.item == None && !r.ended
    case ErrorEvent(_) => !r.closing && x.item == None && !r.ended && r.open.None?
  }

  function Next(r: Reader, x: Sent): Reader
    requires Allowed(r, x)
  {
    match x.wire
    case MessageStart => r.(started := true)
    case BlockStart(n, head) =>
      var shape := ShapeOf(head);
      r.(count := r.count + 1, tools := r.tools || shape == ToolShape,
         open := Some(OpenBlock(x.item.value, n, shape, shape == ToolShape || shape == RedactedShape)))
    case BlockDelta(_, _) => r.(open := Some(r.open.value.(begun := true)))
    case BlockStop(_) => r.(open := None)
    case MessageDelta(_) => r.(closing := true)
    case MessageStop => r.(closing := false, ended := true)
    case ErrorEvent(_) => r.(ended := true)
  }

  /** The reader's state after a trace, None if some event came where it may not. */
  function Read(trace: seq<Sent>): Option<Reader> {
    if trace == [] then Some(FRESH)
    else
      var x := trace[|trace| - 1];
      match Read(trace[..|trace| - 1])
      case None => None
      case Some(r) => if Allowed(r, x) then Some(Next(r, x)) else None
  }

  lemma ReadSnoc(trace: seq<Sent>, r: Reader, x: Sent)
    requires Read(trace) == Some(r) && Allowed(r, x)
    ensures Read(trace + [x]) == Some(Next(r, x))
  {
    assert (trace + [x])[..|trace|] == trace;
  }

  // ---- the translator's state is its reader's state ----------------------------------------

  function ShapeOfKind(kind: Kind): Shape {
    match kind case Thinking => ThinkingShape case Text => TextShape case Tool => ToolShape
  }

  predicate Consistent(s: State) {
    && (forall k <- s.blocks :: s.blocks[k].live ==>
          s.open == Some(k) && s.blocks[k].index == s.next - 1 && s.blocks[k].index >= 0 && s.blocks[k].pending == "")
    && (s.open.Some? ==>
          s.open.value in s.blocks && (s.blocks[s.open.value].kind != Thinking ==> s.blocks[s.open.value].live))
    && (forall k <- s.blocks :: k in s.order && Blank(s.blocks[k].pending))
    && (s.blocks != map[] ==> s.started)
    && (s.next > 0 ==> s.started)
    && (forall e <- s.deferred :: Deferrable(e))
  }

  function ReaderOf(s: State): Reader {
    Reader(s.started, s.finished, s.next, s.hasToolUse,
           if s.open.Some? && s.open.value in s.blocks && s.blocks[s.open.value].live then
             Some(OpenBlock(s.open.value, s.blocks[s.open.value].index, ShapeOfKind(s.blocks[s.open.value].kind), true))
           else None,
           false)
  }

  ghost predicate Good(s: State) {
    Consistent(s) && Read(s.sent) == Some(ReaderOf(s))
  }

  lemma EnsureStartGood(s: State)
    requires Good(s)
    ensures Good(EnsureStart(s)) && EnsureStart(s).started
  {
    if !s.started {
      ReadSnoc(s.sent, ReaderOf(s), Sent(None, MessageStart));
    }
  }

  lemma StopBlockGood(s: State, i: int)
    requires Good(s) && i in s.blocks && s.blocks[i].live
    ensures Good(StopBlock(s, i).(open := None))
    ensures Read(StopBlock(s, i).sent) == Some(ReaderOf(s).(open := None))
  {
    ReadSnoc(s.sent, ReaderOf(s), Sent(Some(i), BlockStop(s.blocks[i].index)));
  }

  lemma CloseOtherGood(s: State, i: int)
    requires Good(s)
    ensures Good(CloseOther(s, i))
    ensures CloseOther(s, i).open.Some? ==> CloseOther(s, i).open == Some(i)
  {
    if s.open.Some? && s.open.value != i && s.blocks[s.open.value].live {
      StopBlockGood(s, s.open.value);
    }
  }

  lemma OpenToolGood(s: State, i: int, item: Item)
    requires Good(s) && s.started && s.open.None? && i !in s.blocks
    ensures Good(OpenTool(s, i, item))
  {
    ReadSnoc(s.sent, ReaderOf(s), Sent(Some(i), BlockStart(s.next, ToolHead(ToolId(item, s.next), item.name))));
  }

  lemma RegisterGood(s: State, i: int, kind: Kind)
    requires Good(s) && s.started && i !in s.blocks
    ensures Good(Register(s, i, Block(-1, kind, false, 0, "")))
  {
  }

  lemma OnItemAddedGood(s: State, i: int, item: Item)
    requires Good(s) && s.started
    ensures Good(OnItemAdded(s, i, item))
  {
    if i !in s.blocks {
      match item.itemType
      case ReasoningType => RegisterGood(s, i, Thinking);
      case MessageType => RegisterGood(s, i, Text);
      case FunctionCallType =>
        CloseOtherGood(s, i);
        OpenToolGood(CloseOther(s, i), i, item);
      case OtherType =>
    }
  }

  lemma OpenWithGood(s: State, i: int, head: Head, delta: Delta)
    requires Good(s) && i in s.blocks && ReaderOf(s).open == None && (s.open.Some? ==> s.open == Some(i))
    requires s.blocks[i].kind != Tool
    requires ShapeOf(head) == ShapeOfKind(s.blocks[i].kind) && Fits(OpenBlock(i, s.next, ShapeOf(head), false), delta)
    ensures Good(OpenWith(s, i, head, delta))
  {
    hide Read;
    var r := ReaderOf(s);
    var x := Sent(Some(i), BlockStart(s.next, head));
    ReadSnoc(s.sent, r, x);
    ReadSnoc(s.sent + [x], Next(r, x), Sent(Some(i), BlockDelta(s.next, delta)));
  }

  lemma DeltaGood(s: State, i: int, d: Delta)
    requires Good(s) && i in s.blocks && s.blocks[i].live
    requires Fits(OpenBlock(i, s.blocks[i].index, ShapeOfKind(s.blocks[i].kind), true), d)
    ensures Good(Emit(s, Some(i), BlockDelta(s.blocks[i].index, d)))
  {
    ReadSnoc(s.sent, ReaderOf(s), Sent(Some(i), BlockDelta(s.blocks[i].index, d)));
  }

  lemma OnTextDeltaGood(s: State, i: int, delta: string)
    requires Good(s)
    ensures Good(OnTextDelta(s, i, delta))
  {
    hide Read;
    if Is(s, i, Text) && delta != "" {
      if s.blocks[i].live {
        DeltaGood(s, i, TextD(delta));
      } else {
        CloseOtherGood(s, i);
        var pending := s.blocks[i].pending + delta;
        if !Blank(pending) {
          OpenWithGood(CloseOther(s, i), i, TextHead, TextD(pending));
        }
      }
    }
  }

  lemma OnSummaryDeltaGood(s: State, i: int, delta: string)
    requires Good(s)
    ensures Good(OnSummaryDelta(s, i, delta))
  {
    hide Read;
    if Is(s, i, Thinking) {
      if s.blocks[i].live {
        DeltaGood(s, i, ThinkingD(delta));
      } else {
        CloseOtherGood(s, i);
        var pending := s.blocks[i].pending + delta;
        if !Blank(pending) {
          OpenWithGood(CloseOther(s, i).(open := Some(i)), i, ThinkingHead, ThinkingD(pending));
        }
      }
    }
  }

  lemma OnArgsDeltaGood(s: State, i: int, delta: string)
    requires Good(s)
    ensures Good(OnArgsDelta(s, i, delta))
  {
    if Is(s, i, Tool) && s.blocks[i].live {
      DeltaGood(s, i, JsonD(delta));
    }
  }

  lemma SendSealedGood(s: State, i: int, blob: string)
    requires Good(s) && Is(s, i, Thinking) && !s.blocks[i].live && (s.open.Some? ==> s.open == Some(i))
    ensures Good(SendSealed(s, i, blob)) && i in SendSealed(s, i, blob).blocks
  {
    hide Read;
    var r := ReaderOf(s);
    var x := Sent(Some(i), BlockStart(s.next, RedactedHead(blob)));
    ReadSnoc(s.sent, r, x);
    ReadSnoc(s.sent + [x], Next(r, x), Sent(Some(i), BlockStop(s.next)));
  }

  lemma ThinkingDoneGood(s: State, i: int, blob: string)
    requires Good(s) && Is(s, i, Thinking)
    ensures Good(ThinkingDone(s, i, blob)) && Is(ThinkingDone(s, i, blob), i, Thinking)
    ensures !ThinkingDone(s, i, blob).blocks[i].live
  {
    if s.blocks[i].live {
      var t := if blob == "" then s else Emit(s, Some(i), BlockDelta(s.blocks[i].index, SignatureD(blob)));
      if blob != "" {
        DeltaGood(s, i, SignatureD(blob));
      }
      StopBlockGood(t, i);
    } else if blob != "" {
      CloseOtherGood(s, i);
      SendSealedGood(CloseOther(s, i), i, blob);
    }
  }

  lemma SettledGood(s: State, i: int)
    requires Good(s) && Is(s, i, Thinking) && !s.blocks[i].live
    ensures Good(Settle(s, i))
  {
  }

  lemma OnItemDoneGood(prefix: string, s: State, i: int, item: Item)
    requires Good(s)
    ensures Good(OnItemDone(prefix, s, i, item))
  {
    if i in s.blocks {
      if s.blocks[i].kind == Thinking {
        ThinkingDoneGood(s, i, Blob(prefix, item));
        SettledGood(ThinkingDone(s, i, Blob(prefix, item)), i);
      } else if s.blocks[i].live {
        var m := SendMissingArgs(s, i, item);
        if MissingArgs(s.blocks[i], item) != "" {
          DeltaGood(s, i, JsonD(MissingArgs(s.blocks[i], item)));
        }
        StopBlockGood(m, i);
      }
    }
  }

  lemma HandleOpenGood(prefix: string, s: State, e: Upstream)
    requires Good(s)
    ensures Good(HandleOpen(prefix, s, e))
  {
    var h := s.(handled := s.handled + [e]);
    match e
    case Noted => EnsureStartGood(h);
    case ItemAdded(i, item) =>
      EnsureStartGood(h);
      OnItemAddedGood(EnsureStart(h), i, item);
    case TextDelta(i, d) => OnTextDeltaGood(h, i, d);
    case SummaryDelta(i, d) => OnSummaryDeltaGood(h, i, d);
    case ArgsDelta(i, d) => OnArgsDeltaGood(h, i, d);
    case ItemDone(i, item) => OnItemDoneGood(prefix, h, i, item);
    case _ =>
  }

  // ---- ending, draining, running -----------------------------------------------------------

  lemma {:induction false} StopAllIdle(s: State, n: nat)
    requires forall k <- s.blocks :: !s.blocks[k].live
    ensures StopAll(s, n) == s
    decreases |s.order| - n
  {
    if n < |s.order| {
      StopAllIdle(s, n + 1);
    }
  }

  lemma {:induction false} StopAllOne(s: State, n: nat, m: nat)
    requires n <= m < |s.order| && s.order[m] in s.blocks
    requires forall k <- s.blocks :: s.blocks[k].live <==> k == s.order[m]
    requires s.blocks[s.order[m]].index >= 0
    ensures StopAll(s, n) == StopBlock(s, s.order[m])
    decreases m - n
  {
    if s.order[n] == s.order[m] {
      StopAllIdle(StopBlock(s, s.order[n]), n + 1);
    } else {
      StopAllOne(s, n + 1, m);
    }
  }

  /** At most one block is open when the stream ends, so `closeAllOpenBlocks` stops at most one. */
  lemma CloseAllStopsTheOpenBlock(s: State)
    requires Consistent(s)
    ensures CloseAll(s) == (if ReaderOf(s).open.Some? then StopBlock(s, s.open.value) else s).(open := None)
  {
    if ReaderOf(s).open.Some? {
      var m :| 0 <= m < |s.order| && s.order[m] == s.open.value;
      StopAllOne(s, 0, m);
    } else {
      StopAllIdle(s, 0);
    }
  }

  lemma CloseAllGood(s: State)
    requires Good(s)
    ensures Good(CloseAll(s)) && CloseAll(s).open == None
  {
    CloseAllStopsTheOpenBlock(s);
    if ReaderOf(s).open.Some? {
      StopBlockGood(s, s.open.value);
    }
  }

  lemma {:induction false} ForceDrainKeeps(prefix: string, s: State)
    ensures var t := ForceDrain(prefix, s);
            && t.deferred == [] && t.handled == s.handled + s.deferred
            && t.finished == s.finished && (s.started ==> t.started)
    decreases |s.deferred|
  {
    if s.deferred != [] {
      ForceDrainKeeps(prefix, HandleOpen(prefix, s.(deferred := s.deferred[1..]), s.deferred[0]));
    }
  }

  lemma {:induction false} ForceDrainGood(prefix: string, s: State)
    requires Good(s)
    ensures Good(ForceDrain(prefix, s))
    decreases |s.deferred|
  {
    if s.deferred != [] {
      var p := s.(deferred := s.deferred[1..]);
      assert Good(p);
      HandleOpenGood(prefix, p, s.deferred[0]);
      ForceDrainGood(prefix, HandleOpen(prefix, p, s.deferred[0]));
    }
  }

  lemma TakeOutGood(s: State, n: nat)
    requires Good(s) && n < |s.deferred|
    ensures Good(TakeOut(s, n))
  {
  }

  lemma {:induction false} DrainGood(prefix: string, s: State)
    requires Good(s)
    ensures Good(Drain(prefix, s)) && Drain(prefix, s).finished == s.finished
    decreases |s.deferred|
  {
    var n := FirstReady(s, s.deferred);
    if n < |s.deferred| {
      TakeOutGood(s, n);
      HandleOpenGood(prefix, TakeOut(s, n), s.deferred[n]);
      DrainGood(prefix, HandleOpen(prefix, TakeOut(s, n), s.deferred[n]));
    }
  }

  lemma EndedGood(s: State, w: seq<Sent>, r: Reader)
    requires Good(s) && s.open == None && Read(s.sent + w) == Some(r) && r == ReaderOf(s).(ended := true)
    ensures Good(s.(sent := s.sent + w, finished := true))
  {
  }

  lemma FailGood(prefix: string, s: State, message: string)
    requires Good(s)
    ensures Good(Fail(prefix, s, message))
  {
    if !s.finished {
      ForceDrainGood(prefix, s);
      ForceDrainKeeps(prefix, s);
      var d := ForceDrain(prefix, s);
      CloseAllGood(d);
      CloseAllStopsTheOpenBlock(d);
      var c := CloseAll(d);
      var x := Sent(None, ErrorEvent(message));
      ReadSnoc(c.sent, ReaderOf(c), x);
      EndedGood(c, [x], Next(ReaderOf(c), x));
    }
  }

  lemma OnCompletedGood(prefix: string, s: State, ending: Ending)
    requires Good(s)
    ensures Good(OnCompleted(prefix, s, ending))
  {
    hide ForceDrain, CloseAll, Read;
    if !s.finished {
      var b := EnsureStart(s);
      EnsureStartGood(s);
      ForceDrainGood(prefix, b);
      ForceDrainKeeps(prefix, b);
      var d := ForceDrain(prefix, b);
      CloseAllGood(d);
      CloseAllStopsTheOpenBlock(d);
      var c := CloseAll(d);
      var x, y := Sent(None, MessageDelta(StopReasonOf(c, ending))), Sent(None, MessageStop);
      var r := ReaderOf(c);
      ReadSnoc(c.sent, r, x);
      ReadSnoc(c.sent + [x], Next(r, x), y);
      assert c.sent + [x] + [y] == c.sent + [x, y];
      EndedGood(c, [x, y], Next(Next(r, x), y));
    }
  }

  lemma HandleGood(prefix: string, s: State, e: Upstream)
    requires Good(s)
    ensures Good(Handle(prefix, s, e))
  {
    match e
    case Completed(ending) => OnCompletedGood(prefix, s.(handled := s.handled + [e]), ending);
    case Failed(message) => FailGood(prefix, s.(handled := s.handled + [e]), message);
    case _ => HandleOpenGood(prefix, s, e);
  }

  lemma ApplyGood(prefix: string, s: State, c: Call)
    requires Good(s)
    ensures Good(Apply(prefix, s, c))
  {
    match c
    case Feed(e) =>
      if !ShouldDefer(s, e) {
        HandleGood(prefix, s, e);
        DrainGood(prefix, Handle(prefix, s, e));
      }
    case Abort(message) => FailGood(prefix, s, message);
  }

  /** Bracketing, for every sequence of calls: the trace is accepted by the grammar, and the
      reader ends up knowing exactly the translator's open block, block count and ending. */
  lemma {:induction false} RunIsBracketed(prefix: string, calls: seq<Call>)
    ensures Good(Run(prefix, calls))
  {
    if calls != [] {
      RunIsBracketed(prefix, calls[..|calls| - 1]);
      ApplyGood(prefix, Run(prefix, calls[..|calls| - 1]), calls[|calls| - 1]);
    }
  }

  // ---- what being accepted means -------------------------------------------------------------

  function Count(trace: seq<Sent>, p: Wire -> bool): nat {
    if trace == [] then 0 else Count(trace[..|trace| - 1], p) + if p(trace[|trace| - 1].wire) then 1 else 0
  }

  /** In an accepted trace message_start and the terminal event come at most once, started blocks
      are numbered 0, 1, 2, ... and at every moment the blocks started and not yet stopped are
      at most one. */
  lemma {:induction false} AcceptedCounts(trace: seq<Sent>, r: Reader)
    requires Read(trace) == Some(r)
    ensures Count(trace, (w: Wire) => w.MessageStart?) == (if r.started then 1 else 0)
    ensures Count(trace, Terminal) == (if r.ended then 1 else 0)
    ensures Count(trace, (w: Wire) => w.BlockStart?) == r.count
    ensures Count(trace, (w: Wire) => w.BlockStop?) + (if r.open.Some? then 1 else 0) == r.count
  {
    if trace != [] {
      AcceptedCounts(trace[..|trace| - 1], Read(trace[..|trace| - 1]).value);
    }
  }

  /** Being accepted is inherited by every earlier moment of the stream. */
  lemma {:induction false} AcceptedPrefix(trace: seq<Sent>, n: nat)
    requires Read(trace).Some? && n <= |trace|
    ensures Read(trace[..n]).Some?
    ensures n < |trace| ==> Allowed(Read(trace[..n]).value, trace[n])
  {
    if n < |trace| - 1 {
      AcceptedPrefix(trace[..|trace| - 1], n);
      assert trace[..|trace| - 1][..n] == trace[..n];
    } else if n == |trace| {
      assert trace[..n] == trace;
    }
  }

  /** y brings the first text of the block x starts, and it is not blank. */
  predicate BringsText(x: Sent, y: Sent) {
    && x.wire.BlockStart? && y.wire.BlockDelta? && y.item == x.item && y.wire.index == x.wire.index
    && match x.wire.head
       case TextHead => y.wire.delta.TextD? && !Blank(y.wire.delta.text)
       case ThinkingHead => y.wire.delta.ThinkingD? && !Blank(y.wire.delta.text)
       case _ => false
  }

  /** At the n-th moment of any run: no block is open when a terminal event goes out, nothing
      precedes message_start but an error, a block starts only behind message_start and when none is
      open, with the number of blocks before it as its index, and the start of a text or thinking
      block is never the last event: its first, non-blank text follows. */
  lemma EveryMoment(prefix: string, calls: seq<Call>, n: nat)
    requires n < |Run(prefix, calls).sent|
    ensures var trace := Run(prefix, calls).sent;
            var before := trace[..n];
            var open := Count(before, (w: Wire) => w.BlockStart?) - Count(before, (w: Wire) => w.BlockStop?);
            && 0 <= open <= 1
            && (Terminal(trace[n].wire) ==> open == 0 && Count(before, Terminal) == 0)
            && (trace[n].wire.BlockStart? ==>
                  open == 0 && trace[n].wire.index == Count(before, (w: Wire) => w.BlockStart?)
                  && Count(before, (w: Wire) => w.MessageStart?) == 1)
            && (trace[n].wire.BlockStart? && (trace[n].wire.head.TextHead? || trace[n].wire.head.ThinkingHead?) ==>
                  n + 1 < |trace| && BringsText(trace[n], trace[n + 1]))
            && (trace[n].wire.BlockDelta? || trace[n].wire.BlockStop? ==>
                  open == 1 && trace[n].wire.index == Count(before, (w: Wire) => w.BlockStart?) - 1)
            && (trace[n].wire.MessageStart? ==> Count(before, (w: Wire) => w.BlockStart?) == 0)
  {
    hide Read, Run, Allowed;
    RunIsBracketed(prefix, calls);
    var trace := Run(prefix, calls).sent;
    AcceptedPrefix(trace, n);
    var r := Read(trace[..n]).value;
    AcceptedCounts(trace[..n], r);
    AcceptedOpen(trace[..n], r);
    AllowedNow(r, trace[n]);
    if trace[n].wire.BlockStart? && (trace[n].wire.head.TextHead? || trace[n].wire.head.ThinkingHead?) {
      StartedBlockGetsText(trace, n, ReaderOf(Run(prefix, calls)));
    }
  }

  lemma AllowedNow(r: Reader, x: Sent)
    requires Allowed(r, x) && (r.closing ==> r.open == None) && (r.open.Some? ==> r.open.value.index == r.count - 1)
    ensures Terminal(x.wire) ==> r.open == None && !r.ended
    ensures x.wire.BlockStart? ==> r.open == None && r.started && x.wire.index == r.count
    ensures x.wire.BlockDelta? || x.wire.BlockStop? ==> r.open.Some? && x.wire.index == r.count - 1
    ensures x.wire.MessageStart? ==> r.count == 0
  {
  }

  /** An accepted trace that leaves no block waiting for its first text. */
  lemma StartedBlockGetsText(trace: seq<Sent>, n: nat, r: Reader)
    requires Read(trace) == Some(r) && (r.open.Some? ==> r.open.value.begun)
    requires n < |trace| && trace[n].wire.BlockStart?
             && (trace[n].wire.head.TextHead? || trace[n].wire.head.ThinkingHead?)
    ensures n + 1 < |trace| && BringsText(trace[n], trace[n + 1])
  {
    AcceptedPrefix(trace, n);
    var x := trace[n];
    assert trace[..n + 1][..n] == trace[..n] && trace[..n + 1][n] == x;
    assert Read(trace[..n + 1]) == Some(Next(Read(trace[..n]).value, x));
    NotWhole(trace, n + 1);
    AcceptedPrefix(trace, n + 1);
  }

  lemma NotWhole(trace: seq<Sent>, n: nat)
    requires n <= |trace| && Read(trace[..n]) != Read(trace)
    ensures n < |trace|
  {
    assert trace[..|trace|] == trace;
  }

  lemma {:induction false} AcceptedOpen(trace: seq<Sent>, r: Reader)
    requires Read(trace) == Some(r)
    ensures r.open.Some? ==> r.open.value.index == r.count - 1
    ensures r.closing ==> r.open == None
  {
    if trace != [] {
      AcceptedOpen(trace[..|trace| - 1], Read(trace[..|trace| - 1]).value);
    }
  }

  // ---- after the end -------------------------------------------------------------------------

  /** What `handleEvent` still sends for event e after the stream has ended; it does not check
      `finished`. */
  predicate Speaks(prefix: string, s: State, e: Upstream) {
    match e
    case Noted => !s.started
    case ItemAdded(i, item) => !s.started || (i !in s.blocks && item.itemType == FunctionCallType)
    case TextDelta(i, d) => Is(s, i, Text) && d != "" && (s.blocks[i].live || !Blank(s.blocks[i].pending + d))
    case SummaryDelta(i, d) =>
      Is(s, i, Thinking) && if s.blocks[i].live then d != "" else !Blank(s.blocks[i].pending + d) || OtherLive(s, i)
    case ArgsDelta(i, d) => Is(s, i, Tool) && s.blocks[i].live && d != ""
    case ItemDone(i, item) => i in s.blocks && (s.blocks[i].live || (Is(s, i, Thinking) && Blob(prefix, item) != ""))
    case _ => false
  }

  /** Another item's block was reopened and would be stopped. */
  predicate OtherLive(s: State, i: int) {
    s.open.Some? && s.open.value != i && s.open.value in s.blocks && s.blocks[s.open.value].live
  }

  /** Some queued event that a drain handles sends something. */
  predicate DrainSpeaks(prefix: string, s: State)
    decreases |s.deferred|
  {
    var n := FirstReady(s, s.deferred);
    n < |s.deferred|
    && (Speaks(prefix, TakeOut(s, n), s.deferred[n])
       || DrainSpeaks(prefix, HandleOpen(prefix, TakeOut(s, n), s.deferred[n])))
  }

  lemma CloseOtherSent(s: State, i: int)
    ensures s.sent <= CloseOther(s, i).sent
    ensures CloseOther(s, i).sent == s.sent <==> !OtherLive(s, i)
    ensures CloseOther(s, i).next == s.next
    ensures i in s.blocks ==> i in CloseOther(s, i).blocks && CloseOther(s, i).blocks[i] == s.blocks[i]
  {
  }

  lemma AddedSent(s: State, i: int, item: Item)
    ensures var t := OnItemAdded(EnsureStart(s), i, item);
            && s.sent <= t.sent
            && (t.sent == s.sent <==> s.started && (i in s.blocks || item.itemType != FunctionCallType))
  {
    hide CloseOther;
    CloseOtherSent(EnsureStart(s), i);
  }

  lemma TextSent(s: State, i: int, d: string)
    ensures var t := OnTextDelta(s, i, d);
            && s.sent <= t.sent
            && (t.sent == s.sent <==>
                  !(Is(s, i, Text) && d != "" && (s.blocks[i].live || !Blank(s.blocks[i].pending + d))))
  {
    hide CloseOther, Blank;
    CloseOtherSent(s, i);
  }

  lemma SummarySent(s: State, i: int, d: string)
    ensures var t := OnSummaryDelta(s, i, d);
            && s.sent <= t.sent
            && (t.sent == s.sent <==>
                !(Is(s, i, Thinking)
                  && if s.blocks[i].live then d != "" else !Blank(s.blocks[i].pending + d) || OtherLive(s, i)))
  {
    hide CloseOther, Blank, OtherLive;
    CloseOtherSent(s, i);
  }

  lemma StoppedSent(s: State, i: int, t: State)
    requires i in t.blocks && s.sent <= t.sent
    ensures s.sent < StopBlock(t, i).sent
  {
  }

  lemma ThinkingDoneSent(s: State, i: int, blob: string)
    requires i in s.blocks
    ensures var t := ThinkingDone(s, i, blob);
            s.sent <= t.sent && (t.sent == s.sent <==> !s.blocks[i].live && blob == "")
  {
    hide CloseOther, StopBlock;
    var b := s.blocks[i];
    if b.live {
      StoppedSent(s, i, if blob == "" then s else Emit(s, Some(i), BlockDelta(b.index, SignatureD(blob))));
    } else {
      CloseOtherSent(s, i);
    }
  }

  lemma DoneSent(prefix: string, s: State, i: int, item: Item)
    ensures var t := OnItemDone(prefix, s, i, item);
            && s.sent <= t.sent
            && (t.sent == s.sent <==>
                !(i in s.blocks && (s.blocks[i].live || (Is(s, i, Thinking) && Blob(prefix, item) != ""))))
  {
    hide ThinkingDone, StopBlock, Blob, MissingArgs;
    if i in s.blocks {
      ThinkingDoneSent(s, i, Blob(prefix, item));
      StoppedSent(s, i, SendMissingArgs(s, i, item));
    }
  }

  /** One event: what was sent stays, and more comes exactly if the event speaks. */
  lemma HandledSent(prefix: string, s: State, e: Upstream)
    ensures s.sent <= HandleOpen(prefix, s, e).sent
    ensures HandleOpen(prefix, s, e).sent == s.sent <==> !Speaks(prefix, s, e)
  {
    hide OnItemDone, OnItemAdded, OnTextDelta, OnSummaryDelta, Blank, Blob, OtherLive;
    var h := s.(handled := s.handled + [e]);
    assert forall i: int :: OtherLive(h, i) <==> OtherLive(s, i) by {
      forall i: int
        ensures OtherLive(h, i) <==> OtherLive(s, i)
      {
        SameOther(s, h, i);
      }
    }
    match e
    case ItemAdded(i, item) => AddedSent(h, i, item);
    case TextDelta(i, d) => TextSent(h, i, d);
    case SummaryDelta(i, d) => SummarySent(h, i, d);
    case ItemDone(i, item) => DoneSent(prefix, h, i, item);
    case _ =>
  }

  lemma SameOther(s: State, t: State, i: int)
    requires t.open == s.open && t.blocks == s.blocks
    ensures OtherLive(t, i) <==> OtherLive(s, i)
  {
  }

  lemma {:induction false} DrainSent(prefix: string, s: State)
    ensures s.sent <= Drain(prefix, s).sent
    ensures Drain(prefix, s).sent == s.sent <==> !DrainSpeaks(prefix, s)
    decreases |s.deferred|
  {
    hide HandleOpen, Speaks;
    var n := FirstReady(s, s.deferred);
    if n < |s.deferred| {
      HandledSent(prefix, TakeOut(s, n), s.deferred[n]);
      DrainSent(prefix, HandleOpen(prefix, TakeOut(s, n), s.deferred[n]));
    }
  }

  /** Exactly which event is followed by output after the end, in every state a run can come to, a
      block reopened and events queued included: "nothing follows message_stop" holds of an event if
      and only if it is deferred, or neither it nor a queued event it lets through speaks. */
  lemma SpeaksExactly(prefix: string, s: State, e: Upstream)
    requires s.finished
    ensures Push(prefix, s, e).sent == s.sent
       <==> ShouldDefer(s, e) || (!Speaks(prefix, s, e) && !DrainSpeaks(prefix, Handle(prefix, s, e)))
    ensures s.deferred == [] ==> !DrainSpeaks(prefix, Handle(prefix, s, e))
  {
    hide HandleOpen, Speaks;
    HandledSent(prefix, s, e);
    DrainSent(prefix, Handle(prefix, s, e));
    TerminalSilent(prefix, s, e);
  }

  lemma TerminalSilent(prefix: string, s: State, e: Upstream)
    requires s.finished
    ensures Handle(prefix, s, e).deferred == s.deferred
    ensures e.Completed? || e.Failed? ==> Handle(prefix, s, e).sent == s.sent && !Speaks(prefix, s, e)
  {
  }

  predicate AtRest(s: State) {
    s.finished && s.open == None && s.deferred == [] && forall k <- s.blocks :: !s.blocks[k].live
  }

  /** The call that ends a run leaves nothing open and nothing queued. */
  lemma EndsAtRest(prefix: string, calls: seq<Call>, c: Call)
    requires !Run(prefix, calls).finished && Run(prefix, calls + [c]).finished
    ensures AtRest(Run(prefix, calls + [c]))
  {
    hide OnCompleted, Fail, HandleOpen, RunFrom, Good, AtRest, Drain;
    var s := Run(prefix, calls);
    RunIsBracketed(prefix, calls);
    RunSnoc(prefix, INITIAL, calls, c);
    match c
    case Abort(message) => FailAtRest(prefix, s, message);
    case Feed(e) =>
      match e
      case Completed(ending) =>
        NotedGood(s, e);
        CompletedAtRest(prefix, s.(handled := s.handled + [e]), ending);
        RestIsDrained(prefix, OnCompleted(prefix, s.(handled := s.handled + [e]), ending));
      case Failed(message) =>
        NotedGood(s, e);
        FailAtRest(prefix, s.(handled := s.handled + [e]), message);
        RestIsDrained(prefix, Fail(prefix, s.(handled := s.handled + [e]), message));
      case _ =>
        if !ShouldDefer(s, e) {
          DrainKeepsFinished(prefix, Handle(prefix, s, e));
        }
  }

  lemma {:induction false} DrainKeepsFinished(prefix: string, s: State)
    ensures Drain(prefix, s).finished == s.finished
    decreases |s.deferred|
  {
    hide HandleOpen;
    var n := FirstReady(s, s.deferred);
    if n < |s.deferred| {
      DrainKeepsFinished(prefix, HandleOpen(prefix, TakeOut(s, n), s.deferred[n]));
    }
  }

  lemma NotedGood(s: State, e: Upstream)
    requires Good(s)
    ensures Good(s.(handled := s.handled + [e]))
  {
  }

  lemma RestIsDrained(prefix: string, s: State)
    requires AtRest(s)
    ensures Drain(prefix, s) == s
  {
    assert FirstReady(s, s.deferred) == 0;
  }

  lemma ClosedAtRest(s: State)
    requires Good(s) && s.deferred == []
    ensures AtRest(CloseAll(s).(finished := true))
  {
    CloseAllStopsTheOpenBlock(s);
  }

  lemma FailAtRest(prefix: string, s: State, message: string)
    requires Good(s) && !s.finished
    ensures AtRest(Fail(prefix, s, message))
  {
    hide ForceDrain, CloseAll;
    ForceDrainGood(prefix, s);
    ForceDrainKeeps(prefix, s);
    ClosedAtRest(ForceDrain(prefix, s));
  }

  lemma CompletedAtRest(prefix: string, s: State, ending: Ending)
    requires Good(s) && !s.finished
    ensures AtRest(OnCompleted(prefix, s, ending))
  {
    hide ForceDrain, CloseAll;
    EnsureStartGood(s);
    ForceDrainGood(prefix, EnsureStart(s));
    ForceDrainKeeps(prefix, EnsureStart(s));
    ClosedAtRest(ForceDrain(prefix, EnsureStart(s)));
  }

  /** So the first terminal event is the last one sent if the upstream sends nothing after its own. */
  lemma {:induction false} SilentAfterEnd(prefix: string, s: State, calls: seq<Call>)
    requires s.finished && s.deferred == []
    requires forall c <- calls :: c.Abort? || c.event.Completed? || c.event.Failed? || c.event.Ignored?
    ensures var t := RunFrom(prefix, s, calls); t.sent == s.sent && t.finished && t.deferred == []
  {
    if calls != [] {
      SilentAfterEnd(prefix, s, calls[..|calls| - 1]);
      var t := RunFrom(prefix, s, calls[..|calls| - 1]);
      SilentCall(prefix, t, calls[|calls| - 1]);
    }
  }

  lemma SilentCall(prefix: string, s: State, c: Call)
    requires s.finished && s.deferred == []
    requires c.Abort? || c.event.Completed? || c.event.Failed? || c.event.Ignored?
    ensures var t := Apply(prefix, s, c); t.sent == s.sent && t.finished && t.deferred == []
  {
    if c.Feed? {
      var t := Handle(prefix, s, c.event);
      assert FirstReady(t, t.deferred) == 0 && Drain(prefix, t) == t;
    }
  }

  /** A run in which something does follow: a function call added after the response was completed. */
  lemma OutputAfterStop(prefix: string, item: Item)
    requires item.itemType == FunctionCallType
    ensures var sent := Run(prefix, [Feed(Completed(Ending(false, false))), Feed(ItemAdded(0, item))]).sent;
            |sent| == 4 && sent[2].wire == MessageStop && sent[3].wire.BlockStart?
  {
    var first, second := Feed(Completed(Ending(false, false))), Feed(ItemAdded(0, item));
    RunSnoc(prefix, INITIAL, [], first);
    RunSnoc(prefix, INITIAL, [first], second);
    assert [] + [first] == [first] && [first] + [second] == [first, second];
    var s := Handle(prefix, INITIAL, first.event);
    assert ForceDrain(prefix, EnsureStart(INITIAL.(handled := [] + [first.event]))).deferred == [];
    assert |s.sent| == 3 && s.sent[2].wire == MessageStop && s.deferred == [] && s.blocks == map[] && s.started
           && s.open == None;
    assert Drain(prefix, s) == s && Run(prefix, [first]) == s;
    var t := Handle(prefix, s, second.event);
    assert t.deferred == [] && Drain(prefix, t) == t && Run(prefix, [first, second]) == t;
  }
}
