/** The translator class of translate-sse.ts: every method updates the fields in place, returns the
    events it pushes to `out`, and is proved to take the state where the state machine takes it. */
module SseTranslators {
  import opened JsText
  import opened Protocol
  import opened Translation
  import opened JsonBodies

  class SseTranslator {
    var messageStarted: bool
    var finished: bool
    var nextBlockIndex: nat
    var hasToolUse: bool
    var blocks: map<int, Block>
    var keys: seq<int>
    var openOutputIndex: Option<int>
    var deferred: seq<Upstream>
    const signaturePrefix: string
    ghost var handled: seq<Upstream>
    ghost var sent: seq<Sent>

    ghost function Now(): State
      reads this
    {
      State(messageStarted, finished, nextBlockIndex, hasToolUse, blocks, keys, openOutputIndex, deferred, handled,
          sent)
    }

    /** `out` is what was emitted since the trace `before`. */
    ghost predicate Emitted(before: seq<Sent>, out: seq<Wire>)
      reads this
    {
      before <= sent && Wires(sent[|before|..]) == out
    }

    constructor (reasoningNamespace: string)
      ensures Now() == INITIAL && signaturePrefix == reasoningNamespace
    {
      messageStarted, finished, nextBlockIndex, hasToolUse := false, false, 0, false;
      blocks, keys, openOutputIndex, deferred := map[], [], None, [];
      signaturePrefix := reasoningNamespace;
      handled, sent := [], [];
    }

    method Write(item: Option<int>, wire: Wire) returns (out: seq<Wire>)
      modifies this`sent
      ensures Now() == Emit(old(Now()), item, wire) && Emitted(old(sent), out)
    {
      sent := sent + [Sent(item, wire)];
      out := [wire];
    }

    method EnsureMessageStart() returns (out: seq<Wire>)
      modifies this
      ensures Now() == EnsureStart(old(Now())) && Emitted(old(sent), out)
    {
      out := [];
      if !messageStarted {
        messageStarted := true;
        out := Write(None, MessageStart);
      }
    }

    method CloseOpenBlockForOtherItem(i: int) returns (out: seq<Wire>)
      modifies this
      ensures Now() == CloseOther(old(Now()), i) && Emitted(old(sent), out)
    {
      out := [];
      if openOutputIndex == None || openOutputIndex == Some(i) {
        return;
      }
      var k := openOutputIndex.value;
      if k in blocks && blocks[k].live {
        out := Write(Some(k), BlockStop(blocks[k].index));
        blocks := blocks[k := blocks[k].(live := false)];
      }
      openOutputIndex := None;
    }

    method OpenToolBlock(i: int, item: Item) returns (out: seq<Wire>)
      modifies this
      ensures Now() == OpenTool(old(Now()), i, item) && Emitted(old(sent), out)
    {
      var blockIndex := nextBlockIndex;
      nextBlockIndex := nextBlockIndex + 1;
      blocks, keys := blocks[i := Block(blockIndex, Tool, true, 0, "")], keys + [i];
      openOutputIndex := Some(i);
      hasToolUse := true;
      out := Write(Some(i), BlockStart(blockIndex, ToolHead(ToolId(item, blockIndex), item.name)));
    }

    method OnAdded(i: int, item: Item) returns (out: seq<Wire>)
      modifies this
      ensures Now() == OnItemAdded(EnsureStart(old(Now())), i, item) && Emitted(old(sent), out)
    {
      hide EnsureStart, CloseOther, OpenTool;
      out := EnsureMessageStart();
      if i in blocks {
        return;
      }
      match item.itemType
      case ReasoningType =>
        blocks, keys := blocks[i := Block(-1, Thinking, false, 0, "")], keys + [i];
      case MessageType =>
        blocks, keys := blocks[i := Block(-1, Text, false, 0, "")], keys + [i];
      case FunctionCallType =>
        var closed := CloseOpenBlockForOtherItem(i);
        var start := OpenToolBlock(i, item);
        out := out + closed + start;
      case OtherType =>
    }

    method OpenLazily(i: int, head: Head, delta: Delta) returns (out: seq<Wire>)
      requires i in blocks
      modifies this
      ensures Now() == OpenWith(old(Now()), i, head, delta) && Emitted(old(sent), out)
    {
      var blockIndex := nextBlockIndex;
      nextBlockIndex := nextBlockIndex + 1;
      blocks := blocks[i := blocks[i].(index := blockIndex, live := true, pending := "")];
      openOutputIndex := Some(i);
      var start := Write(Some(i), BlockStart(blockIndex, head));
      var first := Write(Some(i), BlockDelta(blockIndex, delta));
      out := start + first;
    }

    method OnText(i: int, delta: string) returns (out: seq<Wire>)
      modifies this
      ensures Now() == OnTextDelta(old(Now()), i, delta) && Emitted(old(sent), out)
    {
      out := [];
      if i !in blocks || blocks[i].kind != Text || delta == "" {
        return;
      }
      if !blocks[i].live {
        var pending := blocks[i].pending + delta;
        if Blank(pending) {
          blocks := blocks[i := blocks[i].(pending := pending)];
          return;
        }
        var closed := CloseOpenBlockForOtherItem(i);
        var first := OpenLazily(i, TextHead, TextD(pending));
        out := closed + first;
        return;
      }
      out := Write(Some(i), BlockDelta(blocks[i].index, TextD(delta)));
    }

    method OnSummary(i: int, delta: string) returns (out: seq<Wire>)
      modifies this
      ensures Now() == OnSummaryDelta(old(Now()), i, delta) && Emitted(old(sent), out)
    {
      out := [];
      if i !in blocks || blocks[i].kind != Thinking {
        return;
      }
      if !blocks[i].live {
        out := CloseOpenBlockForOtherItem(i);
        openOutputIndex := Some(i);
        var pending := blocks[i].pending + delta;
        if Blank(pending) {
          blocks := blocks[i := blocks[i].(pending := pending)];
          return;
        }
        var first := OpenLazily(i, ThinkingHead, ThinkingD(pending));
        out := out + first;
        return;
      }
      if delta != "" {
        out := Write(Some(i), BlockDelta(blocks[i].index, ThinkingD(delta)));
      }
    }

    method OnArgs(i: int, delta: string) returns (out: seq<Wire>)
      modifies this
      ensures Now() == OnArgsDelta(old(Now()), i, delta) && Emitted(old(sent), out)
    {
      out := [];
      if i !in blocks || blocks[i].kind != Tool || !blocks[i].live {
        return;
      }
      if delta != "" {
        blocks := blocks[i := blocks[i].(argsSent := blocks[i].argsSent + |delta|)];
        out := Write(Some(i), BlockDelta(blocks[i].index, JsonD(delta)));
      }
    }

    method Stop(i: int) returns (out: seq<Wire>)
      requires i in blocks
      modifies this
      ensures Now() == StopBlock(old(Now()), i) && Emitted(old(sent), out)
    {
      out := Write(Some(i), BlockStop(blocks[i].index));
      blocks := blocks[i := blocks[i].(live := false)];
    }

    method ReleaseSlot(i: int)
      modifies this`openOutputIndex
      ensures Now() == Release(old(Now()), i)
    {
      if openOutputIndex == Some(i) {
        openOutputIndex := None;
      }
    }

    method WriteSealed(i: int, data: string) returns (out: seq<Wire>)
      requires i in blocks
      modifies this
      ensures Now() == SendSealed(old(Now()), i, data) && Emitted(old(sent), out)
    {
      var blockIndex := nextBlockIndex;
      nextBlockIndex := nextBlockIndex + 1;
      blocks := blocks[i := blocks[i].(index := blockIndex)];
      var start := Write(Some(i), BlockStart(blockIndex, RedactedHead(data)));
      var stop := Write(Some(i), BlockStop(blockIndex));
      out := start + stop;
    }

    method EndThinking(i: int, encrypted: string) returns (out: seq<Wire>)
      requires i in blocks
      modifies this
      ensures Now() == ThinkingDone(old(Now()), i, encrypted) && i in blocks && Emitted(old(sent), out)
    {
      hide SendSealed;
      out := [];
      if blocks[i].live {
        if encrypted != "" {
          out := Write(Some(i), BlockDelta(blocks[i].index, SignatureD(encrypted)));
        }
        var stop := Stop(i);
        out := out + stop;
      } else if encrypted != "" {
        out := CloseOpenBlockForOtherItem(i);
        var whole := WriteSealed(i, encrypted);
        out := out + whole;
      }
    }

    method SettleItem(i: int)
      requires i in blocks
      modifies this
      ensures Now() == Settle(old(Now()), i) && sent == old(sent)
    {
      blocks := blocks[i := blocks[i].(pending := "")];
      ReleaseSlot(i);
    }

    method OnThinkingDone(i: int, encrypted: string) returns (out: seq<Wire>)
      requires i in blocks
      modifies this
      ensures Now() == Settle(ThinkingDone(old(Now()), i, encrypted), i) && Emitted(old(sent), out)
    {
      hide ThinkingDone, Settle;
      out := EndThinking(i, encrypted);
      SettleItem(i);
    }

    method OnBlockDone(i: int, item: Item) returns (out: seq<Wire>)
      requires i in blocks
      modifies this
      ensures Now() == FinishBlock(old(Now()), i, item) && Emitted(old(sent), out)
    {
      out := [];
      if blocks[i].kind == Tool && |item.arguments| > blocks[i].argsSent {
        var from := blocks[i].argsSent;
        out := Write(Some(i), BlockDelta(blocks[i].index, JsonD(item.arguments[from..])));
        blocks := blocks[i := blocks[i].(argsSent := |item.arguments|)];
      }
      var stop := Stop(i);
      out := out + stop;
      ReleaseSlot(i);
    }

    method OnDone(i: int, item: Item) returns (out: seq<Wire>)
      modifies this
      ensures Now() == OnItemDone(signaturePrefix, old(Now()), i, item) && Emitted(old(sent), out)
    {
      out := [];
      if i in blocks {
        if blocks[i].kind == Thinking {
          out := OnThinkingDone(i, Blob(signaturePrefix, item));
        } else if blocks[i].live {
          out := OnBlockDone(i, item);
        }
      }
    }

    /** `handleEvent`, the cases that do not end the stream. */
    method HandleItemEvent(e: Upstream) returns (out: seq<Wire>)
      modifies this
      ensures Now() == HandleOpen(signaturePrefix, old(Now()), e) && Emitted(old(sent), out)
    {
      out := [];
      handled := handled + [e];
      match e
      case Noted => out := EnsureMessageStart();
      case ItemAdded(i, item) => out := OnAdded(i, item);
      case TextDelta(i, d) => out := OnText(i, d);
      case SummaryDelta(i, d) => out := OnSummary(i, d);
      case ArgsDelta(i, d) => out := OnArgs(i, d);
      case ItemDone(i, item) => out := OnDone(i, item);
      case _ =>
    }

    method DrainAll() returns (out: seq<Wire>)
      modifies this
      ensures Now() == ForceDrain(signaturePrefix, old(Now())) && Emitted(old(sent), out)
    {
      out := [];
      ghost var whole := Now();
      while deferred != []
        invariant Emitted(whole.sent, out)
        invariant ForceDrain(signaturePrefix, Now()) == ForceDrain(signaturePrefix, whole)
        decreases |deferred|
      {
        var e := deferred[0];
        deferred := deferred[1..];
        var more := HandleItemEvent(e);
        out := out + more;
      }
    }

    method CloseAllOpenBlocks() returns (out: seq<Wire>)
      modifies this
      ensures Now() == CloseAll(old(Now())) && Emitted(old(sent), out)
    {
      out := [];
      ghost var before := Now();
      var n := 0;
      while n < |keys|
        invariant n <= |keys| && Emitted(before.sent, out)
        invariant StopAll(Now(), n) == StopAll(before, 0)
      {
        var k := keys[n];
        if k in blocks && blocks[k].live && blocks[k].index >= 0 {
          var stop := Stop(k);
          out := out + stop;
        }
        n := n + 1;
      }
      openOutputIndex := None;
    }

    /** What both endings do first: replay the queue, then stop the open block. */
    method WindDown() returns (out: seq<Wire>)
      modifies this
      ensures Now() == CloseAll(ForceDrain(signaturePrefix, old(Now()))) && Emitted(old(sent), out)
    {
      var drained := DrainAll();
      var closed := CloseAllOpenBlocks();
      out := drained + closed;
    }

    method EmitFailure(message: string) returns (out: seq<Wire>)
      requires !finished
      modifies this
      ensures Now() == Translation.Fail(signaturePrefix, old(Now()), message) && Emitted(old(sent), out)
    {
      var rest := WindDown();
      var error := Write(None, ErrorEvent(message));
      finished := true;
      out := rest + error;
    }

    /** The closing message_delta and message_stop. */
    method EndMessage(ending: Ending) returns (out: seq<Wire>)
      modifies this
      ensures var delta := MessageDelta(StopReasonOf(old(Now()), ending));
              Now() == Emit(Emit(old(Now()), None, delta), None, MessageStop).(finished := true)
      ensures Emitted(old(sent), out)
    {
      var reason := if ending.incomplete && ending.maxTokens then MaxTokens
                    else if hasToolUse then ToolUse else EndTurn;
      var delta := Write(None, MessageDelta(reason));
      var stop := Write(None, MessageStop);
      finished := true;
      out := delta + stop;
    }

    method OnEnd(ending: Ending) returns (out: seq<Wire>)
      modifies this
      ensures Now() == OnCompleted(signaturePrefix, old(Now()), ending) && Emitted(old(sent), out)
    {
      hide ForceDrain, CloseAll, EnsureStart, Emit;
      out := [];
      if finished {
        return;
      }
      var start := EnsureMessageStart();
      var rest := WindDown();
      var end := EndMessage(ending);
      out := start + rest + end;
    }

    method HandleEvent(e: Upstream) returns (out: seq<Wire>)
      modifies this
      ensures Now() == Handle(signaturePrefix, old(Now()), e) && Emitted(old(sent), out)
    {
      match e
      case Completed(ending) =>
        handled := handled + [e];
        out := OnEnd(ending);
      case Failed(message) =>
        handled := handled + [e];
        out := [];
        if !finished {
          out := EmitFailure(message);
        }
      case _ => out := HandleItemEvent(e);
    }

    predicate MustDefer(e: Upstream)
      reads this
      ensures MustDefer(e) == ShouldDefer(Now(), e)
    {
      Deferrable(e)
      && openOutputIndex.Some? && openOutputIndex.value in blocks && blocks[openOutputIndex.value].kind != Text
      && e.index != openOutputIndex.value
    }

    /** The scan of `drainDeferred` for the first event that can be processed now. */
    method FindReady() returns (n: nat)
      ensures n == FirstReady(Now(), deferred)
    {
      n := 0;
      while n < |deferred| && MustDefer(deferred[n])
        invariant n <= |deferred|
        invariant forall i | 0 <= i < n :: ShouldDefer(Now(), deferred[i])
      {
        n := n + 1;
      }
      FirstReadyIs(Now(), deferred, n);
    }

    method HandleQueued(n: nat) returns (out: seq<Wire>)
      requires n < |deferred|
      modifies this
      ensures Now() == HandleOpen(signaturePrefix, TakeOut(old(Now()), n), old(deferred)[n]) && Emitted(old(sent), out)
      ensures |deferred| < old(|deferred|)
    {
      var e := deferred[n];
      deferred := deferred[..n] + deferred[n + 1..];
      out := HandleItemEvent(e);
    }

    /** `drainDeferred(out, false)` */
    method DrainReady() returns (out: seq<Wire>)
      modifies this
      ensures Now() == Drain(signaturePrefix, old(Now())) && Emitted(old(sent), out)
    {
      hide HandleOpen, FirstReady;
      out := [];
      ghost var whole := Now();
      var n := FindReady();
      while n < |deferred|
        invariant Emitted(whole.sent, out) && n == FirstReady(Now(), deferred)
        invariant Drain(signaturePrefix, Now()) == Drain(signaturePrefix, whole)
        decreases |deferred|
      {
        var more := HandleQueued(n);
        out := out + more;
        n := FindReady();
      }
    }

    /** `push` */
    method Push(e: Upstream) returns (out: seq<Wire>)
      modifies this
      ensures Now() == Translation.Push(signaturePrefix, old(Now()), e) && Emitted(old(sent), out)
    {
      hide Handle, Drain;
      if MustDefer(e) {
        deferred := deferred + [e];
        return [];
      }
      out := HandleEvent(e);
      var drained := DrainReady();
      out := out + drained;
    }

    /** `fail` */
    method Fail(message: string) returns (out: seq<Wire>)
      modifies this
      ensures Now() == Translation.Fail(signaturePrefix, old(Now()), message) && Emitted(old(sent), out)
    {
      if finished {
        return [];
      }
      out := EmitFailure(message);
    }

    /** `finish` */
    method Finish() returns (out: seq<Wire>)
      modifies this
      ensures Now() == Translation.Fail(signaturePrefix, old(Now()), TRUNCATED) && Emitted(old(sent), out)
    {
      out := Fail(TRUNCATED);
    }

    method PushParts(i: int, o: OutputItem) returns (out: seq<Wire>)
      modifies this
      ensures Now() == RunFrom(signaturePrefix, old(Now()), Feeds(PartEvents(i, o))) && Emitted(old(sent), out)
    {
      hide Translation.Push, RunFrom, Feeds, PartEvents;
      out := [];
      ghost var before := Now();
      NoPartsFed(signaturePrefix, before, i, o);
      if o.item.itemType == FunctionCallType {
        out := Push(ArgsDelta(i, o.item.arguments));
      } else if o.item.itemType != OtherType {
        var n := 0;
        assert o.parts[..|o.parts|] == o.parts;
        while n < |o.parts|
          invariant n <= |o.parts| && Emitted(before.sent, out)
          invariant Now() == RunFrom(signaturePrefix, before, Feeds(PartEvents(i, FirstParts(o, n))))
        {
          var e := if o.item.itemType == MessageType then TextDelta(i, o.parts[n]) else SummaryDelta(i, o.parts[n]);
          OnePartMore(signaturePrefix, before, i, o, n, e);
          var more := Push(e);
          out := out + more;
          n := n + 1;
        }
      }
    }

    method PushOpening(i: int, o: OutputItem) returns (out: seq<Wire>)
      modifies this
      ensures Now() == RunFrom(signaturePrefix, old(Now()), Feeds([ItemAdded(i, o.item)] + PartEvents(i, o)))
      ensures Emitted(old(sent), out)
    {
      hide Translation.Push, RunFrom, Feeds, PartEvents;
      ghost var before := Now();
      FedOne(signaturePrefix, before, ItemAdded(i, o.item));
      out := Push(ItemAdded(i, o.item));
      NextState(signaturePrefix, before, Now(), [ItemAdded(i, o.item)], PartEvents(i, o));
      var parts := PushParts(i, o);
      out := out + parts;
    }

    method PushItem(i: int, o: OutputItem) returns (out: seq<Wire>)
      modifies this
      ensures Now() == RunFrom(signaturePrefix, old(Now()), Feeds(ItemEvents(i, o))) && Emitted(old(sent), out)
    {
      hide Translation.Push, RunFrom, Feeds, PartEvents;
      ghost var before := Now();
      out := PushOpening(i, o);
      LastOfItem(signaturePrefix, before, Now(), i, o);
      var done := Push(ItemDone(i, o.item));
      out := out + done;
    }

    /** `pushJson` */
    method PushJson(body: Body) returns (out: seq<Wire>)
      modifies this
      ensures Now() == RunFrom(signaturePrefix, old(Now()), BodyCalls(body)) && Emitted(old(sent), out)
    {
      hide Translation.Push, Translation.Fail, RunFrom, OutputEvents;
      ghost var before := Now();
      match body
      case NotAnObject =>
        OneCall(signaturePrefix, before, Abort(INVALID));
        out := Fail(INVALID);
      case FailedBody(message) =>
        OneCall(signaturePrefix, before, Feed(Failed(message)));
        out := Push(Failed(message));
      case NonTerminal =>
        OneCall(signaturePrefix, before, Abort(NON_TERMINAL));
        out := Fail(NON_TERMINAL);
      case Whole(output, ending) =>
        out := PushOutput(output);
        FedSnoc(signaturePrefix, before, [Noted] + OutputEvents(output), Completed(ending));
        var end := Push(Completed(ending));
        out := out + end;
    }

    method PushOutput(output: seq<OutputItem>) returns (out: seq<Wire>)
      modifies this
      ensures Now() == RunFrom(signaturePrefix, old(Now()), Feeds([Noted] + OutputEvents(output)))
              && Emitted(old(sent), out)
    {
      hide Translation.Push, RunFrom, Feeds, ItemEvents;
      ghost var before := Now();
      FedOne(signaturePrefix, before, Noted);
      assert [Noted] + OutputEvents(output[..0]) == [Noted] && output[..|output|] == output;
      out := Push(Noted);
      var outputIndex := 0;
      while outputIndex < |output|
        invariant outputIndex <= |output| && Emitted(before.sent, out)
        invariant Now() == RunFrom(signaturePrefix, before, Feeds([Noted] + OutputEvents(output[..outputIndex])))
      {
        ghost var served := Now();
        var more := PushItem(outputIndex, output[outputIndex]);
        OneItemMore(signaturePrefix, before, served, output, outputIndex);
        out := out + more;
        outputIndex := outputIndex + 1;
      }
    }
  }

  function FirstParts(o: OutputItem, n: nat): OutputItem
    requires n <= |o.parts|
  {
    o.(parts := o.parts[..n])
  }

  lemma NoPartsFed(prefix: string, s: State, i: int, o: OutputItem)
    ensures o.item.itemType == FunctionCallType ==>
              RunFrom(prefix, s, Feeds(PartEvents(i, o))) == Translation.Push(prefix, s, ArgsDelta(i, o.item.arguments))
    ensures o.item.itemType == OtherType ==> RunFrom(prefix, s, Feeds(PartEvents(i, o))) == s
    ensures o.item.itemType != FunctionCallType ==> RunFrom(prefix, s, Feeds(PartEvents(i, FirstParts(o, 0)))) == s
  {
    hide Translation.Push, RunFrom;
    FedNothing(prefix, s);
    FedOne(prefix, s, ArgsDelta(i, o.item.arguments));
  }

  lemma OnePartMore(prefix: string, s: State, i: int, o: OutputItem, n: nat, e: Upstream)
    requires n < |o.parts|
    requires (o.item.itemType == MessageType && e == TextDelta(i, o.parts[n]))
             || (o.item.itemType == ReasoningType && e == SummaryDelta(i, o.parts[n]))
    ensures RunFrom(prefix, s, Feeds(PartEvents(i, FirstParts(o, n + 1))))
            == Translation.Push(prefix, RunFrom(prefix, s, Feeds(PartEvents(i, FirstParts(o, n)))), e)
  {
    hide Translation.Push, RunFrom;
    assert o.parts[..n + 1][..n] == o.parts[..n];
    FedSnoc(prefix, s, PartEvents(i, FirstParts(o, n)), e);
  }

  lemma LastOfItem(prefix: string, s: State, served: State, i: int, o: OutputItem)
    requires served == RunFrom(prefix, s, Feeds([ItemAdded(i, o.item)] + PartEvents(i, o)))
    ensures RunFrom(prefix, s, Feeds(ItemEvents(i, o))) == Translation.Push(prefix, served, ItemDone(i, o.item))
  {
    FedSnoc(prefix, s, [ItemAdded(i, o.item)] + PartEvents(i, o), ItemDone(i, o.item));
  }

  lemma OutputEventsMore(output: seq<OutputItem>, n: nat)
    requires n < |output|
    ensures [Noted] + OutputEvents(output[..n + 1]) == [Noted] + OutputEvents(output[..n]) + ItemEvents(n, output[n])
  {
    assert output[..n + 1][..n] == output[..n];
  }

  lemma OneItemMore(prefix: string, s: State, served: State, output: seq<OutputItem>, n: nat)
    requires n < |output| && served == RunFrom(prefix, s, Feeds([Noted] + OutputEvents(output[..n])))
    ensures RunFrom(prefix, s, Feeds([Noted] + OutputEvents(output[..n + 1])))
            == RunFrom(prefix, served, Feeds(ItemEvents(n, output[n])))
  {
    OutputEventsMore(output, n);
    NextState(prefix, s, served, [Noted] + OutputEvents(output[..n]), ItemEvents(n, output[n]));
  }

  const TRUNCATED := "upstream stream ended before response.completed (stream_truncated)"

  lemma FirstReadyIs(s: State, queue: seq<Upstream>, n: nat)
    requires n <= |queue| && forall i | 0 <= i < n :: ShouldDefer(s, queue[i])
    requires n < |queue| ==> !ShouldDefer(s, queue[n])
    ensures FirstReady(s, queue) == n
  {
  }
}
