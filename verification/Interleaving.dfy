/** Independence from interleaving: as long as upstream has not ended the stream, what a tool_use
    or thinking item sends is a function of its own events alone. */
module Interleaving {
  import opened JsText
  import opened Protocol
  import opened Translation
  import opened Bracketing
  import opened Deferral
  import opened ItemViews
  import opened TextConservation

  // ---- reference: one function_call item, read from its own events -----------------------------

  datatype ToolRun = NoTool | Streaming(item: Item, chunks: seq<string>) | Ended(item: Item, chunks: seq<string>)

  /** The tail of the complete arguments that the chunks do not reach. */
  function Missing(chunks: seq<string>, full: string): seq<string> {
    if |full| > |Join(chunks)| then [full[|Join(chunks)|..]] else []
  }

  function ToolStep(r: ToolRun, kind: Option<Kind>, e: Upstream): ToolRun {
    match r
    case NoTool =>
      if kind == None && e.ItemAdded? && e.item.itemType == FunctionCallType then Streaming(e.item, []) else NoTool
    case Streaming(item, chunks) =>
      if e.ArgsDelta? && e.delta != "" then Streaming(item, chunks + [e.delta])
      else if e.ItemDone? then Ended(item, chunks + Missing(chunks, e.item.arguments))
      else r
    case Ended(_, _) => r
  }

  function ToolRunOf(own: seq<Upstream>): ToolRun {
    if own == [] then NoTool
    else
      var before := own[..|own| - 1];
      ToolStep(ToolRunOf(before), KindOf(before), own[|own| - 1])
  }

  function JsonDeltas(n: int, chunks: seq<string>): seq<Wire> {
    if chunks == [] then []
    else JsonDeltas(n, chunks[..|chunks| - 1]) + [BlockDelta(n, JsonD(chunks[|chunks| - 1]))]
  }

  /** A tool run as block number n. */
  function ToolBlock(n: nat, r: ToolRun): seq<Wire> {
    match r
    case NoTool => []
    case Streaming(item, chunks) => [BlockStart(n, ToolHead(ToolId(item, n), item.name))] + JsonDeltas(n, chunks)
    case Ended(item, chunks) =>
      [BlockStart(n, ToolHead(ToolId(item, n), item.name))] + JsonDeltas(n, chunks) + [BlockStop(n)]
  }

  // ---- reference: one reasoning item -----------------------------------------------------------

  datatype ThinkingRun =
    | Quiet(pending: string)
    | Visible(chunks: seq<string>)
    | Signed(chunks: seq<string>, signature: string)
    | Sealed(data: string)
    | Empty

  function ThinkingStep(prefix: string, r: ThinkingRun, kind: Option<Kind>, e: Upstream): ThinkingRun {
    if kind != Some(Thinking) then r
    else if e.SummaryDelta? then
      match r
      case Quiet(p) => if Blank(p + e.delta) then Quiet(p + e.delta) else Visible([p + e.delta])
      case Visible(chunks) => if e.delta == "" then r else Visible(chunks + [e.delta])
      case _ => r
    else if e.ItemDone? then
      match r
      case Quiet(_) => if Blob(prefix, e.item) == "" then Empty else Sealed(Blob(prefix, e.item))
      case Visible(chunks) => Signed(chunks, Blob(prefix, e.item))
      case _ => r
    else r
  }

  function ThinkingRunOf(prefix: string, own: seq<Upstream>): ThinkingRun {
    if own == [] then Quiet("")
    else
      var before := own[..|own| - 1];
      ThinkingStep(prefix, ThinkingRunOf(prefix, before), KindOf(before), own[|own| - 1])
  }

  function ThinkingDeltas(n: int, chunks: seq<string>): seq<Wire> {
    if chunks == [] then []
    else ThinkingDeltas(n, chunks[..|chunks| - 1]) + [BlockDelta(n, ThinkingD(chunks[|chunks| - 1]))]
  }

  /** A reasoning run as block number n; a run without visible text or blob sends nothing. */
  function ThinkingBlock(n: int, r: ThinkingRun): seq<Wire> {
    match r
    case Quiet(_) => []
    case Visible(chunks) => [BlockStart(n, ThinkingHead)] + ThinkingDeltas(n, chunks)
    case Signed(chunks, signature) =>
      [BlockStart(n, ThinkingHead)] + ThinkingDeltas(n, chunks)
      + (if signature == "" then [] else [BlockDelta(n, SignatureD(signature))]) + [BlockStop(n)]
    case Sealed(data) => [BlockStart(n, RedactedHead(data)), BlockStop(n)]
    case Empty => []
  }

  // ---- the translator follows the references ---------------------------------------------------

  predicate Exact(prefix: string, s: State, i: int) {
    var own := Of(s.handled, Some(i));
    && TextKept(s, i)
    && (Is(s, i, Tool) ==> ExactTool(s.blocks[i], OwnSent(s, i), ToolRunOf(own)))
    && (Is(s, i, Thinking) && Tidy(own) ==> ExactThinking(s.blocks[i], OwnSent(s, i), ThinkingRunOf(prefix, own)))
  }

  predicate ExactTool(b: Block, sent: seq<Wire>, r: ToolRun) {
    && b.index >= 0 && sent == ToolBlock(b.index, r) && r != NoTool
    && (r.Streaming? <==> b.live)
    && (r.Streaming? ==> b.argsSent == |Join(r.chunks)|)
  }

  predicate ExactThinking(b: Block, sent: seq<Wire>, r: ThinkingRun) {
    && sent == ThinkingBlock(b.index, r)
    && (r.Visible? <==> b.live)
    && (r.Quiet? ==> r.pending == b.pending)
  }

  /** Nothing follows item.done. */
  predicate Tidy(own: seq<Upstream>) {
    forall k | 0 <= k < |own| - 1 :: !own[k].ItemDone?
  }

  lemma RunsSnoc(prefix: string, own: seq<Upstream>, e: Upstream)
    ensures ToolRunOf(own + [e]) == ToolStep(ToolRunOf(own), KindOf(own), e)
    ensures ThinkingRunOf(prefix, own + [e]) == ThinkingStep(prefix, ThinkingRunOf(prefix, own), KindOf(own), e)
    ensures Tidy(own + [e]) ==> Tidy(own) && forall x <- own :: !x.ItemDone?
  {
    assert (own + [e])[..|own|] == own;
    if Tidy(own + [e]) {
      forall k | 0 <= k < |own|
        ensures !own[k].ItemDone?
      {
        assert own[k] == (own + [e])[k];
      }
    }
  }

  /** Before its registration an item has had no run. */
  lemma {:induction false} NoRunBeforeKind(prefix: string, own: seq<Upstream>)
    requires KindOf(own) == None
    ensures ToolRunOf(own) == NoTool && ThinkingRunOf(prefix, own) == Quiet("")
  {
    if own != [] {
      NoRunBeforeKind(prefix, own[..|own| - 1]);
    }
  }

  /** A reasoning run that has not seen item.done is quiet or visible. */
  lemma {:induction false} UnfinishedThinking(prefix: string, own: seq<Upstream>)
    requires forall e <- own :: !e.ItemDone?
    ensures ThinkingRunOf(prefix, own).Quiet? || ThinkingRunOf(prefix, own).Visible?
  {
    if own != [] {
      UnfinishedThinking(prefix, own[..|own| - 1]);
    }
  }

  lemma JsonDeltasSnoc(n: int, chunks: seq<string>, c: string)
    ensures JsonDeltas(n, chunks + [c]) == JsonDeltas(n, chunks) + [BlockDelta(n, JsonD(c))]
  {
    assert (chunks + [c])[..|chunks|] == chunks;
  }

  lemma ThinkingDeltasSnoc(n: int, chunks: seq<string>, c: string)
    ensures ThinkingDeltas(n, chunks + [c]) == ThinkingDeltas(n, chunks) + [BlockDelta(n, ThinkingD(c))]
  {
    assert (chunks + [c])[..|chunks|] == chunks;
  }

  // ---- a tool_use item's own events --------------------------------------------------------------

  lemma OwnArgsDelta(s: State, i: int, d: string, r: ToolRun)
    requires Is(s, i, Tool) && ExactTool(s.blocks[i], OwnSent(s, i), r)
    ensures var t := OnArgsDelta(s, i, d);
            Is(t, i, Tool) && ExactTool(t.blocks[i], OwnSent(t, i), ToolStep(r, Some(Tool), ArgsDelta(i, d)))
  {
    var b := s.blocks[i];
    if b.live && d != "" {
      EmitOwn(s, Some(i), BlockDelta(b.index, JsonD(d)), i);
      JsonDeltasSnoc(b.index, r.chunks, d);
      JoinSnoc(r.chunks, d);
    }
  }

  lemma MissingArgsSent(s: State, i: int, item: Item, r: ToolRun)
    requires Is(s, i, Tool) && ExactTool(s.blocks[i], OwnSent(s, i), r) && r.Streaming?
    ensures var m := SendMissingArgs(s, i, item);
            && Is(m, i, Tool) && m.blocks[i].index == s.blocks[i].index
            && OwnSent(m, i)
               == ToolBlock(m.blocks[i].index, Streaming(r.item, r.chunks + Missing(r.chunks, item.arguments)))
  {
    var b := s.blocks[i];
    var missing := MissingArgs(b, item);
    if missing != "" {
      EmitOwn(s, Some(i), BlockDelta(b.index, JsonD(missing)), i);
      JsonDeltasSnoc(b.index, r.chunks, missing);
    } else {
      assert r.chunks + [] == r.chunks;
    }
  }

  lemma ToolStopped(s: State, i: int, item: Item, chunks: seq<string>)
    requires Is(s, i, Tool) && s.blocks[i].index >= 0
    requires OwnSent(s, i) == ToolBlock(s.blocks[i].index, Streaming(item, chunks))
    ensures var t := Release(StopBlock(s, i), i);
            Is(t, i, Tool) && ExactTool(t.blocks[i], OwnSent(t, i), Ended(item, chunks))
  {
    EmitOwn(s, Some(i), BlockStop(s.blocks[i].index), i);
  }

  lemma OwnToolDone(s: State, i: int, item: Item, r: ToolRun)
    requires Is(s, i, Tool) && ExactTool(s.blocks[i], OwnSent(s, i), r) && s.blocks[i].live
    ensures var t := FinishBlock(s, i, item);
            Is(t, i, Tool) && ExactTool(t.blocks[i], OwnSent(t, i), ToolStep(r, Some(Tool), ItemDone(i, item)))
  {
    MissingArgsSent(s, i, item, r);
    ToolStopped(SendMissingArgs(s, i, item), i, r.item, r.chunks + Missing(r.chunks, item.arguments));
  }

  lemma OwnToolEvent(prefix: string, s: State, e: Upstream, i: int, r: ToolRun)
    requires Good(s) && Is(s, i, Tool) && KeyOf(e) == Some(i) && ExactTool(s.blocks[i], OwnSent(s, i), r)
    ensures var t := HandleOpen(prefix, s, e);
            Is(t, i, Tool) && ExactTool(t.blocks[i], OwnSent(t, i), ToolStep(r, Some(Tool), e))
  {
    var h := s.(handled := s.handled + [e]);
    match e
    case ItemAdded(_, _) => EnsureStartElsewhere(h, i);
    case ArgsDelta(_, d) => OwnArgsDelta(h, i, d, r);
    case ItemDone(_, item) =>
      if s.blocks[i].live {
        OwnToolDone(h, i, item, r);
      }
    case _ =>
  }

  // ---- a thinking item's own events --------------------------------------------------------------

  lemma OpenedThinking(s: State, i: int, text: string)
    requires i in s.blocks && OwnSent(s, i) == []
    ensures var t := OpenWith(s, i, ThinkingHead, ThinkingD(text));
            OwnSent(t, i) == ThinkingBlock(s.next, Visible([text]))
  {
    var x, y := BlockStart(s.next, ThinkingHead), BlockDelta(s.next, ThinkingD(text));
    SentForSnoc(s.sent, Sent(Some(i), x), i);
    SentForSnoc(s.sent + [Sent(Some(i), x)], Sent(Some(i), y), i);
    ThinkingDeltasSnoc(s.next, [], text);
    assert [] + [text] == [text];
  }

  lemma OwnSummaryDelta(prefix: string, s: State, i: int, d: string, r: ThinkingRun)
    requires Consistent(s) && Is(s, i, Thinking) && ExactThinking(s.blocks[i], OwnSent(s, i), r)
             && (r.Quiet? || r.Visible?)
    ensures var t := OnSummaryDelta(s, i, d);
            Is(t, i, Thinking)
            && ExactThinking(t.blocks[i], OwnSent(t, i), ThinkingStep(prefix, r, Some(Thinking), SummaryDelta(i, d)))
  {
    var b := s.blocks[i];
    if b.live {
      if d != "" {
        EmitOwn(s, Some(i), BlockDelta(b.index, ThinkingD(d)), i);
        ThinkingDeltasSnoc(b.index, r.chunks, d);
      }
    } else {
      CloseOtherAffects(s, i, i);
      if !Blank(b.pending + d) {
        OpenedThinking(CloseOther(s, i).(open := Some(i)), i, b.pending + d);
      }
    }
  }

  lemma SealedOwn(s: State, i: int, blob: string)
    requires i in s.blocks && OwnSent(s, i) == []
    ensures OwnSent(SendSealed(s, i, blob), i) == ThinkingBlock(s.next, Sealed(blob))
  {
    var x, y := BlockStart(s.next, RedactedHead(blob)), BlockStop(s.next);
    SentForSnoc(s.sent, Sent(Some(i), x), i);
    SentForSnoc(s.sent + [Sent(Some(i), x)], Sent(Some(i), y), i);
  }

  lemma SignedOwn(s: State, i: int, blob: string)
    requires Is(s, i, Thinking)
    ensures var t := StopBlock(s, i);
            && Is(t, i, Thinking) && !t.blocks[i].live && t.blocks[i].index == s.blocks[i].index
            && OwnSent(t, i) == OwnSent(s, i) + [BlockStop(s.blocks[i].index)]
    ensures var t := StopBlock(Emit(s, Some(i), BlockDelta(s.blocks[i].index, SignatureD(blob))), i);
            && Is(t, i, Thinking) && !t.blocks[i].live && t.blocks[i].index == s.blocks[i].index
            && OwnSent(t, i)
               == OwnSent(s, i) + [BlockDelta(s.blocks[i].index, SignatureD(blob))] + [BlockStop(s.blocks[i].index)]
  {
    var signature, stop := BlockDelta(s.blocks[i].index, SignatureD(blob)), BlockStop(s.blocks[i].index);
    EmitOwn(s, Some(i), stop, i);
    EmitOwn(s, Some(i), signature, i);
    EmitOwn(Emit(s, Some(i), signature), Some(i), stop, i);
  }

  lemma VisibleDone(s: State, i: int, blob: string, r: ThinkingRun)
    requires Is(s, i, Thinking) && ExactThinking(s.blocks[i], OwnSent(s, i), r) && r.Visible?
    ensures var t := Settle(ThinkingDone(s, i, blob), i);
            Is(t, i, Thinking) && ExactThinking(t.blocks[i], OwnSent(t, i), Signed(r.chunks, blob))
  {
    SignedOwn(s, i, blob);
    var sent := [BlockStart(s.blocks[i].index, ThinkingHead)] + ThinkingDeltas(s.blocks[i].index, r.chunks);
    assert sent + [] == sent;
  }

  lemma QuietDone(s: State, i: int, blob: string, r: ThinkingRun)
    requires Consistent(s) && Is(s, i, Thinking) && ExactThinking(s.blocks[i], OwnSent(s, i), r) && r.Quiet?
    ensures var t := Settle(ThinkingDone(s, i, blob), i);
            Is(t, i, Thinking) && ExactThinking(t.blocks[i], OwnSent(t, i), if blob == "" then Empty else Sealed(blob))
  {
    if blob != "" {
      CloseOtherAffects(s, i, i);
      SealedOwn(CloseOther(s, i), i, blob);
    }
  }

  lemma OwnThinkingEvent(prefix: string, s: State, e: Upstream, i: int, r: ThinkingRun)
    requires Good(s) && Is(s, i, Thinking) && KeyOf(e) == Some(i)
    requires ExactThinking(s.blocks[i], OwnSent(s, i), r) && (r.Quiet? || r.Visible?)
    ensures var t := HandleOpen(prefix, s, e);
            Is(t, i, Thinking) && ExactThinking(t.blocks[i], OwnSent(t, i), ThinkingStep(prefix, r, Some(Thinking), e))
  {
    var h := s.(handled := s.handled + [e]);
    match e
    case ItemAdded(_, _) => EnsureStartElsewhere(h, i);
    case SummaryDelta(_, d) => OwnSummaryDelta(prefix, h, i, d, r);
    case ItemDone(_, item) =>
      if r.Visible? {
        VisibleDone(h, i, Blob(prefix, item), r);
      } else {
        QuietDone(h, i, Blob(prefix, item), r);
      }
    case _ =>
  }

  // ---- any event ----------------------------------------------------------------------------------

  lemma Registered(prefix: string, s: State, e: Upstream, i: int)
    requires Good(s) && Exact(prefix, s, i) && i !in s.blocks && KeyOf(e) == Some(i)
    ensures var t := HandleOpen(prefix, s, e);
            && (Is(t, i, Tool) ==> ExactTool(t.blocks[i], OwnSent(t, i), ToolStep(NoTool, None, e)))
            && (Is(t, i, Thinking) ==> ExactThinking(t.blocks[i], OwnSent(t, i), Quiet("")))
  {
    hide Read, SentFor;
    var h := EnsureStart(s.(handled := s.handled + [e]));
    EnsureStartElsewhere(s.(handled := s.handled + [e]), i);
    if e.ItemAdded? && e.item.itemType == FunctionCallType {
      EnsureStartGood(s.(handled := s.handled + [e]));
      CloseOtherAffects(h, i, i);
      var c := CloseOther(h, i);
      EmitOwn(c, Some(i), BlockStart(c.next, ToolHead(ToolId(e.item, c.next), e.item.name)), i);
    }
  }

  /** Handling any event that need not wait keeps every item in step with its reference. */
  lemma HandleOpenExact(prefix: string, s: State, e: Upstream, i: int)
    requires Good(s) && Exact(prefix, s, i) && !ShouldDefer(s, e)
    ensures Exact(prefix, HandleOpen(prefix, s, e), i)
  {
    hide HandleOpen, Consistent, Read;
    var own := Of(s.handled, Some(i));
    var t := HandleOpen(prefix, s, e);
    HandleOpenText(prefix, s, e, i);
    OfSnoc(s.handled, e, Some(i));
    if KeyOf(e) == Some(i) {
      RunsSnoc(prefix, own, e);
      if i !in s.blocks {
        NoRunBeforeKind(prefix, own);
        Registered(prefix, s, e, i);
      } else {
        OwnKindKept(prefix, s, e, i);
        if s.blocks[i].kind == Tool {
          OwnToolEvent(prefix, s, e, i, ToolRunOf(own));
        } else if s.blocks[i].kind == Thinking && Tidy(own + [e]) {
          UnfinishedThinking(prefix, own);
          OwnThinkingEvent(prefix, s, e, i, ThinkingRunOf(prefix, own));
        }
      }
    } else if i in s.blocks && s.blocks[i].kind != Text {
      UninterruptibleIsLeftAlone(prefix, s, e, i);
    } else {
      OthersOnlyInterrupt(prefix, s, e, i);
    }
  }

  lemma OwnKindKept(prefix: string, s: State, e: Upstream, i: int)
    requires Good(s) && i in s.blocks && KeyOf(e) == Some(i)
    ensures Is(HandleOpen(prefix, s, e), i, s.blocks[i].kind)
  {
    OwnKind(prefix, s, e, i);
  }

  // ---- runs that upstream has not ended -------------------------------------------------------------

  predicate Ends(e: Upstream) {
    e.Completed? || e.Failed?
  }

  predicate Calm(calls: seq<Call>) {
    forall c <- calls :: c.Feed? && !Ends(c.event)
  }

  lemma {:induction false} DrainExact(prefix: string, s: State, i: int)
    requires Good(s) && Exact(prefix, s, i)
    ensures Exact(prefix, Drain(prefix, s), i)
    decreases |s.deferred|
  {
    var n := FirstReady(s, s.deferred);
    if n < |s.deferred| {
      var p := TakeOut(s, n);
      TakeOutGood(s, n);
      HandleOpenGood(prefix, p, s.deferred[n]);
      HandleOpenExact(prefix, p, s.deferred[n], i);
      DrainExact(prefix, HandleOpen(prefix, p, s.deferred[n]), i);
    }
  }

  lemma {:induction false} CalmExact(prefix: string, calls: seq<Call>, i: int)
    requires Calm(calls)
    ensures Exact(prefix, Run(prefix, calls), i)
  {
    if calls != [] {
      var s := Run(prefix, calls[..|calls| - 1]);
      var e := calls[|calls| - 1].event;
      RunIsBracketed(prefix, calls[..|calls| - 1]);
      CalmExact(prefix, calls[..|calls| - 1], i);
      if !ShouldDefer(s, e) {
        HandleOpenGood(prefix, s, e);
        HandleOpenExact(prefix, s, e, i);
        DrainExact(prefix, HandleOpen(prefix, s, e), i);
      }
    }
  }
}
