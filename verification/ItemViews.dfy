/** What one output item contributes to the stream, and what events of other items do to it. */
module ItemViews {
  import opened JsText
  import opened Protocol
  import opened Translation
  import opened Bracketing
  import opened Deferral

  /** The block events emitted for item i, in order. */
  function SentFor(sent: seq<Sent>, i: int): seq<Wire> {
    if sent == [] then []
    else
      var x := sent[|sent| - 1];
      var before := SentFor(sent[..|sent| - 1], i);
      if x.item == Some(i) then before + [x.wire] else before
  }

  lemma SentForSnoc(sent: seq<Sent>, x: Sent, i: int)
    ensures SentFor(sent + [x], i) == if x.item == Some(i) then SentFor(sent, i) + [x.wire] else SentFor(sent, i)
  {
    assert (sent + [x])[..|sent|] == sent;
  }

  function OwnSent(s: State, i: int): seq<Wire> {
    SentFor(s.sent, i)
  }

  lemma EmitOwn(s: State, item: Option<int>, wire: Wire, i: int)
    ensures OwnSent(Emit(s, item, wire), i) == if item == Some(i) then OwnSent(s, i) + [wire] else OwnSent(s, i)
  {
    SentForSnoc(s.sent, Sent(item, wire), i);
  }

  /** How item i fares while other items are served: untouched, or its open block was stopped. */
  predicate Undisturbed(s: State, t: State, i: int) {
    && (i in t.blocks <==> i in s.blocks)
    && (i in s.blocks ==> t.blocks[i] == s.blocks[i])
    && OwnSent(t, i) == OwnSent(s, i)
  }

  predicate Interrupted(s: State, t: State, i: int) {
    && i in s.blocks && i in t.blocks && s.open == Some(i) && s.blocks[i].live
    && t.blocks[i] == s.blocks[i].(live := false)
    && OwnSent(t, i) == OwnSent(s, i) + [BlockStop(s.blocks[i].index)]
  }

  predicate Affects(s: State, t: State, i: int) {
    Undisturbed(s, t, i) || Interrupted(s, t, i)
  }

  lemma ThenUndisturbed(s: State, t: State, u: State, i: int)
    requires Affects(s, t, i) && Undisturbed(t, u, i)
    ensures Affects(s, u, i)
  {
  }

  lemma EmitElsewhere(s: State, j: int, wire: Wire, i: int)
    requires i != j
    ensures Undisturbed(s, Emit(s, Some(j), wire), i)
  {
    EmitOwn(s, Some(j), wire, i);
  }

  lemma StopBlockElsewhere(s: State, j: int, i: int)
    requires i != j && j in s.blocks
    ensures Undisturbed(s, StopBlock(s, j), i)
  {
    EmitOwn(s, Some(j), BlockStop(s.blocks[j].index), i);
  }

  lemma CloseOtherAffects(s: State, j: int, i: int)
    requires Consistent(s)
    ensures Affects(s, CloseOther(s, j), i)
  {
    if s.open.Some? && s.open.value != j && s.blocks[s.open.value].live {
      if s.open.value == i {
        EmitOwn(s, Some(i), BlockStop(s.blocks[i].index), i);
      } else {
        StopBlockElsewhere(s, s.open.value, i);
      }
    }
  }

  lemma OpenWithElsewhere(s: State, j: int, head: Head, delta: Delta, i: int)
    requires i != j && j in s.blocks
    ensures Undisturbed(s, OpenWith(s, j, head, delta), i)
  {
    var x, y := Sent(Some(j), BlockStart(s.next, head)), Sent(Some(j), BlockDelta(s.next, delta));
    SentForSnoc(s.sent, x, i);
    SentForSnoc(s.sent + [x], y, i);
  }

  lemma SealedElsewhere(s: State, j: int, blob: string, i: int)
    requires i != j && j in s.blocks
    ensures Undisturbed(s, SendSealed(s, j, blob), i)
  {
    var x, y := Sent(Some(j), BlockStart(s.next, RedactedHead(blob))), Sent(Some(j), BlockStop(s.next));
    SentForSnoc(s.sent, x, i);
    SentForSnoc(s.sent + [x], y, i);
  }

  lemma ThinkingDoneElsewhere(s: State, j: int, blob: string, i: int)
    requires Consistent(s) && i != j && Is(s, j, Thinking)
    ensures Affects(s, ThinkingDone(s, j, blob), i)
  {
    if s.blocks[j].live {
      var signed := if blob == "" then s else Emit(s, Some(j), BlockDelta(s.blocks[j].index, SignatureD(blob)));
      EmitElsewhere(s, j, BlockDelta(s.blocks[j].index, SignatureD(blob)), i);
      StopBlockElsewhere(signed, j, i);
    } else if blob != "" {
      CloseOtherAffects(s, j, i);
      SealedElsewhere(CloseOther(s, j), j, blob, i);
      ThenUndisturbed(s, CloseOther(s, j), SendSealed(CloseOther(s, j), j, blob), i);
    }
  }

  lemma SettleElsewhere(s: State, j: int, i: int)
    requires i != j && j in s.blocks
    ensures Undisturbed(s, Settle(s, j), i)
  {
  }

  lemma ThinkingSettledElsewhere(s: State, j: int, blob: string, i: int)
    requires Consistent(s) && i != j && Is(s, j, Thinking)
    ensures Affects(s, Settle(ThinkingDone(s, j, blob), j), i)
  {
    var d := ThinkingDone(s, j, blob);
    ThinkingDoneElsewhere(s, j, blob, i);
    SettleElsewhere(d, j, i);
    ThenUndisturbed(s, d, Settle(d, j), i);
  }

  lemma StopElsewhere(s: State, j: int, item: Item, i: int)
    requires i != j && j in s.blocks
    ensures Undisturbed(s, FinishBlock(s, j, item), i)
  {
    EmitElsewhere(s, j, BlockDelta(s.blocks[j].index, JsonD(MissingArgs(s.blocks[j], item))), i);
    StopBlockElsewhere(SendMissingArgs(s, j, item), j, i);
  }

  lemma ItemDoneElsewhere(prefix: string, s: State, j: int, item: Item, i: int)
    requires Consistent(s) && i != j
    ensures Affects(s, OnItemDone(prefix, s, j, item), i)
  {
    if j in s.blocks {
      if s.blocks[j].kind == Thinking {
        ThinkingSettledElsewhere(s, j, Blob(prefix, item), i);
      } else if s.blocks[j].live {
        StopElsewhere(s, j, item, i);
      }
    }
  }

  lemma ItemAddedElsewhere(s: State, j: int, item: Item, i: int)
    requires Consistent(s) && i != j
    ensures Affects(s, OnItemAdded(s, j, item), i)
  {
    if j !in s.blocks && item.itemType == FunctionCallType {
      CloseOtherAffects(s, j, i);
      var c := CloseOther(s, j);
      EmitElsewhere(c, j, BlockStart(c.next, ToolHead(ToolId(item, c.next), item.name)), i);
      ThenUndisturbed(s, c, OpenTool(c, j, item), i);
    }
  }

  lemma TextDeltaElsewhere(s: State, j: int, d: string, i: int)
    requires Consistent(s) && i != j
    ensures Affects(s, OnTextDelta(s, j, d), i)
  {
    if Is(s, j, Text) && d != "" {
      if s.blocks[j].live {
        EmitElsewhere(s, j, BlockDelta(s.blocks[j].index, TextD(d)), i);
      } else if !Blank(s.blocks[j].pending + d) {
        CloseOtherAffects(s, j, i);
        OpenWithElsewhere(CloseOther(s, j), j, TextHead, TextD(s.blocks[j].pending + d), i);
        ThenUndisturbed(s, CloseOther(s, j), OnTextDelta(s, j, d), i);
      }
    }
  }

  lemma SummaryDeltaElsewhere(s: State, j: int, d: string, i: int)
    requires Consistent(s) && i != j
    ensures Affects(s, OnSummaryDelta(s, j, d), i)
  {
    if Is(s, j, Thinking) {
      if s.blocks[j].live {
        EmitElsewhere(s, j, BlockDelta(s.blocks[j].index, ThinkingD(d)), i);
      } else {
        CloseOtherAffects(s, j, i);
        var c := CloseOther(s, j).(open := Some(j));
        if !Blank(s.blocks[j].pending + d) {
          OpenWithElsewhere(c, j, ThinkingHead, ThinkingD(s.blocks[j].pending + d), i);
        }
        ThenUndisturbed(s, CloseOther(s, j), OnSummaryDelta(s, j, d), i);
      }
    }
  }

  lemma EnsureStartElsewhere(s: State, i: int)
    ensures Undisturbed(s, EnsureStart(s), i)
  {
    EmitOwn(s.(started := true), None, MessageStart, i);
  }

  /** An event of another item leaves item i alone, except that it may stop i's open block. */
  lemma OthersOnlyInterrupt(prefix: string, s: State, e: Upstream, i: int)
    requires Good(s) && KeyOf(e) != Some(i)
    ensures Affects(s, HandleOpen(prefix, s, e), i)
  {
    var h := s.(handled := s.handled + [e]);
    match e
    case Noted => EnsureStartElsewhere(h, i);
    case ItemAdded(j, item) =>
      EnsureStartElsewhere(h, i);
      ItemAddedElsewhere(EnsureStart(h), j, item, i);
    case TextDelta(j, d) => TextDeltaElsewhere(h, j, d, i);
    case SummaryDelta(j, d) => SummaryDeltaElsewhere(h, j, d, i);
    case ArgsDelta(j, d) =>
      if Is(s, j, Tool) {
        EmitElsewhere(h, j, BlockDelta(s.blocks[j].index, JsonD(d)), i);
      }
    case ItemDone(j, item) => ItemDoneElsewhere(prefix, h, j, item, i);
    case _ =>
  }

  /** While an event need not be deferred, nobody interrupts a tool_use or thinking block. */
  lemma UninterruptibleIsLeftAlone(prefix: string, s: State, e: Upstream, i: int)
    requires Good(s) && KeyOf(e) != Some(i) && !ShouldDefer(s, e) && i in s.blocks && s.blocks[i].kind != Text
    ensures Undisturbed(s, HandleOpen(prefix, s, e), i)
  {
    OthersOnlyInterrupt(prefix, s, e, i);
    if !Deferrable(e) {
      EnsureStartElsewhere(s.(handled := s.handled + [e]), i);
    }
  }

  // ---- which items the translator knows ------------------------------------------------------

  function KindFor(t: ItemType): Option<Kind> {
    match t
    case ReasoningType => Some(Thinking)
    case MessageType => Some(Text)
    case FunctionCallType => Some(Tool)
    case OtherType => None
  }

  /** The kind of an item: what its first output_item.added of a known type says. */
  function KindOf(own: seq<Upstream>): Option<Kind> {
    if own == [] then None
    else
      var k := KindOf(own[..|own| - 1]);
      var e := own[|own| - 1];
      if k.Some? then k else if e.ItemAdded? then KindFor(e.item.itemType) else None
  }

  lemma KindOfSnoc(own: seq<Upstream>, e: Upstream)
    ensures KindOf(own + [e]) ==
            if KindOf(own).Some? then KindOf(own) else if e.ItemAdded? then KindFor(e.item.itemType) else None
  {
    assert (own + [e])[..|own|] == own;
  }

  predicate KnownKind(s: State, i: int) {
    KindOf(Of(s.handled, Some(i))) == if i in s.blocks then Some(s.blocks[i].kind) else None
  }

  predicate SameKind(s: State, t: State, i: int) {
    (i in t.blocks <==> i in s.blocks) && (i in s.blocks ==> t.blocks[i].kind == s.blocks[i].kind)
  }

  lemma DeltaKind(s: State, i: int, d: string)
    requires Consistent(s)
    ensures SameKind(s, OnTextDelta(s, i, d), i) && SameKind(s, OnSummaryDelta(s, i, d), i)
    ensures SameKind(s, OnArgsDelta(s, i, d), i)
  {
  }

  lemma CloseOtherKind(s: State, j: int, i: int)
    ensures SameKind(s, CloseOther(s, j), i)
  {
  }

  lemma ThinkingDoneKind(s: State, i: int, blob: string)
    requires Is(s, i, Thinking)
    ensures SameKind(s, Settle(ThinkingDone(s, i, blob), i), i)
  {
    if !s.blocks[i].live && blob != "" {
      CloseOtherKind(s, i, i);
    }
  }

  lemma DoneKind(prefix: string, s: State, i: int, item: Item)
    requires Consistent(s)
    ensures SameKind(s, OnItemDone(prefix, s, i, item), i)
  {
    if Is(s, i, Thinking) {
      ThinkingDoneKind(s, i, Blob(prefix, item));
    }
  }

  lemma OwnKind(prefix: string, s: State, e: Upstream, i: int)
    requires Good(s) && KeyOf(e) == Some(i) && (!e.ItemAdded? || i in s.blocks)
    ensures SameKind(s, HandleOpen(prefix, s, e), i)
  {
    var h := s.(handled := s.handled + [e]);
    match e
    case ItemAdded(_, item) =>
    case TextDelta(_, d) => DeltaKind(h, i, d);
    case SummaryDelta(_, d) => DeltaKind(h, i, d);
    case ArgsDelta(_, d) => DeltaKind(h, i, d);
    case ItemDone(_, item) => DoneKind(prefix, h, i, item);
  }

  lemma AddedKind(s: State, i: int, item: Item)
    requires Consistent(s) && i !in s.blocks
    ensures var t := OnItemAdded(s, i, item);
            KindFor(item.itemType) == if i in t.blocks then Some(t.blocks[i].kind) else None
  {
  }

  lemma HandleOpenKind(prefix: string, s: State, e: Upstream, i: int)
    requires Good(s) && KnownKind(s, i)
    ensures KnownKind(HandleOpen(prefix, s, e), i)
  {
    var own := Of(s.handled, Some(i));
    OfSnoc(s.handled, e, Some(i));
    if KeyOf(e) == Some(i) {
      KindOfSnoc(own, e);
      if e.ItemAdded? && i !in s.blocks {
        EnsureStartGood(s.(handled := s.handled + [e]));
        AddedKind(EnsureStart(s.(handled := s.handled + [e])), i, e.item);
      } else {
        OwnKind(prefix, s, e, i);
      }
    } else {
      OthersOnlyInterrupt(prefix, s, e, i);
    }
  }
}
