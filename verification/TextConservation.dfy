/** No text is lost, duplicated or moved between items, whatever splits the text blocks. */
module TextConservation {
  import opened JsText
  import opened Protocol
  import opened Translation
  import opened Bracketing
  import opened Deferral
  import opened ItemViews

  /** The text the client reads in a run of block events. */
  function TextOf(wires: seq<Wire>): string {
    if wires == [] then ""
    else
      var before := TextOf(wires[..|wires| - 1]);
      var w := wires[|wires| - 1];
      if w.BlockDelta? && w.delta.TextD? then before + w.delta.text else before
  }

  lemma TextOfSnoc(wires: seq<Wire>, w: Wire)
    ensures TextOf(wires + [w])
         == if w.BlockDelta? && w.delta.TextD? then TextOf(wires) + w.delta.text else TextOf(wires)
  {
    assert (wires + [w])[..|wires|] == wires;
  }

  /** The text of a message item: its deltas from its registration on. */
  function MessageText(own: seq<Upstream>): string {
    if own == [] then ""
    else
      var before := own[..|own| - 1];
      var e := own[|own| - 1];
      if e.TextDelta? && KindOf(before) == Some(Text) then MessageText(before) + e.delta else MessageText(before)
  }

  lemma MessageTextSnoc(own: seq<Upstream>, e: Upstream)
    ensures MessageText(own + [e]) ==
            if e.TextDelta? && KindOf(own) == Some(Text) then MessageText(own) + e.delta else MessageText(own)
  {
    assert (own + [e])[..|own|] == own;
  }

  lemma {:induction false} NoTextBeforeKind(own: seq<Upstream>)
    requires KindOf(own) == None
    ensures MessageText(own) == ""
  {
    if own != [] {
      NoTextBeforeKind(own[..|own| - 1]);
    }
  }

  /** Text emitted for message item i plus its buffered whitespace is all the text handled for it. */
  predicate TextKept(s: State, i: int) {
    && KnownKind(s, i)
    && (i !in s.blocks ==> OwnSent(s, i) == [])
    && (Is(s, i, Text) ==> TextOf(OwnSent(s, i)) + s.blocks[i].pending == MessageText(Of(s.handled, Some(i))))
  }

  lemma SameTextKept(s: State, t: State, i: int)
    requires TextKept(s, i) && Affects(s, t, i) && Of(t.handled, Some(i)) == Of(s.handled, Some(i))
    ensures TextKept(t, i)
  {
    if i in s.blocks {
      TextOfSnoc(OwnSent(s, i), BlockStop(s.blocks[i].index));
    }
  }

  // ---- the item's own events -----------------------------------------------------------------

  /** The text known of item i: emitted, then buffered. */
  function TextSoFar(s: State, i: int): string
    requires i in s.blocks
  {
    TextOf(OwnSent(s, i)) + s.blocks[i].pending
  }

  lemma LiveTextDelta(s: State, i: int, delta: string)
    requires Is(s, i, Text) && s.blocks[i].live && s.blocks[i].pending == ""
    ensures TextSoFar(Emit(s, Some(i), BlockDelta(s.blocks[i].index, TextD(delta))), i) == TextSoFar(s, i) + delta
  {
    var w := BlockDelta(s.blocks[i].index, TextD(delta));
    EmitOwn(s, Some(i), w, i);
    TextOfSnoc(OwnSent(s, i), w);
  }

  lemma OpeningTextDelta(s: State, i: int, delta: string)
    requires Consistent(s) && Is(s, i, Text) && !s.blocks[i].live
    ensures var t := OpenWith(CloseOther(s, i), i, TextHead, TextD(s.blocks[i].pending + delta));
            Is(t, i, Text) && TextSoFar(t, i) == TextSoFar(s, i) + delta
  {
    var c := CloseOther(s, i);
    var text := s.blocks[i].pending + delta;
    CloseOtherAffects(s, i, i);
    OpenedText(c, i, text);
    calc {
      TextSoFar(OpenWith(c, i, TextHead, TextD(text)), i);
      TextOf(OwnSent(s, i)) + text + "";
      TextOf(OwnSent(s, i)) + s.blocks[i].pending + delta;
    }
  }

  lemma OwnTextDelta(s: State, i: int, delta: string)
    requires Consistent(s) && Is(s, i, Text)
    ensures var t := OnTextDelta(s, i, delta); Is(t, i, Text) && TextSoFar(t, i) == TextSoFar(s, i) + delta
  {
    var b := s.blocks[i];
    if delta == "" {
      assert TextSoFar(s, i) + delta == TextSoFar(s, i);
    } else if b.live {
      LiveTextDelta(s, i, delta);
    } else if Blank(b.pending + delta) {
      assert TextOf(OwnSent(s, i)) + (b.pending + delta) == TextOf(OwnSent(s, i)) + b.pending + delta;
    } else {
      OpeningTextDelta(s, i, delta);
    }
  }

  lemma OpenedText(s: State, i: int, text: string)
    requires i in s.blocks
    ensures var t := OpenWith(s, i, TextHead, TextD(text));
            TextOf(OwnSent(t, i)) == TextOf(OwnSent(s, i)) + text && t.blocks[i].pending == ""
  {
    var x, y := BlockStart(s.next, TextHead), BlockDelta(s.next, TextD(text));
    SentForSnoc(s.sent, Sent(Some(i), x), i);
    SentForSnoc(s.sent + [Sent(Some(i), x)], Sent(Some(i), y), i);
    TextOfSnoc(OwnSent(s, i), x);
    TextOfSnoc(OwnSent(s, i) + [x], y);
  }

  lemma OwnOtherEvent(prefix: string, s: State, e: Upstream, i: int)
    requires Good(s) && Is(s, i, Text) && KeyOf(e) == Some(i) && !e.TextDelta?
    ensures var t := HandleOpen(prefix, s, e); Is(t, i, Text) && TextSoFar(t, i) == TextSoFar(s, i)
  {
    if e.ItemDone? && s.blocks[i].live {
      EmitOwn(s, Some(i), BlockStop(s.blocks[i].index), i);
      TextOfSnoc(OwnSent(s, i), BlockStop(s.blocks[i].index));
    } else if e.ItemAdded? {
      EnsureStartElsewhere(s, i);
    }
  }

  lemma FirstEvents(prefix: string, s: State, e: Upstream, i: int)
    requires Good(s) && i !in s.blocks && KeyOf(e) == Some(i) && OwnSent(s, i) == []
    ensures var t := HandleOpen(prefix, s, e);
            (i !in t.blocks ==> OwnSent(t, i) == []) && (Is(t, i, Text) ==> TextSoFar(t, i) == "")
  {
    hide Read, SentFor;
    EnsureStartElsewhere(s, i);
  }

  lemma HandleOpenText(prefix: string, s: State, e: Upstream, i: int)
    requires Good(s) && TextKept(s, i)
    ensures TextKept(HandleOpen(prefix, s, e), i)
  {
    var own := Of(s.handled, Some(i));
    HandleOpenKind(prefix, s, e, i);
    OfSnoc(s.handled, e, Some(i));
    if KeyOf(e) != Some(i) {
      OthersOnlyInterrupt(prefix, s, e, i);
      SameTextKept(s, HandleOpen(prefix, s, e), i);
    } else {
      MessageTextSnoc(own, e);
      if i !in s.blocks {
        FirstEvents(prefix, s, e, i);
        NoTextBeforeKind(own);
      } else if s.blocks[i].kind == Text {
        if e.TextDelta? {
          OwnTextDelta(s.(handled := s.handled + [e]), i, e.delta);
        } else {
          OwnOtherEvent(prefix, s, e, i);
        }
      }
    }
  }

  // ---- every run ------------------------------------------------------------------------------

  lemma {:induction false} ForceDrainText(prefix: string, s: State, i: int)
    requires Good(s) && TextKept(s, i)
    ensures TextKept(ForceDrain(prefix, s), i)
    decreases |s.deferred|
  {
    if s.deferred != [] {
      var p := s.(deferred := s.deferred[1..]);
      assert Good(p);
      HandleOpenGood(prefix, p, s.deferred[0]);
      HandleOpenText(prefix, p, s.deferred[0], i);
      ForceDrainText(prefix, HandleOpen(prefix, p, s.deferred[0]), i);
    }
  }

  lemma {:induction false} DrainText(prefix: string, s: State, i: int)
    requires Good(s) && TextKept(s, i)
    ensures TextKept(Drain(prefix, s), i)
    decreases |s.deferred|
  {
    var n := FirstReady(s, s.deferred);
    if n < |s.deferred| {
      var p := TakeOut(s, n);
      TakeOutGood(s, n);
      HandleOpenGood(prefix, p, s.deferred[n]);
      HandleOpenText(prefix, p, s.deferred[n], i);
      DrainText(prefix, HandleOpen(prefix, p, s.deferred[n]), i);
    }
  }

  lemma CloseAllText(s: State, i: int)
    requires Good(s) && TextKept(s, i)
    ensures TextKept(CloseAll(s), i)
  {
    hide Read, SentFor, StopAll, TextOf;
    CloseAllStopsTheOpenBlock(s);
    if ReaderOf(s).open.Some? {
      var k := s.open.value;
      EmitOwn(s, Some(k), BlockStop(s.blocks[k].index), i);
    }
    SameTextKept(s, CloseAll(s), i);
  }

  lemma FailText(prefix: string, s: State, message: string, i: int)
    requires Good(s) && TextKept(s, i)
    ensures TextKept(Fail(prefix, s, message), i)
  {
    if !s.finished {
      var d := ForceDrain(prefix, s);
      ForceDrainGood(prefix, s);
      ForceDrainText(prefix, s, i);
      CloseAllText(d, i);
      EmitOwn(CloseAll(d), None, ErrorEvent(message), i);
      SameTextKept(CloseAll(d), Fail(prefix, s, message), i);
    }
  }

  lemma OnCompletedText(prefix: string, s: State, ending: Ending, i: int)
    requires Good(s) && TextKept(s, i)
    ensures TextKept(OnCompleted(prefix, s, ending), i)
  {
    if !s.finished {
      var b := EnsureStart(s);
      EnsureStartGood(s);
      EnsureStartElsewhere(s, i);
      SameTextKept(s, b, i);
      var d := ForceDrain(prefix, b);
      ForceDrainGood(prefix, b);
      ForceDrainText(prefix, b, i);
      CloseAllText(d, i);
      var c := CloseAll(d);
      var m := Emit(c, None, MessageDelta(StopReasonOf(c, ending)));
      EmitOwn(c, None, MessageDelta(StopReasonOf(c, ending)), i);
      EmitOwn(m, None, MessageStop, i);
      SameTextKept(c, OnCompleted(prefix, s, ending), i);
    }
  }

  lemma HandleText(prefix: string, s: State, e: Upstream, i: int)
    requires Good(s) && TextKept(s, i)
    ensures TextKept(Handle(prefix, s, e), i)
  {
    var h := s.(handled := s.handled + [e]);
    OfSnoc(s.handled, e, Some(i));
    match e
    case Completed(ending) => OnCompletedText(prefix, h, ending, i);
    case Failed(message) => FailText(prefix, h, message, i);
    case _ => HandleOpenText(prefix, s, e, i);
  }

  lemma ApplyText(prefix: string, s: State, c: Call, i: int)
    requires Good(s) && TextKept(s, i)
    ensures TextKept(Apply(prefix, s, c), i)
  {
    match c
    case Abort(message) => FailText(prefix, s, message, i);
    case Feed(e) =>
      if !ShouldDefer(s, e) {
        HandleText(prefix, s, e, i);
        HandleGood(prefix, s, e);
        DrainText(prefix, Handle(prefix, s, e), i);
      }
  }

  lemma {:induction false} RunText(prefix: string, calls: seq<Call>, i: int)
    ensures TextKept(Run(prefix, calls), i)
  {
    if calls != [] {
      RunIsBracketed(prefix, calls[..|calls| - 1]);
      RunText(prefix, calls[..|calls| - 1], i);
      ApplyText(prefix, Run(prefix, calls[..|calls| - 1]), calls[|calls| - 1], i);
    }
  }

  /** Text conservation, for every run and every message item: the text emitted for the item
      followed by a blank buffer is the concatenation of its deltas handled so far. */
  lemma TextIsConserved(prefix: string, calls: seq<Call>, i: int)
    requires Is(Run(prefix, calls), i, Text)
    ensures var s := Run(prefix, calls);
            && TextOf(OwnSent(s, i)) + s.blocks[i].pending == MessageText(Of(s.handled, Some(i)))
            && Blank(s.blocks[i].pending)
            && (s.blocks[i].live ==> s.blocks[i].pending == "")
  {
    RunIsBracketed(prefix, calls);
    RunText(prefix, calls, i);
  }
}
