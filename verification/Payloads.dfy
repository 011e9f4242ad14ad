/** What the client gets of each item when upstream finishes its tool and reasoning items before it
    ends the stream; message items it may leave hanging. */
module Payloads {
  import opened JsText
  import opened Protocol
  import opened Translation
  import opened Bracketing
  import opened Deferral
  import opened ItemViews
  import opened TextConservation
  import opened Interleaving

  // ---- the end of a stream whose items are done ----------------------------------------------

  lemma {:induction false} CalmRunsOn(prefix: string, calls: seq<Call>)
    requires Calm(calls)
    ensures !Run(prefix, calls).finished
  {
    if calls != [] {
      var s := Run(prefix, calls[..|calls| - 1]);
      var e := calls[|calls| - 1].event;
      CalmRunsOn(prefix, calls[..|calls| - 1]);
      RunIsBracketed(prefix, calls[..|calls| - 1]);
      HandleOpenGood(prefix, s, e);
      DrainGood(prefix, HandleOpen(prefix, s, e));
    }
  }

  /** The last event received for every function_call and reasoning item is its item.done; a message
      item may be left without one, as some upstreams do while other items go on. */
  ghost predicate BlockersDone(received: seq<Upstream>) {
    forall i: int ::
      var own := Of(received, Some(i));
      KindOf(own) == Some(Tool) || KindOf(own) == Some(Thinking) ==> own[|own| - 1].ItemDone?
  }

  /** Every event of an item that cannot wait has been handled. */
  lemma NoneQueued(prefix: string, calls: seq<Call>, key: Option<int>)
    requires key.Some? && Of(Run(prefix, calls).deferred, key) == []
    ensures Of(Run(prefix, calls).handled, key) == Of(Received(calls), key)
  {
    hide Run, Received;
    var s := Run(prefix, calls);
    RunConserves(prefix, calls, key);
    assert Known(s, key) == Of(s.handled, key) + [] == Of(s.handled, key);
  }

  /** The open uninterruptible item is one whose events were all handled and whose item.done is missing. */
  lemma BlockerUnfinished(prefix: string, calls: seq<Call>) returns (i: int)
    requires Uninterruptible(Run(prefix, calls))
    ensures Run(prefix, calls).open == Some(i)
    ensures var own := Of(Received(calls), Some(i));
            (KindOf(own) == Some(Tool) || KindOf(own) == Some(Thinking)) && own != [] && !own[|own| - 1].ItemDone?
  {
    hide Run, Received;
    var s := Run(prefix, calls);
    RunUnfinished(prefix, calls);
    RunConserves(prefix, calls, s.open);
    OfNone(s.deferred, s.open);
    NoneQueued(prefix, calls, s.open);
    i := s.open.value;
    RunText(prefix, calls, i);
  }

  /** So with every blocker done none is open. */
  lemma NothingBlocks(prefix: string, calls: seq<Call>)
    requires BlockersDone(Received(calls))
    ensures !Uninterruptible(Run(prefix, calls))
  {
    hide Run, Received;
    if Uninterruptible(Run(prefix, calls)) {
      var i := BlockerUnfinished(prefix, calls);
      assert false;
    }
  }

  /** Then nothing waits, so the forced drain of a terminal event that comes now has nothing to
      replay; and if some block is open it is a message item's whose own item.done is missing. */
  lemma DoneItemsLeaveNothing(prefix: string, calls: seq<Call>)
    requires BlockersDone(Received(calls))
    ensures var s := Run(prefix, calls);
            && s.deferred == []
            && (s.open.Some? ==>
                  && Is(s, s.open.value, Text) && s.blocks[s.open.value].live
                  && var own := Of(Received(calls), s.open); own != [] && !own[|own| - 1].ItemDone?)
  {
    var s := Run(prefix, calls);
    hide Run, Received;
    RunIsBracketed(prefix, calls);
    NothingBlocks(prefix, calls);
    RunConserves(prefix, calls, None);
    assert s.deferred == [] || ShouldDefer(s, s.deferred[0]);
    if s.open.Some? {
      RunUnfinished(prefix, calls);
      assert Of(s.deferred, s.open) == [];
      NoneQueued(prefix, calls, s.open);
    }
  }

  /** The block_stop that closing now sends for item i. */
  function Closing(s: State, i: int): seq<Wire> {
    if s.open == Some(i) && i in s.blocks then [BlockStop(s.blocks[i].index)] else []
  }

  /** The terminal event replays nothing: it stops the open message item, if one was left hanging,
      and adds the message_delta and the message_stop (after a message_start if nothing had started). */
  lemma EndAddsNoBlocks(prefix: string, calls: seq<Call>, ending: Ending)
    requires Calm(calls) && BlockersDone(Received(calls))
    ensures var s := Run(prefix, calls);
            var stop := if s.open.Some? && s.open.value in s.blocks
                        then [Sent(s.open, BlockStop(s.blocks[s.open.value].index))] else [];
            Run(prefix, calls + [Feed(Completed(ending))]).sent ==
            EnsureStart(s).sent + stop + [Sent(None, MessageDelta(StopReasonOf(s, ending)))] + [Sent(None, MessageStop)]
  {
    var s := Run(prefix, calls);
    RunSnoc(prefix, INITIAL, calls, Feed(Completed(ending)));
    CalmRunsOn(prefix, calls);
    DoneItemsLeaveNothing(prefix, calls);
    RunIsBracketed(prefix, calls);
    EndOf(prefix, s, ending);
  }

  lemma EndOf(prefix: string, s: State, ending: Ending)
    requires Good(s) && !s.finished && s.deferred == []
    requires s.open.Some? ==> Is(s, s.open.value, Text) && s.blocks[s.open.value].live
    ensures var stop := if s.open.Some? && s.open.value in s.blocks
                        then [Sent(s.open, BlockStop(s.blocks[s.open.value].index))] else [];
            Push(prefix, s, Completed(ending)).sent ==
            EnsureStart(s).sent + stop + [Sent(None, MessageDelta(StopReasonOf(s, ending)))] + [Sent(None, MessageStop)]
  {
    hide Read, StopAll;
    var h := s.(handled := s.handled + [Completed(ending)]);
    var b := EnsureStart(h);
    EnsureStartGood(h);
    assert ForceDrain(prefix, b) == b;
    CloseAllStopsTheOpenBlock(b);
    var t := OnCompleted(prefix, h, ending);
    assert t.deferred == [] && FirstReady(t, t.deferred) == 0 && Drain(prefix, t) == t;
  }

  /** What the terminal event adds to one item is the stop of its open block. */
  lemma EndKeepsItems(prefix: string, calls: seq<Call>, ending: Ending, i: int)
    requires Calm(calls) && BlockersDone(Received(calls))
    ensures var s := Run(prefix, calls);
            OwnSent(Run(prefix, calls + [Feed(Completed(ending))]), i) == OwnSent(s, i) + Closing(s, i)
    ensures Of(Run(prefix, calls).handled, Some(i)) == Of(Received(calls), Some(i))
  {
    hide Run, Received;
    var s, t := Run(prefix, calls), Run(prefix, calls + [Feed(Completed(ending))]);
    EndAddsNoBlocks(prefix, calls, ending);
    EnsureStartElsewhere(s, i);
    DoneItemsLeaveNothing(prefix, calls);
    var b := EnsureStart(s).sent;
    var stop := if s.open.Some? && s.open.value in s.blocks
                then [Sent(s.open, BlockStop(s.blocks[s.open.value].index))] else [];
    EndingFor(b, stop, Sent(None, MessageDelta(StopReasonOf(s, ending))), Sent(None, MessageStop), i);
    NoneQueued(prefix, calls, Some(i));
  }

  lemma EndingFor(b: seq<Sent>, stop: seq<Sent>, x: Sent, y: Sent, i: int)
    requires |stop| <= 1 && x.item == None && y.item == None
    ensures SentFor(b + stop + [x] + [y], i)
            == if stop != [] && stop[0].item == Some(i) then SentFor(b, i) + [stop[0].wire] else SentFor(b, i)
  {
    SentForSnoc(b + stop + [x], y, i);
    SentForSnoc(b + stop, x, i);
    if stop == [] {
      assert b + stop == b;
    } else {
      assert stop == [stop[0]];
      SentForSnoc(b, stop[0], i);
    }
  }

  /** Interleaving independence of a function_call item: whatever else was interleaved, its block
      is the reference reading of its own events under some block number. */
  lemma ToolIndependence(prefix: string, calls: seq<Call>, ending: Ending, i: int) returns (n: nat)
    requires Calm(calls) && BlockersDone(Received(calls)) && KindOf(Of(Received(calls), Some(i))) == Some(Tool)
    ensures OwnSent(Run(prefix, calls + [Feed(Completed(ending))]), i)
            == ToolBlock(n, ToolRunOf(Of(Received(calls), Some(i))))
  {
    hide Run, Received;
    var s := Run(prefix, calls);
    EndKeepsItems(prefix, calls, ending, i);
    DoneItemsLeaveNothing(prefix, calls);
    CalmExact(prefix, calls, i);
    assert OwnSent(s, i) + [] == OwnSent(s, i);
    n := s.blocks[i].index;
  }

  /** Before the end of the stream, a function call's block starts with its name and its call id; without
      one with the item's id, and without either with a number, that of its block. */
  lemma ToolsAreNamed(prefix: string, calls: seq<Call>, i: int)
    requires Calm(calls) && Is(Run(prefix, calls), i, Tool)
    ensures var sent := OwnSent(Run(prefix, calls), i);
            var r := ToolRunOf(Of(Run(prefix, calls).handled, Some(i)));
            && r != NoTool && sent != [] && sent[0].BlockStart? && sent[0].head.ToolHead?
            && sent[0].head.name == r.item.name
            && (r.item.callId.Some? ==> sent[0].head.id == r.item.callId.value)
            && (r.item.callId.None? && r.item.id.Some? ==> sent[0].head.id == r.item.id.value)
            && (r.item.callId.None? && r.item.id.None? ==>
                  sent[0].index >= 0 && sent[0].head.id == "call_" + Decimal(sent[0].index))
  {
    hide Run;
    CalmExact(prefix, calls, i);
    Headed(Run(prefix, calls).blocks[i].index, ToolRunOf(Of(Run(prefix, calls).handled, Some(i))));
  }

  lemma Headed(n: nat, r: ToolRun)
    requires r != NoTool
    ensures ToolBlock(n, r) != [] && ToolBlock(n, r)[0] == BlockStart(n, ToolHead(ToolId(r.item, n), r.item.name))
  {
  }

  /** Interleaving independence of a reasoning item whose item.done is its last event. */
  lemma ThinkingIndependence(prefix: string, calls: seq<Call>, ending: Ending, i: int) returns (n: int)
    requires Calm(calls) && BlockersDone(Received(calls)) && Tidy(Of(Received(calls), Some(i)))
    requires KindOf(Of(Received(calls), Some(i))) == Some(Thinking)
    ensures OwnSent(Run(prefix, calls + [Feed(Completed(ending))]), i)
            == ThinkingBlock(n, ThinkingRunOf(prefix, Of(Received(calls), Some(i))))
  {
    hide Run, Received;
    var s := Run(prefix, calls);
    EndKeepsItems(prefix, calls, ending, i);
    DoneItemsLeaveNothing(prefix, calls);
    CalmExact(prefix, calls, i);
    assert OwnSent(s, i) + [] == OwnSent(s, i);
    n := s.blocks[i].index;
  }

  /** Interleaving independence of a message item, done or left hanging: its text is its own deltas,
      less a blank tail. */
  lemma TextIndependence(prefix: string, calls: seq<Call>, ending: Ending, i: int) returns (tail: string)
    requires Calm(calls) && BlockersDone(Received(calls)) && KindOf(Of(Received(calls), Some(i))) == Some(Text)
    ensures TextOf(OwnSent(Run(prefix, calls + [Feed(Completed(ending))]), i)) + tail
            == MessageText(Of(Received(calls), Some(i)))
    ensures Blank(tail)
  {
    hide Run, Received;
    var s := Run(prefix, calls);
    EndKeepsItems(prefix, calls, ending, i);
    RunText(prefix, calls, i);
    TextIsConserved(prefix, calls, i);
    var own := OwnSent(s, i);
    if Closing(s, i) == [] {
      assert own + [] == own;
    } else {
      TextOfSnoc(own, Closing(s, i)[0]);
    }
    tail := s.blocks[i].pending;
  }

  // ---- the usual life of an item: added, deltas, done ------------------------------------------

  function ArgsDeltas(i: int, deltas: seq<string>): seq<Upstream> {
    if deltas == [] then [] else ArgsDeltas(i, deltas[..|deltas| - 1]) + [ArgsDelta(i, deltas[|deltas| - 1])]
  }

  function SummaryDeltas(i: int, deltas: seq<string>): seq<Upstream> {
    if deltas == [] then [] else SummaryDeltas(i, deltas[..|deltas| - 1]) + [SummaryDelta(i, deltas[|deltas| - 1])]
  }

  function TextDeltas(i: int, deltas: seq<string>): seq<Upstream> {
    if deltas == [] then [] else TextDeltas(i, deltas[..|deltas| - 1]) + [TextDelta(i, deltas[|deltas| - 1])]
  }

  /** The deltas completed by the tail of the full arguments that they do not cover. */
  function CompletedArgs(sent: string, full: string): string {
    if |full| > |sent| then sent + full[|sent|..] else sent
  }

  lemma {:induction false} StreamedArgs(i: int, item: Item, deltas: seq<string>)
    requires item.itemType == FunctionCallType
    ensures var own := [ItemAdded(i, item)] + ArgsDeltas(i, deltas);
            && KindOf(own) == Some(Tool)
            && ToolRunOf(own).Streaming? && ToolRunOf(own).item == item
            && Join(ToolRunOf(own).chunks) == Join(deltas)
  {
    var start := [ItemAdded(i, item)];
    if deltas == [] {
      assert start + [] == start && start[..0] == [];
    } else {
      var last := |deltas| - 1;
      StreamedArgs(i, item, deltas[..last]);
      var before := start + ArgsDeltas(i, deltas[..last]);
      assert start + ArgsDeltas(i, deltas) == before + [ArgsDelta(i, deltas[last])];
      RunsSnoc("", before, ArgsDelta(i, deltas[last]));
      KindOfSnoc(before, ArgsDelta(i, deltas[last]));
      JoinSnoc(ToolRunOf(before).chunks, deltas[last]);
    }
  }

  /** A function_call item sends the arguments of its item.done whenever its deltas are a prefix
      of them, which includes the upstreams that send no deltas at all. */
  lemma ToolArguments(i: int, item: Item, deltas: seq<string>, done: Item)
    requires item.itemType == FunctionCallType
    ensures var r := ToolRunOf([ItemAdded(i, item)] + ArgsDeltas(i, deltas) + [ItemDone(i, done)]);
            && r.Ended? && r.item == item
            && Join(r.chunks) == CompletedArgs(Join(deltas), done.arguments)
            && (Join(deltas) <= done.arguments ==> Join(r.chunks) == done.arguments)
  {
    var before := [ItemAdded(i, item)] + ArgsDeltas(i, deltas);
    StreamedArgs(i, item, deltas);
    RunsSnoc("", before, ItemDone(i, done));
    var chunks := ToolRunOf(before).chunks;
    if |done.arguments| > |Join(chunks)| {
      JoinSnoc(chunks, done.arguments[|Join(chunks)|..]);
    } else {
      assert chunks + [] == chunks;
    }
  }

  lemma {:induction false} StreamedSummary(prefix: string, i: int, item: Item, deltas: seq<string>)
    requires item.itemType == ReasoningType
    ensures var own := [ItemAdded(i, item)] + SummaryDeltas(i, deltas);
            var r := ThinkingRunOf(prefix, own);
            && KindOf(own) == Some(Thinking)
            && if Blank(Join(deltas)) then r == Quiet(Join(deltas)) else r.Visible? && Join(r.chunks) == Join(deltas)
  {
    var start := [ItemAdded(i, item)];
    if deltas == [] {
      assert start + [] == start && start[..0] == [];
    } else {
      var last := |deltas| - 1;
      StreamedSummary(prefix, i, item, deltas[..last]);
      var before := start + SummaryDeltas(i, deltas[..last]);
      var r := ThinkingRunOf(prefix, before);
      assert start + SummaryDeltas(i, deltas) == before + [SummaryDelta(i, deltas[last])];
      RunsSnoc(prefix, before, SummaryDelta(i, deltas[last]));
      KindOfSnoc(before, SummaryDelta(i, deltas[last]));
      BlankAppend(Join(deltas[..last]), deltas[last]);
      if r.Visible? {
        JoinSnoc(r.chunks, deltas[last]);
      } else {
        JoinSnoc([], Join(deltas));
        assert [] + [Join(deltas)] == [Join(deltas)];
      }
    }
  }

  lemma BlankAppend(a: string, b: string)
    ensures Blank(a + b) <==> Blank(a) && Blank(b)
  {
    if Blank(a + b) {
      assert forall k | 0 <= k < |a| :: a[k] == (a + b)[k];
      assert forall k | 0 <= k < |b| :: b[k] == (a + b)[|a| + k];
    }
  }

  /** A reasoning item sends one block: its whole summary signed with its blob, or the blob alone
      when there is no visible summary; nothing only when there is neither. */
  lemma ReasoningPayload(prefix: string, i: int, item: Item, deltas: seq<string>, done: Item)
    requires item.itemType == ReasoningType
    ensures var own := [ItemAdded(i, item)] + SummaryDeltas(i, deltas) + [ItemDone(i, done)];
            var r := ThinkingRunOf(prefix, own);
            && Tidy(own)
            && if !Blank(Join(deltas))
               then r.Signed? && Join(r.chunks) == Join(deltas) && r.signature == Blob(prefix, done)
               else if Blob(prefix, done) != "" then r == Sealed(Blob(prefix, done))
               else r == Empty
  {
    var before := [ItemAdded(i, item)] + SummaryDeltas(i, deltas);
    StreamedSummary(prefix, i, item, deltas);
    RunsSnoc(prefix, before, ItemDone(i, done));
    OnlySummaryDeltas(i, deltas);
    var own := before + [ItemDone(i, done)];
    forall k | 0 <= k < |own| - 1
      ensures !own[k].ItemDone?
    {
      assert own[k] == before[k];
      assert before[k] == if k == 0 then ItemAdded(i, item) else SummaryDeltas(i, deltas)[k - 1];
    }
  }

  lemma {:induction false} OnlySummaryDeltas(i: int, deltas: seq<string>)
    ensures forall k | 0 <= k < |SummaryDeltas(i, deltas)| :: SummaryDeltas(i, deltas)[k].SummaryDelta?
  {
    if deltas != [] {
      OnlySummaryDeltas(i, deltas[..|deltas| - 1]);
      assert SummaryDeltas(i, deltas)[|SummaryDeltas(i, deltas)| - 1].SummaryDelta?;
    }
  }

  /** A message item's text is the concatenation of its deltas. */
  lemma {:induction false} MessagePayload(i: int, item: Item, deltas: seq<string>)
    requires item.itemType == MessageType
    ensures var own := [ItemAdded(i, item)] + TextDeltas(i, deltas);
            && KindOf(own) == Some(Text)
            && MessageText(own) == Join(deltas)
            && forall done :: MessageText(own + [ItemDone(i, done)]) == Join(deltas)
  {
    var start := [ItemAdded(i, item)];
    var own := start + TextDeltas(i, deltas);
    if deltas == [] {
      assert start + [] == start && start[..0] == [];
    } else {
      var last := |deltas| - 1;
      MessagePayload(i, item, deltas[..last]);
      var before := start + TextDeltas(i, deltas[..last]);
      assert own == before + [TextDelta(i, deltas[last])];
      MessageTextSnoc(before, TextDelta(i, deltas[last]));
      KindOfSnoc(before, TextDelta(i, deltas[last]));
    }
    forall done
      ensures MessageText(own + [ItemDone(i, done)]) == MessageText(own)
    {
      MessageTextSnoc(own, ItemDone(i, done));
    }
  }
}
