/** A whole response through the bridge and back: `pushJson`, the collector, `messageToInputItems`. */
module RoundTrip {
  import opened JsText
  import opened Protocol
  import opened Translation
  import opened Bracketing
  import opened Endings
  import opened Deferral
  import opened ItemViews
  import opened Payloads
  import opened JsonBodies
  import opened MessageCollectors
  import opened RequestItems

  // ---- one item after the other: nothing waits and nothing interrupts ----------------------------

  /** No event waits, and no block but possibly item i's is open. */
  ghost predicate Serving(s: State, i: int) {
    Good(s) && s.deferred == [] && s.started && !s.finished && (s.open.Some? ==> s.open == Some(i))
  }

  lemma Direct(prefix: string, s: State, e: Upstream, i: int)
    requires Serving(s, i) && KeyOf(e) == Some(i)
    ensures Push(prefix, s, e) == HandleOpen(prefix, s, e)
    ensures Serving(Push(prefix, s, e), i)
    ensures forall k <- Push(prefix, s, e).blocks :: k == i || k in s.blocks
  {
    HandleOpenGood(prefix, s, e);
    HandleOpenOpens(prefix, s, e);
    KeysOfOthers(prefix, s, e, i);
  }

  lemma KeysOfOthers(prefix: string, s: State, e: Upstream, i: int)
    requires Good(s) && KeyOf(e) == Some(i)
    ensures forall k <- HandleOpen(prefix, s, e).blocks :: k == i || k in s.blocks
  {
    forall k <- HandleOpen(prefix, s, e).blocks | k != i
      ensures k in s.blocks
    {
      OthersOnlyInterrupt(prefix, s, e, k);
    }
  }

  // ---- the blocks of one item ---------------------------------------------------------------------

  function ItemCells(prefix: string, o: OutputItem, n: nat): seq<Cell> {
    var text := Join(o.parts);
    var blob := Blob(prefix, o.item);
    match o.item.itemType
    case MessageType => if Blank(text) then [] else [NewCell(TextHead).(text := text)]
    case ReasoningType =>
      if !Blank(text) then [NewCell(ThinkingHead).(thinking := text, signature := blob)]
      else if blob != "" then [NewCell(RedactedHead(blob))]
      else []
    case FunctionCallType => [NewCell(ToolHead(ToolId(o.item, n), o.item.name)).(inputJson := o.item.arguments)]
    case OtherType => []
  }

  /** The blocks of a whole output, n blocks being there already. */
  function OutputCells(prefix: string, output: seq<OutputItem>, n: nat): seq<Cell> {
    if output == [] then []
    else
      var first := ItemCells(prefix, output[0], n);
      first + OutputCells(prefix, output[1..], n + |first|)
  }

  lemma {:induction false} OutputCellsSnoc(prefix: string, output: seq<OutputItem>, n: nat, o: OutputItem)
    ensures var before := OutputCells(prefix, output, n);
            OutputCells(prefix, output + [o], n) == before + ItemCells(prefix, o, n + |before|)
  {
    hide ItemCells;
    if output != [] {
      OutputCellsSnoc(prefix, output[1..], n + |ItemCells(prefix, output[0], n)|, o);
      assert (output + [o])[1..] == output[1..] + [o];
    }
  }

  lemma EmitCells(s: State, item: Option<int>, wire: Wire)
    ensures Cells(Emit(s, item, wire).sent) == AddWire(Cells(s.sent), wire)
  {
    CellsSnoc(s.sent, Sent(item, wire));
  }

  lemma OpenWithCells(s: State, i: int, head: Head, delta: Delta)
    requires i in s.blocks
    ensures Cells(OpenWith(s, i, head, delta).sent) == Cells(s.sent) + [AddDelta(NewCell(head), delta)]
  {
    var x, y := Sent(Some(i), BlockStart(s.next, head)), Sent(Some(i), BlockDelta(s.next, delta));
    CellsSnoc(s.sent, x);
    CellsSnoc(s.sent + [x], y);
    var cells := Cells(s.sent) + [NewCell(head)];
    assert cells[..|cells| - 1] == Cells(s.sent);
  }

  lemma LastCell(cells: seq<Cell>, c: Cell, d: Delta, n: int)
    ensures AddWire(cells + [c], BlockDelta(n, d)) == cells + [AddDelta(c, d)]
  {
    assert (cells + [c])[..|cells|] == cells;
  }

  lemma ServingCount(s: State)
    requires Good(s) && !s.finished
    ensures |Cells(s.sent)| == s.next
  {
    CellCount(s.sent, ReaderOf(s));
  }

  lemma WireCount(cells: seq<Cell>, r: Reader, x: Sent)
    requires Allowed(r, x) && |cells| == r.count
    ensures |AddWire(cells, x.wire)| == Next(r, x).count
  {
    hide Fits, StopReasonFits;
  }

  lemma {:induction false} CellCount(sent: seq<Sent>, r: Reader)
    requires Read(sent) == Some(r)
    ensures |Cells(sent)| == r.count
  {
    hide Allowed, AddWire, Next;
    if sent == [] {
      assert r == FRESH;
    } else {
      var before, x := sent[..|sent| - 1], sent[|sent| - 1];
      CellCount(before, Read(before).value);
      WireCount(Cells(before), Read(before).value, x);
    }
  }

  /** Message item i after some of its text, from cells on. */
  predicate TextServed(s: State, i: int, cells: seq<Cell>, text: string) {
    && Is(s, i, Text)
    && if Blank(text) then !s.blocks[i].live && s.blocks[i].pending == text && s.open == None && Cells(s.sent) == cells
       else s.blocks[i].live && s.open == Some(i) && Cells(s.sent) == cells + [NewCell(TextHead).(text := text)]
  }

  lemma TextStep(prefix: string, s: State, i: int, cells: seq<Cell>, text: string, d: string)
    requires Serving(s, i) && TextServed(s, i, cells, text)
    ensures TextServed(HandleOpen(prefix, s, TextDelta(i, d)), i, cells, text + d)
  {
    hide Cells, Blank;
    BlankAppend(text, d);
    var h := s.(handled := s.handled + [TextDelta(i, d)]);
    if d == "" {
      assert text + d == text;
    } else if Blank(text) {
      if !Blank(text + d) {
        OpenWithCells(h, i, TextHead, TextD(text + d));
        assert "" + (text + d) == text + d;
      }
    } else {
      EmitCells(h, Some(i), BlockDelta(s.blocks[i].index, TextD(d)));
      LastCell(cells, NewCell(TextHead).(text := text), TextD(d), s.blocks[i].index);
    }
  }

  /** Reasoning item i after some of its summary, from cells on. */
  predicate SummaryServed(s: State, i: int, cells: seq<Cell>, text: string) {
    && Is(s, i, Thinking)
    && if Blank(text) then !s.blocks[i].live && s.blocks[i].pending == text && Cells(s.sent) == cells
       else s.blocks[i].live && Cells(s.sent) == cells + [NewCell(ThinkingHead).(thinking := text)]
  }

  lemma SummaryStep(prefix: string, s: State, i: int, cells: seq<Cell>, text: string, d: string)
    requires Serving(s, i) && SummaryServed(s, i, cells, text)
    ensures SummaryServed(HandleOpen(prefix, s, SummaryDelta(i, d)), i, cells, text + d)
  {
    hide Cells, Blank;
    BlankAppend(text, d);
    var h := s.(handled := s.handled + [SummaryDelta(i, d)]);
    if Blank(text) {
      if !Blank(text + d) {
        OpenWithCells(h.(open := Some(i)), i, ThinkingHead, ThinkingD(text + d));
        assert "" + (text + d) == text + d;
      }
    } else if d == "" {
      assert text + d == text;
    } else {
      EmitCells(h, Some(i), BlockDelta(s.blocks[i].index, ThinkingD(d)));
      LastCell(cells, NewCell(ThinkingHead).(thinking := text), ThinkingD(d), s.blocks[i].index);
    }
  }

  lemma {:induction false} TextPartsServed(prefix: string, s: State, i: int, parts: seq<string>)
    requires Serving(s, i) && TextServed(s, i, Cells(s.sent), "")
    ensures var t := RunFrom(prefix, s, Feeds(TextDeltas(i, parts)));
            && Serving(t, i) && TextServed(t, i, Cells(s.sent), Join(parts))
            && forall k <- t.blocks :: k == i || k in s.blocks
  {
    if parts != [] {
      var before, d := parts[..|parts| - 1], parts[|parts| - 1];
      TextPartsServed(prefix, s, i, before);
      var t := RunFrom(prefix, s, Feeds(TextDeltas(i, before)));
      FedSnoc(prefix, s, TextDeltas(i, before), TextDelta(i, d));
      Direct(prefix, t, TextDelta(i, d), i);
      TextStep(prefix, t, i, Cells(s.sent), Join(before), d);
    }
  }

  lemma {:induction false} SummaryPartsServed(prefix: string, s: State, i: int, parts: seq<string>)
    requires Serving(s, i) && SummaryServed(s, i, Cells(s.sent), "")
    ensures var t := RunFrom(prefix, s, Feeds(SummaryDeltas(i, parts)));
            && Serving(t, i) && SummaryServed(t, i, Cells(s.sent), Join(parts))
            && forall k <- t.blocks :: k == i || k in s.blocks
  {
    if parts != [] {
      var before, d := parts[..|parts| - 1], parts[|parts| - 1];
      SummaryPartsServed(prefix, s, i, before);
      var t := RunFrom(prefix, s, Feeds(SummaryDeltas(i, before)));
      FedSnoc(prefix, s, SummaryDeltas(i, before), SummaryDelta(i, d));
      Direct(prefix, t, SummaryDelta(i, d), i);
      SummaryStep(prefix, t, i, Cells(s.sent), Join(before), d);
    }
  }

  lemma StopCells(s: State, i: int)
    requires i in s.blocks
    ensures Cells(StopBlock(s, i).sent) == Cells(s.sent)
  {
    EmitCells(s, Some(i), BlockStop(s.blocks[i].index));
  }

  lemma MessageDone(prefix: string, s: State, i: int, item: Item, cells: seq<Cell>, text: string)
    requires Serving(s, i) && TextServed(s, i, cells, text)
    ensures var t := HandleOpen(prefix, s, ItemDone(i, item));
            Cells(t.sent) == cells + if Blank(text) then [] else [NewCell(TextHead).(text := text)]
  {
    StopCells(s, i);
  }

  lemma SignedCells(s: State, i: int, blob: string, cells: seq<Cell>, text: string)
    requires Is(s, i, Thinking) && s.blocks[i].live
             && Cells(s.sent) == cells + [NewCell(ThinkingHead).(thinking := text)]
    ensures Cells(ThinkingDone(s, i, blob).sent)
            == cells + [NewCell(ThinkingHead).(thinking := text, signature := blob)]
  {
    if blob == "" {
      StopCells(s, i);
    } else {
      var signed := Emit(s, Some(i), BlockDelta(s.blocks[i].index, SignatureD(blob)));
      EmitCells(s, Some(i), BlockDelta(s.blocks[i].index, SignatureD(blob)));
      LastCell(cells, NewCell(ThinkingHead).(thinking := text), SignatureD(blob), s.blocks[i].index);
      assert "" + blob == blob;
      StopCells(signed, i);
    }
  }

  lemma SealedCells(s: State, i: int, blob: string)
    requires i in s.blocks
    ensures Cells(SendSealed(s, i, blob).sent) == Cells(s.sent) + [NewCell(RedactedHead(blob))]
  {
    var x, y := Sent(Some(i), BlockStart(s.next, RedactedHead(blob))), Sent(Some(i), BlockStop(s.next));
    CellsSnoc(s.sent, x);
    CellsSnoc(s.sent + [x], y);
  }

  lemma ReasoningDone(prefix: string, s: State, i: int, item: Item, cells: seq<Cell>, text: string)
    requires Serving(s, i) && SummaryServed(s, i, cells, text)
    ensures var t := HandleOpen(prefix, s, ItemDone(i, item));
            var blob := Blob(prefix, item);
            Cells(t.sent) == cells +
              if !Blank(text) then [NewCell(ThinkingHead).(thinking := text, signature := blob)]
              else if blob != "" then [NewCell(RedactedHead(blob))]
              else []
  {
    var h := s.(handled := s.handled + [ItemDone(i, item)]);
    ReasoningSettled(h, i, Blob(prefix, item), cells, text);
  }

  lemma ReasoningSettled(s: State, i: int, blob: string, cells: seq<Cell>, text: string)
    requires SummaryServed(s, i, cells, text) && (s.open.Some? ==> s.open == Some(i))
    ensures Cells(Settle(ThinkingDone(s, i, blob), i).sent) == cells +
              if !Blank(text) then [NewCell(ThinkingHead).(thinking := text, signature := blob)]
              else if blob != "" then [NewCell(RedactedHead(blob))]
              else []
  {
    if s.blocks[i].live {
      SignedCells(s, i, blob, cells, text);
    } else if blob != "" {
      SealedCells(s, i, blob);
    }
  }

  // ---- one whole item -------------------------------------------------------------------------------

  /** Between items: no block is open, and only earlier items are known. */
  ghost predicate Resting(s: State, i: int) {
    Serving(s, i) && s.open == None && forall k <- s.blocks :: k < i
  }

  lemma Added(prefix: string, s: State, i: int, item: Item)
    requires Resting(s, i)
    ensures var t := HandleOpen(prefix, s, ItemAdded(i, item));
            && Serving(t, i)
            && (item.itemType == MessageType ==> TextServed(t, i, Cells(s.sent), "") && Cells(t.sent) == Cells(s.sent))
            && (item.itemType == ReasoningType ==>
               SummaryServed(t, i, Cells(s.sent), "") && Cells(t.sent) == Cells(s.sent))
            && (item.itemType == OtherType ==> t.sent == s.sent && i !in t.blocks)
            && (item.itemType == FunctionCallType ==>
                  Is(t, i, Tool) && t.blocks[i].live && t.blocks[i].argsSent == 0
                  && Cells(t.sent) == Cells(s.sent) + [NewCell(ToolHead(ToolId(item, s.next), item.name))])
  {
    Direct(prefix, s, ItemAdded(i, item), i);
    if item.itemType == FunctionCallType {
      CellsSnoc(s.sent, Sent(Some(i), BlockStart(s.next, ToolHead(ToolId(item, s.next), item.name))));
    }
  }

  lemma ArgumentsServed(prefix: string, s: State, i: int, item: Item, cells: seq<Cell>, c: Cell)
    requires Serving(s, i) && Is(s, i, Tool) && s.blocks[i].live && s.blocks[i].argsSent == 0
    requires Cells(s.sent) == cells + [c] && c.inputJson == ""
    ensures var t := HandleOpen(prefix, s, ArgsDelta(i, item.arguments));
            && Is(t, i, Tool) && t.blocks[i].live && t.blocks[i].argsSent == |item.arguments|
            && Cells(t.sent) == cells + [c.(inputJson := item.arguments)]
  {
    if item.arguments != "" {
      EmitCells(s, Some(i), BlockDelta(s.blocks[i].index, JsonD(item.arguments)));
      LastCell(cells, c, JsonD(item.arguments), s.blocks[i].index);
      assert "" + item.arguments == item.arguments;
    }
  }

  lemma ToolDone(prefix: string, s: State, i: int, item: Item)
    requires Is(s, i, Tool) && s.blocks[i].live && s.blocks[i].argsSent == |item.arguments|
    ensures Cells(HandleOpen(prefix, s, ItemDone(i, item)).sent) == Cells(s.sent)
  {
    StopCells(s, i);
  }

  /** After item.done nothing is open. */
  lemma DoneRests(prefix: string, s: State, i: int, item: Item)
    requires Serving(s, i) && forall k <- s.blocks :: k <= i
    ensures Resting(HandleOpen(prefix, s, ItemDone(i, item)), i + 1)
  {
    Direct(prefix, s, ItemDone(i, item), i);
    HandleOpenOpens(prefix, s, ItemDone(i, item));
  }

  lemma PartsServed(prefix: string, s: State, i: int, o: OutputItem)
    requires Resting(s, i)
    ensures var a := HandleOpen(prefix, s, ItemAdded(i, o.item));
            var t := RunFrom(prefix, a, Feeds(PartEvents(i, o)));
            && Serving(t, i) && (forall k <- t.blocks :: k <= i)
            && Cells(HandleOpen(prefix, t, ItemDone(i, o.item)).sent)
               == Cells(s.sent) + ItemCells(prefix, o, |Cells(s.sent)|)
  {
    var a := HandleOpen(prefix, s, ItemAdded(i, o.item));
    Direct(prefix, s, ItemAdded(i, o.item), i);
    Added(prefix, s, i, o.item);
    ServingCount(s);
    var t := RunFrom(prefix, a, Feeds(PartEvents(i, o)));
    match o.item.itemType {
      case MessageType =>
        TextPartsServed(prefix, a, i, o.parts);
        MessageDone(prefix, t, i, o.item, Cells(s.sent), Join(o.parts));
      case ReasoningType =>
        SummaryPartsServed(prefix, a, i, o.parts);
        ReasoningDone(prefix, t, i, o.item, Cells(s.sent), Join(o.parts));
      case FunctionCallType =>
        FedOne(prefix, a, ArgsDelta(i, o.item.arguments));
        Direct(prefix, a, ArgsDelta(i, o.item.arguments), i);
        ArgumentsServed(prefix, a, i, o.item, Cells(s.sent), NewCell(ToolHead(ToolId(o.item, s.next), o.item.name)));
        ToolDone(prefix, t, i, o.item);
      case OtherType =>
        assert Cells(s.sent) + [] == Cells(s.sent);
    }
  }

  lemma ItemServed(prefix: string, s: State, i: int, o: OutputItem)
    requires Resting(s, i)
    ensures var t := RunFrom(prefix, s, Feeds(ItemEvents(i, o)));
            Resting(t, i + 1) && Cells(t.sent) == Cells(s.sent) + ItemCells(prefix, o, |Cells(s.sent)|)
  {
    var parts := PartEvents(i, o);
    var a := HandleOpen(prefix, s, ItemAdded(i, o.item));
    var p := RunFrom(prefix, a, Feeds(parts));
    FedOne(prefix, s, ItemAdded(i, o.item));
    Direct(prefix, s, ItemAdded(i, o.item), i);
    FedAppend(prefix, s, [ItemAdded(i, o.item)], parts);
    FedSnoc(prefix, s, [ItemAdded(i, o.item)] + parts, ItemDone(i, o.item));
    PartsServed(prefix, s, i, o);
    Direct(prefix, p, ItemDone(i, o.item), i);
    DoneRests(prefix, p, i, o.item);
  }

  lemma OutputEventsSnoc(output: seq<OutputItem>, o: OutputItem)
    ensures OutputEvents(output + [o]) == OutputEvents(output) + ItemEvents(|output|, o)
  {
    assert (output + [o])[..|output|] == output;
  }

  /** The output served so far, from the resting state s on. */
  ghost predicate Served(prefix: string, s: State, output: seq<OutputItem>, t: State) {
    && t == RunFrom(prefix, s, Feeds(OutputEvents(output)))
    && Resting(t, |output|) && Cells(t.sent) == OutputCells(prefix, output, 0)
  }

  lemma NextEvents(prefix: string, s: State, t: State, output: seq<OutputItem>, o: OutputItem)
    requires t == RunFrom(prefix, s, Feeds(OutputEvents(output)))
    ensures RunFrom(prefix, t, Feeds(ItemEvents(|output|, o))) == RunFrom(prefix, s, Feeds(OutputEvents(output + [o])))
  {
    OutputEventsSnoc(output, o);
    NextState(prefix, s, t, OutputEvents(output), ItemEvents(|output|, o));
  }

  lemma NextCells(prefix: string, output: seq<OutputItem>, o: OutputItem, a: seq<Cell>, b: seq<Cell>)
    requires a == OutputCells(prefix, output, 0) && b == a + ItemCells(prefix, o, |a|)
    ensures b == OutputCells(prefix, output + [o], 0)
  {
    OutputCellsSnoc(prefix, output, 0, o);
  }

  lemma NextResting(prefix: string, t: State, i: int, o: OutputItem) returns (u: State)
    requires Resting(t, i)
    ensures u == RunFrom(prefix, t, Feeds(ItemEvents(i, o)))
    ensures Resting(u, i + 1) && Cells(u.sent) == Cells(t.sent) + ItemCells(prefix, o, |Cells(t.sent)|)
  {
    u := RunFrom(prefix, t, Feeds(ItemEvents(i, o)));
    ItemServed(prefix, t, i, o);
  }

  lemma OneMoreServed(prefix: string, s: State, t: State, output: seq<OutputItem>, o: OutputItem) returns (u: State)
    requires Served(prefix, s, output, t)
    ensures Served(prefix, s, output + [o], u)
  {
    hide Resting, OutputCells, RunFrom;
    u := NextResting(prefix, t, |output|, o);
    NextCells(prefix, output, o, Cells(t.sent), Cells(u.sent));
    NextEvents(prefix, s, t, output, o);
  }

  lemma NothingServed(prefix: string, s: State)
    requires Resting(s, 0) && Cells(s.sent) == []
    ensures Served(prefix, s, [], s)
  {
    FedNothing(prefix, s);
  }

  lemma {:induction false} OutputServed(prefix: string, s: State, output: seq<OutputItem>) returns (t: State)
    requires Resting(s, 0) && Cells(s.sent) == []
    ensures Served(prefix, s, output, t)
  {
    hide Resting, OutputCells, RunFrom;
    if output == [] {
      NothingServed(prefix, s);
      t := s;
    } else {
      var before, o := output[..|output| - 1], output[|output| - 1];
      var b := OutputServed(prefix, s, before);
      assert before + [o] == output;
      t := OneMoreServed(prefix, s, b, before, o);
    }
  }

  // ---- the message of a whole response -----------------------------------------------------------------

  lemma StartedResting(prefix: string) returns (s: State)
    ensures s == RunFrom(prefix, INITIAL, Feeds([Noted]))
    ensures Resting(s, 0) && Cells(s.sent) == []
  {
    s := RunFrom(prefix, INITIAL, Feeds([Noted]));
    FedOne(prefix, INITIAL, Noted);
    RunIsBracketed(prefix, []);
    HandleOpenGood(prefix, INITIAL, Noted);
    CellsSnoc([], Sent(None, MessageStart));
  }

  lemma EndedTrace(prefix: string, s: State, ending: Ending, i: int)
    requires Resting(s, i)
    ensures Push(prefix, s, Completed(ending)).sent
            == s.sent + [Sent(None, MessageDelta(StopReasonOf(s, ending)))] + [Sent(None, MessageStop)]
  {
    CloseAllStopsTheOpenBlock(s.(handled := s.handled + [Completed(ending)]));
  }

  lemma WholeCalls(prefix: string, begun: State, served: State, events: seq<Upstream>, e: Upstream)
    requires begun == RunFrom(prefix, INITIAL, Feeds([Noted])) && served == RunFrom(prefix, begun, Feeds(events))
    ensures Run(prefix, Feeds([Noted] + events + [e])) == Push(prefix, served, e)
  {
    FedAppend(prefix, INITIAL, [Noted], events);
    FedSnoc(prefix, INITIAL, [Noted] + events, e);
  }

  lemma WholeRun(prefix: string, output: seq<OutputItem>, ending: Ending) returns (served: State)
    ensures Resting(served, |output|) && Cells(served.sent) == OutputCells(prefix, output, 0)
    ensures Run(prefix, BodyCalls(Whole(output, ending))) == Push(prefix, served, Completed(ending))
  {
    hide Resting, OutputCells, RunFrom, Push, OutputEvents;
    var begun := StartedResting(prefix);
    served := OutputServed(prefix, begun, output);
    WholeCalls(prefix, begun, served, OutputEvents(output), Completed(ending));
  }

  /** The first terminal event of a response is its message_stop, and its blocks come before. */
  lemma ResponseTrace(prefix: string, output: seq<OutputItem>, ending: Ending)
    ensures var sent := Run(prefix, BodyCalls(Whole(output, ending))).sent;
            var n := FirstTerminal(sent);
            n < |sent| && sent[n].wire == MessageStop && Cells(sent[..n]) == OutputCells(prefix, output, 0)
  {
    var served := WholeRun(prefix, output, ending);
    EndedTrace(prefix, served, ending, |output|);
    var x, y := Sent(None, MessageDelta(StopReasonOf(served, ending))), Sent(None, MessageStop);
    AcceptedCounts(served.sent, ReaderOf(served));
    NoTerminal(served.sent);
    TerminalAt(served.sent + [x], y);
    assert (served.sent + [x] + [y])[..|served.sent| + 1] == served.sent + [x];
    CellsSnoc(served.sent, x);
  }

  lemma {:induction false} NoTerminal(sent: seq<Sent>)
    requires Count(sent, Terminal) == 0
    ensures forall k | 0 <= k < |sent| :: !Terminal(sent[k].wire)
  {
    if sent != [] {
      NoTerminal(sent[..|sent| - 1]);
    }
  }

  lemma TerminalAt(before: seq<Sent>, x: Sent)
    requires (forall k | 0 <= k < |before| :: !Terminal(before[k].wire)) && Terminal(x.wire)
    ensures FirstTerminal(before + [x]) == |before|
  {
    assert (before + [x])[|before|] == x;
    assert forall k | 0 <= k < |before| :: (before + [x])[k] == before[k];
  }

  // ---- reference: what a response reads as when it is sent back ---------------------------------------------

  function BlockOf<J>(slot: Slot<J>): ContentBlock<J> {
    match slot.cell.head
    case TextHead => TextB(slot.cell.text)
    case ThinkingHead => ThinkingB(slot.cell.thinking, slot.cell.signature)
    case RedactedHead(data) => RedactedB(data)
    case ToolHead(id, name) => ToolUseB(id, name, slot.input)
  }

  function BlocksOf<J>(content: seq<Slot<J>>): (blocks: seq<ContentBlock<J>>)
    ensures |blocks| == |content|
  {
    seq(|content|, k requires 0 <= k < |content| => BlockOf(content[k]))
  }

  /** A function call's arguments are empty or valid JSON. */
  predicate CallValid<J>(json: Json<J>, o: OutputItem) {
    o.item.itemType == FunctionCallType && o.item.arguments != "" ==> json.parse(o.item.arguments).Some?
  }

  predicate CallsValid<J>(json: Json<J>, output: seq<OutputItem>) {
    forall k | 0 <= k < |output| :: CallValid(json, output[k])
  }

  function IdOf(item: Item): string {
    if item.id.Some? then item.id.value else ""
  }

  /** The arguments after one parse and one print. */
  function ReprintedArguments<J>(json: Json<J>, arguments: string): string
    requires arguments != "" ==> json.parse(arguments).Some?
  {
    Arguments(json, if arguments == "" then json.emptyObject else json.parse(arguments).value)
  }

  /** The input items that a response's output comes back as, read off the output itself. Parts of
      a message are joined, adjacent messages share an item, what sent no block is gone, and so is
      reasoning that carries no blob or may not be replayed. */
  function Echo<J>(json: Json<J>, prefix: string, dropAll: bool, output: seq<OutputItem>, n: nat,
      pending: seq<Part>): seq<InputItem>
    requires CallsValid(json, output)
    decreases |output|
  {
    if output == [] then Flush(Assistant, pending)
    else
      var o, rest := output[0], output[1..];
      var text := Join(o.parts);
      assert CallValid(json, o) && CallsValid(json, rest) by {
        assert forall k | 0 <= k < |rest| :: rest[k] == output[k + 1];
      }
      match o.item.itemType
      case MessageType =>
        if Blank(text) then Echo(json, prefix, dropAll, rest, n, pending)
        else Echo(json, prefix, dropAll, rest, n + 1, pending + [OutputText(text)])
      case ReasoningType =>
        if Blank(text) && o.item.encrypted == "" then Echo(json, prefix, dropAll, rest, n, pending)
        else
          var (id, encrypted) := SplitBlob(WrapBlob(IdOf(o.item), o.item.encrypted));
          Flush(Assistant, pending)
          + (if dropAll || prefix == "" || o.item.encrypted == "" then []
             else [ReasoningInput(id, if Blank(text) then [] else [text], encrypted)])
          + Echo(json, prefix, dropAll, rest, n + 1, [])
      case FunctionCallType =>
        Flush(Assistant, pending)
        + [FunctionCallInput(o.item.name, ReprintedArguments(json, o.item.arguments), ToolId(o.item, n))]
        + Echo(json, prefix, dropAll, rest, n + 1, [])
      case OtherType => Echo(json, prefix, dropAll, rest, n, pending)
  }

  lemma BlobShape(prefix: string, item: Item)
    ensures Blob(prefix, item) == if item.encrypted == "" then "" else prefix + WrapBlob(IdOf(item), item.encrypted)
  {
    if item.encrypted != "" {
      assert prefix + "" + item.encrypted == prefix + ("" + item.encrypted);
      assert prefix + ("#id=" + IdOf(item) + "#") + item.encrypted
             == prefix + ("#id=" + IdOf(item) + "#" + item.encrypted);
    }
  }

  lemma BlobReplays(prefix: string, dropAll: bool, item: Item, summary: seq<string>)
    ensures ReplayBlob(Replay(prefix, dropAll), Blob(prefix, item), summary) ==
            if dropAll || prefix == "" || item.encrypted == "" then []
            else
              var (id, encrypted) := SplitBlob(WrapBlob(IdOf(item), item.encrypted));
              [ReasoningInput(id, summary, encrypted)]
  {
    BlobShape(prefix, item);
    if item.encrypted != "" {
      assert Blob(prefix, item)[|prefix|..] == WrapBlob(IdOf(item), item.encrypted);
    }
  }

  lemma ItemIsValid<J>(json: Json<J>, prefix: string, o: OutputItem, n: nat)
    ensures AllArgsValid(json, ItemCells(prefix, o, n)) <==> CallValid(json, o)
  {
    var cells := ItemCells(prefix, o, n);
    if cells != [] {
      assert AllArgsValid(json, cells) <==> ArgsValid(json, cells[0]);
    }
  }

  lemma CallsAreValid<J>(json: Json<J>, output: seq<OutputItem>)
    requires output != []
    ensures CallsValid(json, output) <==> CallValid(json, output[0]) && CallsValid(json, output[1..])
  {
    hide CallValid;
    assert output == [output[0]] + output[1..];
  }

  lemma CellsAreValid<J>(json: Json<J>, prefix: string, output: seq<OutputItem>, n: nat)
    ensures AllArgsValid(json, OutputCells(prefix, output, n)) <==> CallsValid(json, output)
    decreases |output|
  {
    hide ArgsValid, ItemCells, CallValid;
    if output != [] {
      var first := ItemCells(prefix, output[0], n);
      var more := OutputCells(prefix, output[1..], n + |first|);
      CellsAreValid(json, prefix, output[1..], n + |first|);
      ItemIsValid(json, prefix, output[0], n);
      ValidAppend(json, first, more);
      CallsAreValid(json, output);
    }
  }

  lemma ValidAppend<J>(json: Json<J>, a: seq<Cell>, b: seq<Cell>)
    ensures AllArgsValid(json, a + b) <==> AllArgsValid(json, a) && AllArgsValid(json, b)
  {
    if AllArgsValid(json, a + b) {
      assert forall k | 0 <= k < |a| :: a[k] == (a + b)[k];
      assert forall k | 0 <= k < |b| :: b[k] == (a + b)[|a| + k];
    }
  }

  lemma ContentSplits<J>(json: Json<J>, a: seq<Cell>, b: seq<Cell>)
    requires AllArgsValid(json, a + b)
    ensures AllArgsValid(json, a) && AllArgsValid(json, b)
    ensures BlocksOf(Content(json, a + b)) == BlocksOf(Content(json, a)) + BlocksOf(Content(json, b))
  {
    ValidAppend(json, a, b);
  }

  /** What one output item does to the conversion: it sends no block, a text, or an item of its own. */
  lemma ItemBlock<J>(json: Json<J>, prefix: string, dropAll: bool, o: OutputItem, n: nat)
    requires CallValid(json, o) && ItemCells(prefix, o, n) != [] && AllArgsValid(json, ItemCells(prefix, o, n))
    ensures BlocksOf(Content(json, ItemCells(prefix, o, n))) == [BlockOf(Content(json, ItemCells(prefix, o, n))[0])]
    ensures var b := BlockOf(Content(json, ItemCells(prefix, o, n))[0]);
            var text := Join(o.parts);
            match o.item.itemType
            case MessageType => !Blank(text) && b == TextB(text)
            case ReasoningType =>
              !(Blank(text) && o.item.encrypted == "") && (b.ThinkingB? || b.RedactedB?)
              && BlockItem(json, Replay(prefix, dropAll), b)
                 == ReplayBlob(Replay(prefix, dropAll), Blob(prefix, o.item), if Blank(text) then [] else [text])
            case FunctionCallType =>
              b.ToolUseB?
              && BlockItem(json, Replay(prefix, dropAll), b)
                 == [FunctionCallInput(o.item.name, ReprintedArguments(json, o.item.arguments), ToolId(o.item, n))]
            case OtherType => false
  {
    BlobShape(prefix, o.item);
  }

  lemma NoBlock<J>(json: Json<J>, prefix: string, dropAll: bool, output: seq<OutputItem>, n: nat, pending: seq<Part>)
    requires output != [] && CallsValid(json, output) && CallsValid(json, output[1..])
             && ItemCells(prefix, output[0], n) == []
    ensures Echo(json, prefix, dropAll, output, n, pending) == Echo(json, prefix, dropAll, output[1..], n, pending)
  {
    BlobShape(prefix, output[0].item);
  }

  lemma OneBlock<J>(
    json: Json<J>, prefix: string, dropAll: bool, output: seq<OutputItem>, n: nat, pending: seq<Part>,
    blocks: seq<ContentBlock<J>>)
    requires output != [] && CallsValid(json, output) && CallsValid(json, output[1..])
    requires ItemCells(prefix, output[0], n) != [] && AllArgsValid(json, ItemCells(prefix, output[0], n))
    requires var more := if output[0].item.itemType == MessageType then pending + [OutputText(Join(output[0].parts))]
             else [];
             Convert(json, Assistant, Replay(prefix, dropAll), blocks, more)
             == Echo(json, prefix, dropAll, output[1..], n + 1, more)
    ensures var b := BlockOf(Content(json, ItemCells(prefix, output[0], n))[0]);
            Convert(json, Assistant, Replay(prefix, dropAll), [b] + blocks, pending)
            == Echo(json, prefix, dropAll, output, n, pending)
  {
    var o := output[0];
    assert CallValid(json, o);
    var b := BlockOf(Content(json, ItemCells(prefix, o, n))[0]);
    ItemBlock(json, prefix, dropAll, o, n);
    BlobReplays(prefix, dropAll, o.item, if Blank(Join(o.parts)) then [] else [Join(o.parts)]);
    assert ([b] + blocks)[1..] == blocks;
  }

  /** The content blocks of the collected message. */
  function TurnBlocks<J>(json: Json<J>, prefix: string, output: seq<OutputItem>, n: nat): seq<ContentBlock<J>>
    requires AllArgsValid(json, OutputCells(prefix, output, n))
  {
    BlocksOf(Content(json, OutputCells(prefix, output, n)))
  }

  lemma TurnBlocksStep<J>(json: Json<J>, prefix: string, output: seq<OutputItem>, n: nat)
    requires output != [] && AllArgsValid(json, OutputCells(prefix, output, n))
    ensures var first := ItemCells(prefix, output[0], n);
            && AllArgsValid(json, first) && AllArgsValid(json, OutputCells(prefix, output[1..], n + |first|))
            && TurnBlocks(json, prefix, output, n)
               == BlocksOf(Content(json, first)) + TurnBlocks(json, prefix, output[1..], n + |first|)
  {
    var first := ItemCells(prefix, output[0], n);
    ContentSplits(json, first, OutputCells(prefix, output[1..], n + |first|));
  }

  lemma CallsValidRest<J>(json: Json<J>, output: seq<OutputItem>)
    requires output != [] && CallsValid(json, output)
    ensures CallsValid(json, output[1..]) && CallValid(json, output[0])
  {
  }

  /** The conversion of the turn's blocks is the echo. */
  ghost predicate Echoes<J>(json: Json<J>, prefix: string, dropAll: bool, output: seq<OutputItem>, n: nat,
      pending: seq<Part>)
    requires CallsValid(json, output) && AllArgsValid(json, OutputCells(prefix, output, n))
  {
    Convert(json, Assistant, Replay(prefix, dropAll), TurnBlocks(json, prefix, output, n), pending)
    == Echo(json, prefix, dropAll, output, n, pending)
  }

  lemma SilentCells(prefix: string, output: seq<OutputItem>, n: nat)
    requires output != [] && ItemCells(prefix, output[0], n) == []
    ensures OutputCells(prefix, output, n) == OutputCells(prefix, output[1..], n)
  {
    assert [] + OutputCells(prefix, output[1..], n) == OutputCells(prefix, output[1..], n);
  }

  lemma EchoesSilent<J>(json: Json<J>, prefix: string, dropAll: bool, output: seq<OutputItem>, n: nat,
      pending: seq<Part>)
    requires output != [] && CallsValid(json, output) && AllArgsValid(json, OutputCells(prefix, output, n))
    requires CallsValid(json, output[1..]) && AllArgsValid(json, OutputCells(prefix, output[1..], n))
    requires ItemCells(prefix, output[0], n) == [] && Echoes(json, prefix, dropAll, output[1..], n, pending)
    ensures Echoes(json, prefix, dropAll, output, n, pending)
  {
    SilentCells(prefix, output, n);
    NoBlock(json, prefix, dropAll, output, n, pending);
  }

  lemma EchoesBlock<J>(
    json: Json<J>, prefix: string, dropAll: bool, output: seq<OutputItem>, n: nat, pending: seq<Part>, more: seq<Part>)
    requires output != [] && CallsValid(json, output) && AllArgsValid(json, OutputCells(prefix, output, n))
    requires CallsValid(json, output[1..]) && AllArgsValid(json, OutputCells(prefix, output[1..], n + 1))
    requires |ItemCells(prefix, output[0], n)| == 1
    requires more == if output[0].item.itemType == MessageType then pending + [OutputText(Join(output[0].parts))]
             else []
    requires Echoes(json, prefix, dropAll, output[1..], n + 1, more)
    ensures Echoes(json, prefix, dropAll, output, n, pending)
  {
    var blocks := TurnBlocks(json, prefix, output[1..], n + 1);
    TurnBlocksStep(json, prefix, output, n);
    assert CallValid(json, output[0]);
    ItemBlock(json, prefix, dropAll, output[0], n);
    OneBlock(json, prefix, dropAll, output, n, pending, blocks);
  }

  /** Converting the collected blocks gives the echo of the output. */
  lemma {:induction false} ContentEchoes<J>(
    json: Json<J>, prefix: string, dropAll: bool, output: seq<OutputItem>, n: nat, pending: seq<Part>)
    requires CallsValid(json, output) && AllArgsValid(json, OutputCells(prefix, output, n))
    ensures Echoes(json, prefix, dropAll, output, n, pending)
    decreases |output|
  {
    if output != [] {
      TurnBlocksStep(json, prefix, output, n);
      CallsValidRest(json, output);
      if ItemCells(prefix, output[0], n) == [] {
        ContentEchoes(json, prefix, dropAll, output[1..], n, pending);
        EchoesSilent(json, prefix, dropAll, output, n, pending);
      } else {
        var more := if output[0].item.itemType == MessageType then pending + [OutputText(Join(output[0].parts))]
            else [];
        ContentEchoes(json, prefix, dropAll, output[1..], n + 1, more);
        EchoesBlock(json, prefix, dropAll, output, n, pending, more);
      }
    }
  }

  // ---- why the message stopped ---------------------------------------------------------------------------

  /** Some block of the trace is a tool_use. */
  predicate HasToolCell(cells: seq<Cell>) {
    exists k | 0 <= k < |cells| :: cells[k].head.ToolHead?
  }

  predicate HasCall(output: seq<OutputItem>) {
    exists k | 0 <= k < |output| :: output[k].item.itemType == FunctionCallType
  }

  lemma AddWireHeads(cells: seq<Cell>, w: Wire)
    ensures HasToolCell(AddWire(cells, w)) <==> HasToolCell(cells) || (w.BlockStart? && w.head.ToolHead?)
  {
    var longer := AddWire(cells, w);
    if k :| 0 <= k < |cells| && cells[k].head.ToolHead? {
      assert longer[k].head == cells[k].head;
    }
    if k :| 0 <= k < |longer| && longer[k].head.ToolHead? {
      assert k < |cells| ==> cells[k].head == longer[k].head;
    }
    assert w.BlockStart? ==> longer[|cells|].head == w.head;
  }

  lemma {:induction false} ToolCells(sent: seq<Sent>)
    ensures HasToolCell(Cells(sent)) <==> StartsTool(sent)
  {
    hide AddWire, HasToolCell, StartsTool;
    if sent == [] {
      NoTools();
    } else {
      var before, x := sent[..|sent| - 1], sent[|sent| - 1];
      ToolCells(before);
      StartsToolSnoc(before, x);
      assert before + [x] == sent;
      AddWireHeads(Cells(before), x.wire);
    }
  }

  lemma NoTools()
    ensures !HasToolCell([]) && !StartsTool([]) && !HasCall([])
  {
  }

  lemma ToolCellAppend(a: seq<Cell>, b: seq<Cell>)
    ensures HasToolCell(a + b) <==> HasToolCell(a) || HasToolCell(b)
  {
    var c := a + b;
    if k :| 0 <= k < |a| && a[k].head.ToolHead? {
      assert c[k] == a[k];
    }
    if k :| 0 <= k < |b| && b[k].head.ToolHead? {
      assert c[|a| + k] == b[k];
    }
    if k :| 0 <= k < |c| && c[k].head.ToolHead? {
      assert c[k] == if k < |a| then a[k] else b[k - |a|];
    }
  }

  lemma ItemToolCell(prefix: string, o: OutputItem, n: nat)
    ensures HasToolCell(ItemCells(prefix, o, n)) <==> o.item.itemType == FunctionCallType
  {
    var cells := ItemCells(prefix, o, n);
    if o.item.itemType == FunctionCallType {
      assert cells[0].head.ToolHead?;
    }
  }

  lemma {:induction false} OutputToolCells(prefix: string, output: seq<OutputItem>, n: nat)
    ensures HasToolCell(OutputCells(prefix, output, n)) <==> HasCall(output)
    decreases |output|
  {
    hide ItemCells, HasToolCell;
    if output == [] {
      NoTools();
    } else {
      var first, rest := ItemCells(prefix, output[0], n), output[1..];
      OutputToolCells(prefix, rest, n + |first|);
      ItemToolCell(prefix, output[0], n);
      ToolCellAppend(first, OutputCells(prefix, rest, n + |first|));
      assert forall k | 0 <= k < |rest| :: rest[k] == output[k + 1];
      assert HasCall(output) <==> output[0].item.itemType == FunctionCallType || HasCall(rest) by {
        if k :| 0 <= k < |output| && output[k].item.itemType == FunctionCallType {
          assert k > 0 ==> rest[k - 1] == output[k];
        }
      }
    }
  }

  /** The stop reason of a complete response, read off the response itself. */
  lemma ResponseStops(prefix: string, output: seq<OutputItem>, ending: Ending)
    ensures var sent := Run(prefix, BodyCalls(Whole(output, ending))).sent;
            var n := FirstTerminal(sent);
            var cut := ending.incomplete && ending.maxTokens;
            && 0 < n < |sent| && sent[n - 1].wire.MessageDelta?
            && (sent[n - 1].wire.stopReason == MaxTokens <==> cut)
            && (sent[n - 1].wire.stopReason == ToolUse <==> !cut && HasCall(output))
  {
    hide Run, RunFrom, BodyCalls, Cells, StartsTool, HasCall, Good, OutputCells;
    var calls := Feeds([Noted] + OutputEvents(output));
    var e := Completed(ending);
    WholeIsLast(output, ending);
    ResponseTrace(prefix, output, ending);
    var sent := Run(prefix, calls + [Feed(e)]).sent;
    var n := FirstTerminal(sent);
    Unfinished(prefix, output, ending);
    CompletionSays(prefix, calls, ending);
    RunIsBracketed(prefix, calls + [Feed(e)]);
    OneTerminal(Run(prefix, calls + [Feed(e)]), n, |sent| - 1);
    ToolsOfOutput(prefix, output, sent[..n]);
    assert sent[..n][..n - 1] == sent[..|sent| - 2];
  }

  /** Which cells the trace has, up to its message_delta, says whether a tool block was started. */
  lemma ToolsOfOutput(prefix: string, output: seq<OutputItem>, sent: seq<Sent>)
    requires sent != [] && sent[|sent| - 1].wire.MessageDelta? && Cells(sent) == OutputCells(prefix, output, 0)
    ensures StartsTool(sent[..|sent| - 1]) <==> HasCall(output)
  {
    hide Cells, StartsTool, HasCall, OutputCells;
    ToolCells(sent[..|sent| - 1]);
    CellsBeforeDelta(sent);
    OutputToolCells(prefix, output, 0);
  }

  /** A body that is no complete response becomes one error event, which says what is wrong with it: the
      upstream's own message if the response failed. */
  lemma BodyFails(prefix: string, body: Body)
    requires !body.Whole?
    ensures Run(prefix, BodyCalls(body)).sent ==
            [Sent(None, ErrorEvent(
               if body.FailedBody? then body.message
               else if body.NonTerminal? then "upstream returned a non-terminal Responses JSON object"
               else "upstream returned an invalid Responses JSON object"))]
  {
    hide Run, Blank;
    var c := BodyCalls(body)[0];
    assert BodyCalls(body) == [c] && [] + [c] == [c];
    LastCall(prefix, [], c);
    Untouched(prefix);
    match body
    case FailedBody(message) => OnlyAnError(prefix, c, message);
    case NotAnObject => OnlyAnError(prefix, c, INVALID);
    case NonTerminal => OnlyAnError(prefix, c, NON_TERMINAL);
  }

  lemma Untouched(prefix: string)
    ensures Run(prefix, []) == INITIAL
  {
  }

  lemma OnlyAnError(prefix: string, c: Call, message: string)
    requires c == Abort(message) || c == Feed(Failed(message))
    ensures Apply(prefix, INITIAL, c).sent == [Sent(None, ErrorEvent(message))]
  {
  }

  lemma CellsBeforeDelta(sent: seq<Sent>)
    requires sent != [] && sent[|sent| - 1].wire.MessageDelta?
    ensures Cells(sent) == Cells(sent[..|sent| - 1])
  {
  }

  lemma WholeIsLast(output: seq<OutputItem>, ending: Ending)
    ensures BodyCalls(Whole(output, ending)) == Feeds([Noted] + OutputEvents(output)) + [Feed(Completed(ending))]
  {
    FeedsAppend([Noted] + OutputEvents(output), [Completed(ending)]);
    assert Feeds([Completed(ending)]) == [Feed(Completed(ending))];
  }

  lemma Unfinished(prefix: string, output: seq<OutputItem>, ending: Ending)
    ensures !Run(prefix, Feeds([Noted] + OutputEvents(output))).finished
  {
    hide RunFrom, OutputEvents;
    var begun := StartedResting(prefix);
    var served := OutputServed(prefix, begun, output);
    FedAppend(prefix, INITIAL, [Noted], OutputEvents(output));
  }

  /** An accepted trace has one terminal event at most. */
  lemma OneTerminal(s: State, m: nat, n: nat)
    requires Good(s) && m < |s.sent| && n < |s.sent| && Terminal(s.sent[m].wire) && Terminal(s.sent[n].wire)
    ensures m == n
  {
    if m < n {
      AtMostOne(s.sent, ReaderOf(s), m, n);
    } else if n < m {
      AtMostOne(s.sent, ReaderOf(s), n, m);
    }
  }

  lemma AtMostOne(trace: seq<Sent>, r: Reader, m: nat, n: nat)
    requires Read(trace) == Some(r) && m < n < |trace| && Terminal(trace[m].wire)
    ensures !Terminal(trace[n].wire)
  {
    AcceptedPrefix(trace, n);
    AcceptedPrefix(trace, m + 1);
    AcceptedCounts(trace[..n], Read(trace[..n]).value);
    CountsIt(trace[..n], m);
  }

  lemma {:induction false} CountsIt(trace: seq<Sent>, m: nat)
    requires m < |trace| && Terminal(trace[m].wire)
    ensures Count(trace, Terminal) >= 1
  {
    if m < |trace| - 1 {
      CountsIt(trace[..|trace| - 1], m);
    }
  }

  /** The whole-response round trip: a response's output becomes a message exactly when it sends
      some block and its calls hold valid JSON. That message says why it stopped, max_tokens for a
      response cut at its limit, else tool_use exactly if the output holds a call, and becomes the
      output's echo. */
  lemma ResponseRoundTrip<J>(json: Json<J>, prefix: string, dropAll: bool, output: seq<OutputItem>, ending: Ending)
    ensures var outcome := Verdict(CollectAll(json, Run(prefix, BodyCalls(Whole(output, ending))).sent));
            && (outcome.Collected? <==> CallsValid(json, output) && OutputCells(prefix, output, 0) != [])
            && (outcome.Collected? ==>
                  CallsValid(json, output)
                  && Convert(json, Assistant, Replay(prefix, dropAll), BlocksOf(outcome.content), [])
                     == Echo(json, prefix, dropAll, output, 0, []))
            && (outcome.Collected? ==>
                  var cut := ending.incomplete && ending.maxTokens;
                  && outcome.stopReason.Some?
                  && (outcome.stopReason == Some(MaxTokens) <==> cut)
                  && (outcome.stopReason == Some(ToolUse) <==> !cut && HasCall(output)))
  {
    hide BodyCalls, Run, Verdict, Convert, Echo, HasCall;
    ResponseTrace(prefix, output, ending);
    ResponseStops(prefix, output, ending);
    CollectorVerdict(json, prefix, BodyCalls(Whole(output, ending)));
    CellsAreValid(json, prefix, output, 0);
    if CallsValid(json, output) {
      ContentEchoes(json, prefix, dropAll, output, 0, []);
    }
  }

  // ---- faithful responses ----------------------------------------------------------------------------

  /** An output item as the input item it should be sent back as. */
  function Original(o: OutputItem): seq<InputItem> {
    match o.item.itemType
    case MessageType => [MessageInput(Assistant, [OutputText(Join(o.parts))])]
    case ReasoningType =>
      [ReasoningInput(if IdOf(o.item) == "" then None else Some(IdOf(o.item)),
                      if Blank(Join(o.parts)) then [] else [Join(o.parts)], o.item.encrypted)]
    case FunctionCallType => [FunctionCallInput(o.item.name, o.item.arguments, o.item.callId.GetOr(""))]
    case OtherType => []
  }

  function Originals(output: seq<OutputItem>): seq<InputItem> {
    if output == [] then [] else Original(output[0]) + Originals(output[1..])
  }

  /** Messages have visible text, reasoning has a recoverable blob, calls an id and canonical JSON. */
  predicate Faithful<J>(json: Json<J>, o: OutputItem) {
    match o.item.itemType
    case MessageType => !Blank(Join(o.parts))
    case ReasoningType => o.item.encrypted != "" && Recoverable(IdOf(o.item), o.item.encrypted)
    case FunctionCallType =>
      && o.item.callId.Some? && json.parse(o.item.arguments).Some?
      && o.item.arguments != "" && Arguments(json, json.parse(o.item.arguments).value) == o.item.arguments
    case OtherType => true
  }

  /** Adjacent message items share one item. */
  function Merged(items: seq<InputItem>, pending: seq<Part>): seq<InputItem> {
    if items == [] then Flush(Assistant, pending)
    else if items[0].MessageInput? then Merged(items[1..], pending + items[0].parts)
    else Flush(Assistant, pending) + [items[0]] + Merged(items[1..], [])
  }

  lemma FaithfulStep<J>(json: Json<J>, prefix: string, output: seq<OutputItem>, n: nat, pending: seq<Part>)
    requires prefix != "" && output != [] && CallsValid(json, output) && CallsValid(json, output[1..])
             && Faithful(json, output[0])
    ensures var o, rest := output[0], output[1..];
            Echo(json, prefix, false, output, n, pending) ==
            match o.item.itemType
            case MessageType => Echo(json, prefix, false, rest, n + 1, pending + [OutputText(Join(o.parts))])
            case OtherType => Echo(json, prefix, false, rest, n, pending)
            case _ => Flush(Assistant, pending) + Original(o) + Echo(json, prefix, false, rest, n + 1, [])
  {
    BlobRoundTrip(IdOf(output[0].item), output[0].item.encrypted);
  }

  lemma {:induction false} FaithfulEcho<J>(json: Json<J>, prefix: string, output: seq<OutputItem>, n: nat,
      pending: seq<Part>)
    requires prefix != "" && CallsValid(json, output) && forall o <- output :: Faithful(json, o)
    ensures Echo(json, prefix, false, output, n, pending) == Merged(Originals(output), pending)
    decreases |output|
  {
    if output != [] {
      CallsValidRest(json, output);
      FaithfulStep(json, prefix, output, n, pending);
      var o, rest := output[0], output[1..];
      assert (Original(o) + Originals(rest))[|Original(o)|..] == Originals(rest);
      match o.item.itemType {
        case MessageType => FaithfulEcho(json, prefix, rest, n + 1, pending + [OutputText(Join(o.parts))]);
        case OtherType => FaithfulEcho(json, prefix, rest, n, pending);
        case _ => FaithfulEcho(json, prefix, rest, n + 1, []);
      }
    }
  }

  lemma {:induction false} NothingToMerge(items: seq<InputItem>)
    requires forall k | 0 <= k < |items| - 1 :: !(items[k].MessageInput? && items[k + 1].MessageInput?)
    requires forall k | 0 <= k < |items| && items[k].MessageInput? :: items[k].role == Assistant && items[k].parts != []
    ensures Merged(items, []) == items
  {
    if items != [] {
      var rest := items[1..];
      if items[0].MessageInput? {
        assert [] + items[0].parts == items[0].parts;
        assert items == [items[0]] + rest;
        if rest != [] {
          assert !items[1].MessageInput? && rest == [rest[0]] + rest[1..];
          NothingToMerge(rest[1..]);
        }
      } else {
        NothingToMerge(rest);
      }
    }
  }

  /** A faithful response comes back as it was: its items in order, adjacent messages merged. */
  lemma FaithfulRoundTrip<J>(json: Json<J>, prefix: string, output: seq<OutputItem>, ending: Ending)
    requires prefix != "" && forall o <- output :: Faithful(json, o)
    requires exists o <- output :: !o.item.itemType.OtherType?
    ensures var outcome := Verdict(CollectAll(json, Run(prefix, BodyCalls(Whole(output, ending))).sent));
            && outcome.Collected?
            && Convert(json, Assistant, Replay(prefix, false), BlocksOf(outcome.content), [])
               == Merged(Originals(output), [])
  {
    ResponseRoundTrip(json, prefix, false, output, ending);
    assert CallsValid(json, output) by {
      assert forall k | 0 <= k < |output| :: Faithful(json, output[k]);
    }
    SomeBlock(json, prefix, output, 0);
    FaithfulEcho(json, prefix, output, 0, []);
  }

  lemma FaithfulHasCells<J>(json: Json<J>, prefix: string, o: OutputItem, n: nat)
    requires Faithful(json, o) && !o.item.itemType.OtherType?
    ensures ItemCells(prefix, o, n) != []
  {
    BlobShape(prefix, o.item);
  }

  lemma {:induction false} SomeBlock<J>(json: Json<J>, prefix: string, output: seq<OutputItem>, n: nat)
    requires forall o <- output :: Faithful(json, o)
    requires exists o <- output :: !o.item.itemType.OtherType?
    ensures OutputCells(prefix, output, n) != []
    decreases |output|
  {
    hide ItemCells, Faithful;
    var o := output[0];
    assert Faithful(json, o);
    if o.item.itemType.OtherType? {
      var p :| p in output && !p.item.itemType.OtherType?;
      assert output == [o] + output[1..];
      assert p in output[1..];
      SomeBlock(json, prefix, output[1..], n + |ItemCells(prefix, o, n)|);
    } else {
      FaithfulHasCells(json, prefix, o, n);
    }
  }
}
