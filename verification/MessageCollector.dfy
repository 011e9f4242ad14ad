/** anthropic-message-collector.ts: folding the translated events into one message, and the proof
    that the fold never rejects the translator's output on structure. */
module MessageCollectors {
  import opened Protocol
  import opened Translation
  import opened Bracketing

  /** JSON as this project needs it: what `JSON.parse` and `JSON.stringify` do to values of type J. */
  datatype Json<!J> = Json(parse: string -> Option<J>, stringify: J -> string, emptyObject: J, nullish: J -> bool)

  /** A content block while it is collected. */
  datatype Cell = Cell(head: Head, text: string, thinking: string, signature: string, inputJson: string)

  datatype Slot<J> = Slot(cell: Cell, input: J)

  datatype Collection<J> = Collection(
    message: Option<Option<StopReason>>,    // the message, with its stop_reason once known
    blocks: map<int, Slot<J>>,
    stopped: bool,
    error: Option<string>)

  const MALFORMED := "upstream response produced malformed tool arguments"

  function Nothing<J>(): Collection<J> {
    Collection(None, map[], false, None)
  }

  function NewCell(head: Head): Cell {
    Cell(head, "", "", "", "")
  }

  function AddDelta(c: Cell, d: Delta): Cell {
    match d
    case TextD(t) => c.(text := c.text + t)
    case ThinkingD(t) => c.(thinking := c.thinking + t)
    case SignatureD(t) => c.(signature := c.signature + t)
    case JsonD(t) => c.(inputJson := c.inputJson + t)
  }

  function StopSlot<J>(json: Json<J>, c: Collection<J>, n: int): Collection<J>
    requires n in c.blocks
  {
    var slot := c.blocks[n];
    if !slot.cell.head.ToolHead? || slot.cell.inputJson == "" then c
    else match json.parse(slot.cell.inputJson)
      case Some(v) => c.(blocks := c.blocks[n := slot.(input := v)])
      case None => c.(error := Some(MALFORMED))
  }

  function Collect<J>(json: Json<J>, c: Collection<J>, w: Wire): Collection<J> {
    if c.error.Some? || c.stopped then c else
    match w
    case MessageStart => c.(message := Some(None))
    case BlockStart(n, head) =>
      if n < 0 || n in c.blocks then c.(error := Some("upstream response produced an invalid content block"))
      else c.(blocks := c.blocks[n := Slot(NewCell(head), json.emptyObject)])
    case BlockDelta(n, d) =>
      if n !in c.blocks then c.(error := Some("upstream response produced an orphan content delta"))
      else c.(blocks := c.blocks[n := c.blocks[n].(cell := AddDelta(c.blocks[n].cell, d))])
    case BlockStop(n) =>
      if n !in c.blocks then c.(error := Some("upstream response stopped an unknown content block"))
      else StopSlot(json, c, n)
    case MessageDelta(reason) =>
      if c.message.None? then c.(error := Some("upstream response produced message_delta before message_start"))
      else c.(message := Some(Some(reason)))
    case MessageStop => c.(stopped := true)
    case ErrorEvent(message) => c.(error := Some(if message == "" then "upstream response failed" else message))
  }

  function CollectAll<J>(json: Json<J>, sent: seq<Sent>): Collection<J> {
    if sent == [] then Nothing()
    else Collect(json, CollectAll(json, sent[..|sent| - 1]), sent[|sent| - 1].wire)
  }

  lemma CollectSnoc<J>(json: Json<J>, sent: seq<Sent>, x: Sent)
    ensures CollectAll(json, sent + [x]) == Collect(json, CollectAll(json, sent), x.wire)
  {
    assert (sent + [x])[..|sent|] == sent;
  }

  lemma Inhabited(keys: set<int>)
    ensures keys == {} || exists k :: k in keys
  {
    if forall k :: k !in keys {
      assert keys == {};
    }
  }

  lemma {:induction false} LeastExists(keys: set<int>)
    requires keys != {}
    ensures exists k :: k in keys && forall j | j in keys :: k <= j
  {
    Inhabited(keys);
    var k :| k in keys;
    var rest := keys - {k};
    if rest == {} {
      assert keys == {k};
    } else {
      LeastExists(rest);
      var m :| m in rest && forall j | j in rest :: m <= j;
      var n := if k <= m then k else m;
      assert n in keys && forall j | j in keys :: j == k || j in rest;
    }
  }

  /** The keys in ascending order: the sort of `finish`. */
  function Ascending(keys: set<int>): (order: seq<int>)
    ensures |order| == |keys| && forall k | k in order :: k in keys
    ensures forall i, j | 0 <= i < j < |order| :: order[i] < order[j]
  {
    if keys == {} then []
    else
      LeastExists(keys);
      var k :| k in keys && forall j | j in keys :: k <= j;
      var rest := Ascending(keys - {k});
      assert forall j | j in rest :: k < j;
      assert forall j | 0 <= j < |rest| :: rest[j] in rest;
      [k] + rest
  }

  datatype Outcome<J> = Collected(stopReason: Option<StopReason>, content: seq<Slot<J>>) | Rejected(message: string)

  function Verdict<J>(c: Collection<J>): Outcome<J> {
    if c.error.Some? then Rejected(c.error.value)
    else if c.message.None? || !c.stopped then
      Rejected("upstream response did not produce a complete Anthropic message")
    else if c.blocks == map[] then Rejected("upstream response contained no content blocks")
    else
      var order := Ascending(c.blocks.Keys);
      Collected(c.message.value, seq(|order|, i requires 0 <= i < |order| => c.blocks[order[i]]))
  }

  // ---- the collector class -------------------------------------------------------------------

  class AnthropicMessageCollector<J> {
    const json: Json<J>
    var message: Option<Option<StopReason>>
    var blocks: map<int, Slot<J>>
    var stopped: bool
    var error: Option<string>

    ghost function Now(): Collection<J>
      reads this
    {
      Collection(message, blocks, stopped, error)
    }

    constructor (json: Json<J>)
      ensures Now() == Nothing() && this.json == json
    {
      this.json := json;
      message, blocks, stopped, error := None, map[], false, None;
    }

    method Push(w: Wire)
      modifies this
      ensures Now() == Collect(json, old(Now()), w)
    {
      if error.Some? || stopped {
        return;
      }
      match w
      case MessageStart => message := Some(None);
      case BlockStart(n, head) => OnBlockStart(n, head);
      case BlockDelta(n, d) => OnBlockDelta(n, d);
      case BlockStop(n) => OnBlockStop(n);
      case MessageDelta(reason) =>
        if message.None? {
          error := Some("upstream response produced message_delta before message_start");
        } else {
          message := Some(Some(reason));
        }
      case MessageStop => stopped := true;
      case ErrorEvent(text) => error := Some(if text == "" then "upstream response failed" else text);
    }

    method Finish() returns (outcome: Outcome<J>)
      ensures outcome == Verdict(Now())
    {
      if error.Some? {
        return Rejected(error.value);
      }
      if message.None? || !stopped {
        return Rejected("upstream response did not produce a complete Anthropic message");
      }
      if blocks == map[] {
        return Rejected("upstream response contained no content blocks");
      }
      var content := [];
      var order := Ascending(blocks.Keys);
      for i := 0 to |order|
        invariant |content| == i && forall k | 0 <= k < i :: content[k] == blocks[order[k]]
      {
        content := content + [blocks[order[i]]];
      }
      outcome := Collected(message.value, content);
    }

    method OnBlockStart(n: int, head: Head)
      requires error.None? && !stopped
      modifies this
      ensures Now() == Collect(json, old(Now()), BlockStart(n, head))
    {
      if n < 0 || n in blocks {
        error := Some("upstream response produced an invalid content block");
        return;
      }
      blocks := blocks[n := Slot(NewCell(head), json.emptyObject)];
    }

    method OnBlockDelta(n: int, d: Delta)
      requires error.None? && !stopped
      modifies this
      ensures Now() == Collect(json, old(Now()), BlockDelta(n, d))
    {
      if n !in blocks {
        error := Some("upstream response produced an orphan content delta");
        return;
      }
      blocks := blocks[n := blocks[n].(cell := AddDelta(blocks[n].cell, d))];
    }

    method OnBlockStop(n: int)
      requires error.None? && !stopped
      modifies this
      ensures Now() == Collect(json, old(Now()), BlockStop(n))
    {
      if n !in blocks {
        error := Some("upstream response stopped an unknown content block");
        return;
      }
      var slot := blocks[n];
      if !slot.cell.head.ToolHead? || slot.cell.inputJson == "" {
        return;
      }
      match json.parse(slot.cell.inputJson)
      case Some(v) => blocks := blocks[n := slot.(input := v)];
      case None => error := Some(MALFORMED);
    }
  }

  // ---- reference: the blocks of a trace read in order ------------------------------------------

  function AddWire(cells: seq<Cell>, w: Wire): seq<Cell> {
    if w.BlockStart? then cells + [NewCell(w.head)]
    else if w.BlockDelta? && cells != [] then cells[..|cells| - 1] + [AddDelta(cells[|cells| - 1], w.delta)]
    else cells
  }

  /** The blocks a trace starts, each with all deltas that follow until the next start. */
  function Cells(sent: seq<Sent>): seq<Cell> {
    if sent == [] then [] else AddWire(Cells(sent[..|sent| - 1]), sent[|sent| - 1].wire)
  }

  lemma CellsSnoc(sent: seq<Sent>, x: Sent)
    ensures Cells(sent + [x]) == AddWire(Cells(sent), x.wire)
  {
    assert (sent + [x])[..|sent|] == sent;
  }

  /** A tool block's accumulated arguments are empty or valid JSON. */
  predicate ArgsValid<J>(json: Json<J>, c: Cell) {
    c.head.ToolHead? && c.inputJson != "" ==> json.parse(c.inputJson).Some?
  }

  function InputOf<J>(json: Json<J>, c: Cell): J
    requires ArgsValid(json, c)
  {
    if c.head.ToolHead? && c.inputJson != "" then json.parse(c.inputJson).value else json.emptyObject
  }

  /** The number of blocks that are stopped already. */
  function Stopped(r: Reader): nat {
    if r.open.Some? && r.count > 0 then r.count - 1 else r.count
  }

  predicate StoppedArgsValid<J>(json: Json<J>, sent: seq<Sent>, r: Reader) {
    forall k | 0 <= k < Stopped(r) && k < |Cells(sent)| :: ArgsValid(json, Cells(sent)[k])
  }

  /** The collection mirrors the blocks read so far. */
  ghost predicate Mirrors<J>(json: Json<J>, c: Collection<J>, cells: seq<Cell>, r: Reader) {
    && c.error.None? && !c.stopped && c.message.Some? == r.started
    && |cells| == r.count
    && (forall k :: k in c.blocks <==> 0 <= k < r.count)
    && (forall k | 0 <= k < r.count :: c.blocks[k].cell == cells[k])
    && (forall k | 0 <= k < Stopped(r) :: ArgsValid(json, cells[k]) && c.blocks[k].input == InputOf(json, cells[k]))
    && (forall k | Stopped(r) <= k < r.count :: c.blocks[k].input == json.emptyObject)
  }

  predicate ReaderInOrder(r: Reader) {
    (r.open.Some? ==> r.count > 0 && r.open.value.index == r.count - 1) && (r.count > 0 ==> r.started)
    && (r.closing ==> r.started && r.open == None)
  }

  lemma StartMirrors<J>(json: Json<J>, c: Collection<J>, cells: seq<Cell>, r: Reader, x: Sent)
    requires Mirrors(json, c, cells, r) && ReaderInOrder(r) && Allowed(r, x) && x.wire.BlockStart?
    ensures Mirrors(json, Collect(json, c, x.wire), AddWire(cells, x.wire), Next(r, x))
  {
  }

  lemma DeltaMirrors<J>(json: Json<J>, c: Collection<J>, cells: seq<Cell>, r: Reader, x: Sent)
    requires Mirrors(json, c, cells, r) && ReaderInOrder(r) && Allowed(r, x) && x.wire.BlockDelta?
    ensures Mirrors(json, Collect(json, c, x.wire), AddWire(cells, x.wire), Next(r, x))
  {
    var n := x.wire.index;
    var d := c.(blocks := c.blocks[n := c.blocks[n].(cell := AddDelta(c.blocks[n].cell, x.wire.delta))]);
    assert Collect(json, c, x.wire) == d;
    assert cells[..|cells| - 1] == cells[..n];
    assert Stopped(Next(r, x)) == Stopped(r) == n;
  }

  lemma StopMirrors<J>(json: Json<J>, c: Collection<J>, cells: seq<Cell>, r: Reader, x: Sent)
    requires Mirrors(json, c, cells, r) && ReaderInOrder(r) && Allowed(r, x) && x.wire.BlockStop?
    requires ArgsValid(json, cells[r.count - 1])
    ensures Mirrors(json, Collect(json, c, x.wire), AddWire(cells, x.wire), Next(r, x))
  {
  }

  lemma StepMirrors<J>(json: Json<J>, c: Collection<J>, cells: seq<Cell>, r: Reader, x: Sent)
    requires Mirrors(json, c, cells, r) && ReaderInOrder(r) && Allowed(r, x) && !Terminal(x.wire)
    requires x.wire.BlockStop? ==> ArgsValid(json, cells[r.count - 1])
    ensures Mirrors(json, Collect(json, c, x.wire), AddWire(cells, x.wire), Next(r, x)) && ReaderInOrder(Next(r, x))
  {
    match x.wire
    case BlockStart(_, _) => StartMirrors(json, c, cells, r, x);
    case BlockDelta(_, _) => DeltaMirrors(json, c, cells, r, x);
    case BlockStop(_) => StopMirrors(json, c, cells, r, x);
    case _ =>
  }

  lemma BadStop<J>(json: Json<J>, c: Collection<J>, cells: seq<Cell>, r: Reader, x: Sent)
    requires Mirrors(json, c, cells, r) && ReaderInOrder(r) && Allowed(r, x) && x.wire.BlockStop?
    requires !ArgsValid(json, cells[r.count - 1])
    ensures Collect(json, c, x.wire).error == Some(MALFORMED)
  {
  }

  /** Up to the terminal event the collector mirrors the stream, unless a stopped tool block held
      malformed arguments, and then it has recorded an error. */
  lemma {:induction false} CollectsInStep<J>(json: Json<J>, sent: seq<Sent>, r: Reader)
    requires Read(sent) == Some(r) && !r.ended
    ensures ReaderInOrder(r) && |Cells(sent)| == r.count
    ensures if StoppedArgsValid(json, sent, r) then Mirrors(json, CollectAll(json, sent), Cells(sent), r)
            else CollectAll(json, sent).error == Some(MALFORMED)
  {
    if sent != [] {
      var before, x := sent[..|sent| - 1], sent[|sent| - 1];
      var q := Read(before).value;
      assert sent == before + [x];
      CollectsInStep(json, before, q);
      CellsSnoc(before, x);
      CollectSnoc(json, before, x);
      if StoppedArgsValid(json, before, q) {
        if x.wire.BlockStop? && !ArgsValid(json, Cells(before)[q.count - 1]) {
          BadStop(json, CollectAll(json, before), Cells(before), q, x);
          assert !ArgsValid(json, Cells(sent)[q.count - 1]);
        } else {
          StepMirrors(json, CollectAll(json, before), Cells(before), q, x);
        }
      } else {
        StillBad(json, before, q, x, r);
      }
    }
  }

  lemma StillBad<J>(json: Json<J>, before: seq<Sent>, q: Reader, x: Sent, r: Reader)
    requires ReaderInOrder(q) && Allowed(q, x) && r == Next(q, x) && |Cells(before)| == q.count
    requires !StoppedArgsValid(json, before, q)
    ensures !StoppedArgsValid(json, before + [x], r) && ReaderInOrder(r) && |Cells(before + [x])| == r.count
  {
    CellsSnoc(before, x);
    var k :| 0 <= k < Stopped(q) && k < |Cells(before)| && !ArgsValid(json, Cells(before)[k]);
    assert Cells(before + [x])[k] == Cells(before)[k] && k < Stopped(r);
  }

  // ---- the verdict of finish ---------------------------------------------------------------------

  /** Position of the first terminal event, or the length of the trace. */
  function FirstTerminal(sent: seq<Sent>): (n: nat)
    ensures n <= |sent| && forall i | 0 <= i < n :: !Terminal(sent[i].wire)
    ensures n < |sent| ==> Terminal(sent[n].wire)
  {
    if sent == [] || Terminal(sent[0].wire) then 0 else 1 + FirstTerminal(sent[1..])
  }

  lemma {:induction false} StaysEnded<J>(json: Json<J>, sent: seq<Sent>, n: nat)
    requires n <= |sent| && (CollectAll(json, sent[..n]).error.Some? || CollectAll(json, sent[..n]).stopped)
    ensures CollectAll(json, sent) == CollectAll(json, sent[..n])
  {
    if n == |sent| {
      assert sent[..n] == sent;
    } else {
      assert sent[..|sent| - 1][..n] == sent[..n];
      StaysEnded(json, sent[..|sent| - 1], n);
    }
  }

  lemma {:induction false} RangeSize(keys: set<int>, n: nat)
    requires forall k :: k in keys <==> 0 <= k < n
    ensures |keys| == n
  {
    if n == 0 {
      Inhabited(keys);
    } else {
      RangeSize(keys - {n - 1}, n - 1);
    }
  }

  lemma {:induction false} AscendingRange(order: seq<int>, i: nat)
    requires i < |order| && forall a, b | 0 <= a < b < |order| :: order[a] < order[b]
    requires forall k <- order :: 0 <= k < |order|
    ensures order[i] == i
  {
    AtLeast(order, i);
    AtMost(order, i);
  }

  lemma {:induction false} AtLeast(order: seq<int>, i: nat)
    requires i < |order| && forall a, b | 0 <= a < b < |order| :: order[a] < order[b]
    requires forall k <- order :: 0 <= k
    ensures order[i] >= i
  {
    if i > 0 {
      AtLeast(order, i - 1);
    } else {
      assert order[0] in order;
    }
  }

  lemma {:induction false} AtMost(order: seq<int>, i: nat)
    requires i < |order| && forall a, b | 0 <= a < b < |order| :: order[a] < order[b]
    requires forall k <- order :: k < |order|
    ensures order[i] <= i
    decreases |order| - i
  {
    if i < |order| - 1 {
      AtMost(order, i + 1);
    } else {
      assert order[i] in order;
    }
  }

  ghost predicate AllArgsValid<J>(json: Json<J>, cells: seq<Cell>) {
    forall k | 0 <= k < |cells| :: ArgsValid(json, cells[k])
  }

  /** The content the reference reading of the blocks amounts to. */
  function Content<J>(json: Json<J>, cells: seq<Cell>): seq<Slot<J>>
    requires AllArgsValid(json, cells)
  {
    seq(|cells|, k requires 0 <= k < |cells| => Slot(cells[k], InputOf(json, cells[k])))
  }

  lemma MirroredContent<J>(json: Json<J>, c: Collection<J>, cells: seq<Cell>, r: Reader)
    requires Mirrors(json, c, cells, r) && Stopped(r) == r.count && r.started && cells != []
    ensures AllArgsValid(json, cells)
    ensures Verdict(c.(stopped := true)) == Collected(c.message.value, Content(json, cells))
  {
    RangeSize(c.blocks.Keys, r.count);
    var order := Ascending(c.blocks.Keys);
    assert 0 in c.blocks;
    forall i | 0 <= i < |order|
      ensures order[i] == i
    {
      AscendingRange(order, i);
    }
    assert seq(|order|, i requires 0 <= i < |order| => c.blocks[order[i]]) == Content(json, cells);
  }

  lemma {:induction false} AcceptedUntil(sent: seq<Sent>, n: nat)
    requires Read(sent).Some? && n <= |sent| && forall i | 0 <= i < n :: !Terminal(sent[i].wire)
    ensures Read(sent[..n]).Some? && !Read(sent[..n]).value.ended
  {
    AcceptedPrefix(sent, n);
    if n > 0 {
      AcceptedUntil(sent, n - 1);
      assert sent[..n][..n - 1] == sent[..n - 1];
    }
  }

  lemma ClosingIsDelta(trace: seq<Sent>, r: Reader)
    requires Read(trace) == Some(r) && r.closing
    ensures trace != [] && trace[|trace| - 1].wire.MessageDelta?
  {
  }

  /** The reason of the message_delta in front of a message_stop is the one collected. */
  lemma ReasonCollected<J>(json: Json<J>, before: seq<Sent>, r: Reader)
    requires Read(before) == Some(r) && !r.ended && r.closing && StoppedArgsValid(json, before, r)
    ensures before != [] && before[|before| - 1].wire.MessageDelta?
    ensures CollectAll(json, before).message == Some(Some(before[|before| - 1].wire.stopReason))
  {
    ClosingIsDelta(before, r);
    var earlier, x := before[..|before| - 1], before[|before| - 1];
    var q := Read(earlier).value;
    assert before == earlier + [x];
    CellsSnoc(earlier, x);
    CollectsInStep(json, earlier, q);
    CollectSnoc(json, earlier, x);
  }

  /** The verdict at a message_stop, the only terminal event that lets `finish` succeed. */
  lemma VerdictAtStop<J>(json: Json<J>, before: seq<Sent>, x: Sent)
    requires Read(before).Some? && !Read(before).value.ended && Allowed(Read(before).value, x) && x.wire.MessageStop?
    ensures before != [] && before[|before| - 1].wire.MessageDelta?
    ensures var c := CollectAll(json, before + [x]);
            && (c.error.Some? || c.stopped)
            && Verdict(c) == if !AllArgsValid(json, Cells(before)) then Rejected(MALFORMED)
                             else if Cells(before) == [] then Rejected("upstream response contained no content blocks")
                             else Collected(Some(before[|before| - 1].wire.stopReason), Content(json, Cells(before)))
  {
    var r := Read(before).value;
    ClosingIsDelta(before, r);
    CollectsInStep(json, before, r);
    CollectSnoc(json, before, x);
    if StoppedArgsValid(json, before, r) {
      ReasonCollected(json, before, r);
      if Cells(before) != [] {
        MirroredContent(json, CollectAll(json, before), Cells(before), r);
      }
    }
  }

  /** The verdict at an error event: malformed arguments if a tool block stopped before had them, else
      the error's own message. */
  lemma VerdictAtError<J>(json: Json<J>, before: seq<Sent>, x: Sent)
    requires Read(before).Some? && !Read(before).value.ended && Allowed(Read(before).value, x) && x.wire.ErrorEvent?
    ensures var c := CollectAll(json, before + [x]);
            && c.error.Some?
            && Verdict(c) == Rejected(if !AllArgsValid(json, Cells(before)) then MALFORMED
                                      else if x.wire.message == "" then "upstream response failed"
                                      else x.wire.message)
  {
    CollectsInStep(json, before, Read(before).value);
    CollectSnoc(json, before, x);
  }

  /** What `finish` says of a run of the translator, read off the trace. It succeeds exactly when the
      first terminal event is message_stop, some block came before it, and every tool block holds empty
      or valid JSON; the content is then the blocks as they were streamed, in order, and the stop reason
      that of the message_delta just before. Otherwise each case is rejected in its own words. */
  lemma CollectorVerdict<J>(json: Json<J>, prefix: string, calls: seq<Call>)
    ensures var sent := Run(prefix, calls).sent;
            var n := FirstTerminal(sent);
            var outcome := Verdict(CollectAll(json, sent));
            && (outcome.Collected? <==>
                  n < |sent| && sent[n].wire.MessageStop? && Cells(sent[..n]) != []
                      && AllArgsValid(json, Cells(sent[..n])))
            && (outcome.Collected? ==>
                  && AllArgsValid(json, Cells(sent[..n])) && outcome.content == Content(json, Cells(sent[..n]))
                  && n > 0 && sent[n - 1].wire.MessageDelta? && outcome.stopReason == Some(sent[n - 1].wire.stopReason))
            && (n < |sent| && !AllArgsValid(json, Cells(sent[..n])) ==> outcome == Rejected(MALFORMED))
            && (n < |sent| && AllArgsValid(json, Cells(sent[..n])) && sent[n].wire.ErrorEvent? ==>
                  outcome == Rejected(if sent[n].wire.message == "" then "upstream response failed"
                                      else sent[n].wire.message))
            && (n < |sent| && sent[n].wire.MessageStop? && Cells(sent[..n]) == [] ==>
                  outcome == Rejected("upstream response contained no content blocks"))
            && (n == |sent| ==>
                  outcome == Rejected(MALFORMED)
                  || outcome == Rejected("upstream response did not produce a complete Anthropic message"))
  {
    hide Collect, Verdict, Allowed, Cells, AllArgsValid, Run, Content, Read;
    var sent := Run(prefix, calls).sent;
    var n := FirstTerminal(sent);
    RunIsBracketed(prefix, calls);
    GoodRead(Run(prefix, calls));
    AcceptedUntil(sent, n);
    if n == |sent| {
      assert sent[..n] == sent;
      VerdictUnfinished(json, sent);
    } else {
      AcceptedPrefix(sent, n);
      assert sent[..n + 1] == sent[..n] + [sent[n]];
      if sent[n].wire.MessageStop? {
        VerdictAtStop(json, sent[..n], sent[n]);
      } else {
        VerdictAtError(json, sent[..n], sent[n]);
      }
      StaysEnded(json, sent, n + 1);
      NoCells(json, Cells(sent[..n]));
    }
  }

  lemma NoCells<J>(json: Json<J>, cells: seq<Cell>)
    ensures cells == [] ==> AllArgsValid(json, cells)
  {
  }

  lemma GoodRead(s: State)
    requires Good(s)
    ensures Read(s.sent).Some?
  {
  }

  lemma VerdictUnfinished<J>(json: Json<J>, sent: seq<Sent>)
    requires Read(sent).Some? && !Read(sent).value.ended
    ensures var outcome := Verdict(CollectAll(json, sent));
            outcome == Rejected(MALFORMED)
            || outcome == Rejected("upstream response did not produce a complete Anthropic message")
  {
    CollectsInStep(json, sent, Read(sent).value);
  }
}
