/** translate-request.ts: content blocks of one message back to Responses input items, and the
    provider-tagged reasoning blob that carries an item's id and encrypted content. */
module RequestItems {
  import opened Protocol
  import opened Bytes
  import opened MessageCollectors

  // ---- the reasoning blob ---------------------------------------------------------------------

  const ID_MARK := "#id="

  /** `splitReasoningBlob` */
  function SplitBlob(blob: string): (r: (Option<string>, string)) {
    if ID_MARK <= blob then
      var end := IndexOf(blob, '#', 4);
      if 4 < end < |blob| then (Some(blob[4..end]), blob[end + 1..]) else (None, blob)
    else (None, blob)
  }

  /** The blob the translator builds behind the provider prefix; the empty id stands for no id. */
  function WrapBlob(id: string, encrypted: string): string {
    (if id == "" then "" else ID_MARK + id + "#") + encrypted
  }

  /** What the split needs to find: an id without `#`, or, without an id, encrypted content that
      does not itself look like a marked id. */
  predicate Recoverable(id: string, encrypted: string) {
    if id != "" then '#' !in id
    else !(ID_MARK <= encrypted && 4 < IndexOf(encrypted, '#', 4) < |encrypted|)
  }

  /** The blob round trip holds exactly under that condition. */
  lemma BlobRoundTrip(id: string, encrypted: string)
    ensures SplitBlob(WrapBlob(id, encrypted)) == (if id == "" then None else Some(id), encrypted)
            <==> Recoverable(id, encrypted)
  {
    var blob := WrapBlob(id, encrypted);
    if id == "" {
      assert blob == encrypted;
    } else {
      assert blob[..4] == ID_MARK;
      assert blob[4..] == id + "#" + encrypted;
      assert forall k | 0 <= k < |id| :: blob[4 + k] == id[k];
      assert blob[4 + |id|] == '#';
      var end := IndexOf(blob, '#', 4);
      if '#' !in id {
        assert end == 4 + |id|;
        assert blob[4..end] == id && blob[end + 1..] == encrypted;
      } else {
        var k :| 0 <= k < |id| && id[k] == '#';
        assert blob[4 + k] == '#' && end <= 4 + k;
      }
    }
  }

  // ---- content blocks to input items ------------------------------------------------------------

  datatype Role = User | Assistant | Developer

  datatype Part = OutputText(text: string) | InputText(text: string) | InputImage(url: string)

  /** A content block of a request; `url` is None where `imageToDataUrl` finds no usable source. */
  datatype ContentBlock<J> =
    | TextB(text: string)
    | ImageB(url: Option<string>)
    | ToolUseB(id: string, name: string, input: J)
    | ToolResultB(id: string, output: string)
    | ThinkingB(thinking: string, signature: string)
    | RedactedB(data: string)
    | UnknownB

  datatype InputItem =
    | MessageInput(role: Role, parts: seq<Part>)
    | FunctionCallInput(name: string, arguments: string, callId: string)
    | FunctionOutputInput(callId: string, output: string)
    | ReasoningInput(id: Option<string>, summary: seq<string>, encrypted: string)

  /** `ReasoningReplayOpts` */
  datatype Replay = Replay(providerPrefix: string, dropAll: bool)

  function TextPart(role: Role, text: string): Part {
    if role == Assistant then OutputText(text) else InputText(text)
  }

  function Flush(role: Role, pending: seq<Part>): seq<InputItem> {
    if pending == [] then [] else [MessageInput(role, pending)]
  }

  /** The reasoning item that a signed or sealed block replays as, none from another provider. */
  function ReplayBlob(opts: Replay, blob: string, summary: seq<string>): seq<InputItem> {
    if opts.dropAll || blob == "" || opts.providerPrefix == "" || !(opts.providerPrefix <= blob) then []
    else
      var (id, encrypted) := SplitBlob(blob[|opts.providerPrefix|..]);
      [ReasoningInput(id, summary, encrypted)]
  }

  function Arguments<J>(json: Json<J>, input: J): string {
    json.stringify(if json.nullish(input) then json.emptyObject else input)
  }

  /** The item that a block other than text and image stands for. */
  function BlockItem<J>(json: Json<J>, opts: Replay, b: ContentBlock<J>): seq<InputItem> {
    match b
    case ToolUseB(id, name, input) => [FunctionCallInput(name, Arguments(json, input), id)]
    case ToolResultB(id, output) => [FunctionOutputInput(id, output)]
    case ThinkingB(thinking, signature) => ReplayBlob(opts, signature, if thinking == "" then [] else [thinking])
    case RedactedB(data) => ReplayBlob(opts, data, [])
    case _ => []
  }

  /** The items of the blocks from the left, with the message parts still waiting to be flushed. */
  function Convert<J>(json: Json<J>, role: Role, opts: Replay, blocks: seq<ContentBlock<J>>,
      pending: seq<Part>): seq<InputItem>
    decreases |blocks|
  {
    if blocks == [] then Flush(role, pending)
    else
      var b, rest := blocks[0], blocks[1..];
      if b.TextB? then Convert(json, role, opts, rest, pending + [TextPart(role, b.text)])
      else if b.ImageB? then
        Convert(json, role, opts, rest, if b.url.Some? then pending + [InputImage(b.url.value)] else pending)
      else if b.UnknownB? then Convert(json, role, opts, rest, pending)
      else Flush(role, pending) + BlockItem(json, opts, b) + Convert(json, role, opts, rest, [])
  }

  /** The items and the waiting parts after one more block. */
  function Advance<J>(json: Json<J>, role: Role, opts: Replay, b: ContentBlock<J>, items: seq<InputItem>,
      pending: seq<Part>)
    : (seq<InputItem>, seq<Part>)
  {
    match b
    case TextB(text) => (items, pending + [TextPart(role, text)])
    case ImageB(url) => (items, if url.Some? then pending + [InputImage(url.value)] else pending)
    case UnknownB => (items, pending)
    case _ => (items + Flush(role, pending) + BlockItem(json, opts, b), [])
  }

  lemma ConvertAdvances<J>(
    json: Json<J>, role: Role, opts: Replay, blocks: seq<ContentBlock<J>>, items: seq<InputItem>, pending: seq<Part>)
    requires blocks != []
    ensures var (items', pending') := Advance(json, role, opts, blocks[0], items, pending);
            items + Convert(json, role, opts, blocks, pending)
                == items' + Convert(json, role, opts, blocks[1..], pending')
  {
  }

  // ---- what the items hold, read off the blocks ------------------------------------------------------

  /** The results of tools among the items, as call id and output. */
  function OutputsIn(items: seq<InputItem>): seq<(string, string)> {
    if items == [] then []
    else (if items[0].FunctionOutputInput? then [(items[0].callId, items[0].output)] else []) + OutputsIn(items[1..])
  }

  /** The tool_result blocks, as the id of the tool_use and the result. */
  function ResultsIn<J>(blocks: seq<ContentBlock<J>>): seq<(string, string)> {
    if blocks == [] then []
    else (if blocks[0].ToolResultB? then [(blocks[0].id, blocks[0].output)] else []) + ResultsIn(blocks[1..])
  }

  /** The calls among the items, as call id, name and arguments. */
  function CallsIn(items: seq<InputItem>): seq<(string, string, string)> {
    if items == [] then []
    else (if items[0].FunctionCallInput? then [(items[0].callId, items[0].name, items[0].arguments)] else [])
         + CallsIn(items[1..])
  }

  /** The tool_use blocks, their input printed; a missing input is an empty object. */
  function UsesIn<J>(json: Json<J>, blocks: seq<ContentBlock<J>>): seq<(string, string, string)> {
    if blocks == [] then []
    else
      var b := blocks[0];
      (if !b.ToolUseB? then []
       else if json.nullish(b.input) then [(b.id, b.name, json.stringify(json.emptyObject))]
       else [(b.id, b.name, json.stringify(b.input))]) + UsesIn(json, blocks[1..])
  }

  /** The message parts among the items, in order. */
  function PartsIn(items: seq<InputItem>): seq<Part> {
    if items == [] then [] else (if items[0].MessageInput? then items[0].parts else []) + PartsIn(items[1..])
  }

  /** The text blocks, as what the role says, and the images that have a source. */
  function VisibleIn<J>(role: Role, blocks: seq<ContentBlock<J>>): seq<Part> {
    if blocks == [] then []
    else
      var b := blocks[0];
      (if b.TextB? && role.Assistant? then [OutputText(b.text)]
       else if b.TextB? then [InputText(b.text)]
       else if b.ImageB? && b.url.Some? then [InputImage(b.url.value)]
       else []) + VisibleIn(role, blocks[1..])
  }

  /** A block that stands for an item of its own. */
  predicate Breaks<J>(b: ContentBlock<J>) {
    b.ToolUseB? || b.ToolResultB? || b.ThinkingB? || b.RedactedB?
  }

  lemma {:induction false} OutputsInAppend(a: seq<InputItem>, b: seq<InputItem>)
    ensures OutputsIn(a + b) == OutputsIn(a) + OutputsIn(b)
  {
    if a == [] {
      assert a + b == b;
    } else {
      assert (a + b)[0] == a[0] && (a + b)[1..] == a[1..] + b;
      OutputsInAppend(a[1..], b);
    }
  }

  lemma {:induction false} CallsInAppend(a: seq<InputItem>, b: seq<InputItem>)
    ensures CallsIn(a + b) == CallsIn(a) + CallsIn(b)
  {
    if a == [] {
      assert a + b == b;
    } else {
      assert (a + b)[0] == a[0] && (a + b)[1..] == a[1..] + b;
      CallsInAppend(a[1..], b);
    }
  }

  lemma {:induction false} PartsInAppend(a: seq<InputItem>, b: seq<InputItem>)
    ensures PartsIn(a + b) == PartsIn(a) + PartsIn(b)
  {
    if a == [] {
      assert a + b == b;
    } else {
      assert (a + b)[0] == a[0] && (a + b)[1..] == a[1..] + b;
      PartsInAppend(a[1..], b);
      Regroup(if a[0].MessageInput? then a[0].parts else [], PartsIn(a[1..]), PartsIn(b));
    }
  }

  /** What one block that stands for itself holds. */
  lemma BlockHolds<J>(json: Json<J>, opts: Replay, b: ContentBlock<J>)
    requires Breaks(b)
    ensures var items := BlockItem(json, opts, b);
            && OutputsIn(items) == ResultsIn([b]) && CallsIn(items) == UsesIn(json, [b]) && PartsIn(items) == []
            && forall item <- items :: !item.MessageInput?
  {
    hide SplitBlob;
    var items := BlockItem(json, opts, b);
    assert [b][1..] == [] && (items != [] ==> items[1..] == []);
  }

  lemma FlushHolds(role: Role, pending: seq<Part>)
    ensures var items := Flush(role, pending);
            && OutputsIn(items) == [] && CallsIn(items) == [] && PartsIn(items) == pending
            && forall item <- items :: item.MessageInput? && item.role == role && item.parts != []
  {
    var items := Flush(role, pending);
    if items != [] {
      assert items[1..] == [];
    }
  }

  /** Everything but reasoning, for any role and any mix of blocks: the results and the calls are those
      of the blocks, each with its own id, and the message parts are the text and the usable images, each
      kind in order; messages have the role of the request's message and are not empty. */
  lemma {:induction false} ItemsHold<J>(json: Json<J>, role: Role, opts: Replay, blocks: seq<ContentBlock<J>>,
      pending: seq<Part>)
    ensures var items := Convert(json, role, opts, blocks, pending);
            && OutputsIn(items) == ResultsIn(blocks) && CallsIn(items) == UsesIn(json, blocks)
            && PartsIn(items) == pending + VisibleIn(role, blocks)
            && forall item <- items | item.MessageInput? :: item.role == role && item.parts != []
    decreases |blocks|
  {
    hide BlockItem, Flush, OutputsIn, CallsIn, PartsIn;
    FlushHolds(role, pending);
    if blocks == [] {
      assert pending + [] == pending;
    } else {
      var b, rest := blocks[0], blocks[1..];
      assert [b][1..] == [];
      if Breaks(b) {
        ItemsHold(json, role, opts, rest, []);
        BlockHolds(json, opts, b);
        var front, item, more := Flush(role, pending), BlockItem(json, opts, b), Convert(json, role, opts, rest, []);
        OutputsInAppend(front + item, more);
        OutputsInAppend(front, item);
        CallsInAppend(front + item, more);
        CallsInAppend(front, item);
        PartsInAppend(front + item, more);
        PartsInAppend(front, item);
      } else {
        NotBreaking(json, role, opts, blocks, pending);
        var part := VisibleIn(role, [b]);
        ItemsHold(json, role, opts, rest, pending + part);
        Regroup(pending, part, VisibleIn(role, rest));
      }
    }
  }

  lemma NotBreaking<J>(json: Json<J>, role: Role, opts: Replay, blocks: seq<ContentBlock<J>>, pending: seq<Part>)
    requires blocks != [] && !Breaks(blocks[0])
    ensures Convert(json, role, opts, blocks, pending)
         == Convert(json, role, opts, blocks[1..], pending + VisibleIn(role, [blocks[0]]))
    ensures VisibleIn(role, blocks) == VisibleIn(role, [blocks[0]]) + VisibleIn(role, blocks[1..])
    ensures ResultsIn(blocks) == ResultsIn(blocks[1..]) && UsesIn(json, blocks) == UsesIn(json, blocks[1..])
  {
    assert [blocks[0]][1..] == [] && pending + [] == pending;
    match blocks[0]
    case TextB(text) => assert VisibleIn(role, [blocks[0]]) == [TextPart(role, text)];
    case ImageB(url) =>
      assert VisibleIn(role, [blocks[0]]) == if url.Some? then [InputImage(url.value)] else [];
    case UnknownB => assert VisibleIn(role, [blocks[0]]) == [];
    case _ =>
  }

  /** A stretch of blocks without tools and reasoning makes one message of all its parts, or none. */
  lemma {:induction false} StretchIsOneMessage<J>(json: Json<J>, role: Role, opts: Replay,
      blocks: seq<ContentBlock<J>>, pending: seq<Part>)
    requires forall b <- blocks :: !Breaks(b)
    ensures var parts := pending + VisibleIn(role, blocks);
            Convert(json, role, opts, blocks, pending) == if parts == [] then [] else [MessageInput(role, parts)]
    decreases |blocks|
  {
    if blocks == [] {
      assert pending + [] == pending;
    } else {
      var part := VisibleIn(role, [blocks[0]]);
      NotBreaking(json, role, opts, blocks, pending);
      StretchIsOneMessage(json, role, opts, blocks[1..], pending + part);
      Regroup(pending, part, VisibleIn(role, blocks[1..]));
    }
  }

  /** No message crosses a tool or reasoning block: there the conversion falls apart, whether or not the
      block itself makes an item, so the items are in the order of the blocks. */
  lemma {:induction false} SplitsAtBlock<J>(json: Json<J>, role: Role, opts: Replay, before: seq<ContentBlock<J>>,
      b: ContentBlock<J>, after: seq<ContentBlock<J>>, pending: seq<Part>)
    requires Breaks(b)
    ensures Convert(json, role, opts, before + [b] + after, pending)
         == Convert(json, role, opts, before, pending) + Convert(json, role, opts, [b], [])
            + Convert(json, role, opts, after, [])
    decreases |before|
  {
    hide BlockItem;
    var all := before + [b] + after;
    if before == [] {
      assert all == [b] + after && all[1..] == after && [b][1..] == [];
      assert Flush(role, []) + BlockItem(json, opts, b) + [] == BlockItem(json, opts, b);
    } else {
      var rest := before[1..];
      assert all[0] == before[0] && all[1..] == rest + [b] + after;
      if Breaks(before[0]) {
        SplitsAtBlock(json, role, opts, rest, b, after, []);
        var item := Flush(role, pending) + BlockItem(json, opts, before[0]);
        var x, y, z := Convert(json, role, opts, rest, []), Convert(json, role, opts, [b], []),
                       Convert(json, role, opts, after, []);
        assert item + (x + y + z) == item + x + y + z;
      } else {
        NotBreaking(json, role, opts, all, pending);
        NotBreaking(json, role, opts, before, pending);
        SplitsAtBlock(json, role, opts, rest, b, after, pending + VisibleIn(role, [before[0]]));
      }
    }
  }

  /** `messageToInputItems` for a block array. */
  method MessageToInputItems<J>(json: Json<J>, role: Role, opts: Replay, blocks: seq<ContentBlock<J>>)
    returns (items: seq<InputItem>)
    ensures items == Convert(json, role, opts, blocks, [])
    ensures OutputsIn(items) == ResultsIn(blocks) && CallsIn(items) == UsesIn(json, blocks)
    ensures PartsIn(items) == VisibleIn(role, blocks)
    ensures forall item <- items | item.MessageInput? :: item.role == role && item.parts != []
  {
    items := [];
    var pending: seq<Part> := [];
    var n := 0;
    while n < |blocks|
      invariant n <= |blocks|
      invariant items + Convert(json, role, opts, blocks[n..], pending) == Convert(json, role, opts, blocks, [])
    {
      var b := blocks[n];
      assert blocks[n..][0] == b && blocks[n..][1..] == blocks[n + 1..];
      ConvertAdvances(json, role, opts, blocks[n..], items, pending);
      match b {
        case TextB(text) => pending := pending + [TextPart(role, text)];
        case ImageB(url) =>
          if url.Some? {
            pending := pending + [InputImage(url.value)];
          }
        case UnknownB =>
        case _ =>
          items := items + Flush(role, pending);
          pending := [];
          items := items + BlockItem(json, opts, b);
      }
      n := n + 1;
    }
    items := items + Flush(role, pending);
    ItemsHold(json, role, opts, blocks, []);
  }

  // ---- no reasoning crosses providers -------------------------------------------------------------

  /** A provider prefix: one path segment with its slash, like `chatgpt/`. */
  predicate Segment(prefix: string) {
    |prefix| > 1 && prefix[|prefix| - 1] == '/' && forall k | 0 <= k < |prefix| - 1 :: prefix[k] != '/'
  }

  lemma SegmentsDoNotNest(p: string, q: string, blob: string)
    requires Segment(p) && Segment(q) && p <= blob && q <= blob
    ensures p == q
  {
    assert blob[|p| - 1] == '/' && forall k | 0 <= k < |p| - 1 :: blob[k] != '/';
    assert blob[|q| - 1] == '/' && forall k | 0 <= k < |q| - 1 :: blob[k] != '/';
  }

  /** The blob a reasoning block carries, and the summary beside it. */
  function BlobOf<J>(b: ContentBlock<J>): (string, seq<string>) {
    match b
    case ThinkingB(thinking, signature) => (signature, if thinking == "" then [] else [thinking])
    case RedactedB(data) => (data, [])
    case _ => ("", [])
  }

  /** The block carries a blob issued under prefix p. */
  predicate IssuedBy<J>(p: string, b: ContentBlock<J>) {
    p != "" && p <= BlobOf(b).0
  }

  function Replayed<J>(q: string, b: ContentBlock<J>): InputItem
    requires IssuedBy(q, b)
  {
    var (blob, summary) := BlobOf(b);
    var (id, encrypted) := SplitBlob(blob[|q|..]);
    ReasoningInput(id, summary, encrypted)
  }

  /** What the blocks issued under prefix q replay as, in their order. */
  function OwnReasoning<J>(q: string, blocks: seq<ContentBlock<J>>): seq<InputItem> {
    if blocks == [] then []
    else (if IssuedBy(q, blocks[0]) then [Replayed(q, blocks[0])] else []) + OwnReasoning(q, blocks[1..])
  }

  function ReasoningOf(items: seq<InputItem>): seq<InputItem> {
    if items == [] then []
    else (if items[0].ReasoningInput? then [items[0]] else []) + ReasoningOf(items[1..])
  }

  lemma {:induction false} ReasoningOfAppend(a: seq<InputItem>, b: seq<InputItem>)
    ensures ReasoningOf(a + b) == ReasoningOf(a) + ReasoningOf(b)
  {
    if a == [] {
      assert a + b == b;
    } else {
      assert (a + b)[0] == a[0] && (a + b)[1..] == a[1..] + b;
      ReasoningOfAppend(a[1..], b);
      Regroup(if a[0].ReasoningInput? then [a[0]] else [], ReasoningOf(a[1..]), ReasoningOf(b));
    }
  }

  lemma BlockReasoning<J>(json: Json<J>, opts: Replay, b: ContentBlock<J>)
    ensures ReasoningOf(BlockItem(json, opts, b))
         == if !opts.dropAll && IssuedBy(opts.providerPrefix, b) then [Replayed(opts.providerPrefix, b)] else []
  {
    hide SplitBlob;
    var items := BlockItem(json, opts, b);
    if items != [] {
      assert items[1..] == [];
    }
  }

  lemma FlushedReasoning(role: Role, pending: seq<Part>)
    ensures ReasoningOf(Flush(role, pending)) == []
  {
    var flushed := Flush(role, pending);
    if flushed != [] {
      assert flushed[1..] == [];
    }
  }

  lemma AdvanceReasoning<J>(json: Json<J>, role: Role, opts: Replay, b: ContentBlock<J>, pending: seq<Part>)
    ensures ReasoningOf(Advance(json, role, opts, b, [], pending).0)
         == if !opts.dropAll && IssuedBy(opts.providerPrefix, b) then [Replayed(opts.providerPrefix, b)] else []
  {
    hide Replayed, BlockItem, Flush;
    FlushedReasoning(role, pending);
    BlockReasoning(json, opts, b);
    ReasoningOfAppend(Flush(role, pending), BlockItem(json, opts, b));
    assert [] + Flush(role, pending) == Flush(role, pending);
  }

  /** Which reasoning is replayed, for every mix of blocks: that of the blocks issued under the
      provider's own prefix, all of it and in order, unless replay is switched off. */
  lemma {:induction false} ReplaysOwnReasoning<J>(
    json: Json<J>, role: Role, opts: Replay, blocks: seq<ContentBlock<J>>, pending: seq<Part>)
    ensures ReasoningOf(Convert(json, role, opts, blocks, pending))
         == if opts.dropAll then [] else OwnReasoning(opts.providerPrefix, blocks)
    decreases |blocks|
  {
    hide Replayed, Advance, IssuedBy, ReasoningOf;
    if blocks == [] {
      FlushedReasoning(role, pending);
    } else {
      var (items, next) := Advance(json, role, opts, blocks[0], [], pending);
      var converted := Convert(json, role, opts, blocks, pending);
      ConvertAdvances(json, role, opts, blocks, [], pending);
      assert [] + converted == converted;
      AdvanceReasoning(json, role, opts, blocks[0], pending);
      ReplaysOwnReasoning(json, role, opts, blocks[1..], next);
      ReasoningOfAppend(items, Convert(json, role, opts, blocks[1..], next));
    }
  }

  lemma {:induction false} OwnReasoningOf<J>(q: string, blocks: seq<ContentBlock<J>>)
    ensures forall item <- OwnReasoning(q, blocks) ::
              exists k :: 0 <= k < |blocks| && IssuedBy(q, blocks[k]) && item == Replayed(q, blocks[k])
  {
    hide Replayed;
    if blocks != [] {
      OwnReasoningOf(q, blocks[1..]);
      forall item <- OwnReasoning(q, blocks)
        ensures exists k :: 0 <= k < |blocks| && IssuedBy(q, blocks[k]) && item == Replayed(q, blocks[k])
      {
        if item in OwnReasoning(q, blocks[1..]) {
          var k :| 0 <= k < |blocks[1..]| && IssuedBy(q, blocks[1..][k]) && item == Replayed(q, blocks[1..][k]);
          assert blocks[k + 1] == blocks[1..][k];
        }
      }
    }
  }

  lemma {:induction false} InReasoningOf(items: seq<InputItem>, item: InputItem)
    requires item in items && item.ReasoningInput?
    ensures item in ReasoningOf(items)
  {
    if items[0] != item {
      InReasoningOf(items[1..], item);
    }
  }

  /** Reasoning issued by one provider is never replayed to another: whatever the mix of blocks, a
      reasoning item sent to q comes from a block issued under q and under no other segment. */
  lemma NoForeignReasoning<J>(json: Json<J>, role: Role, opts: Replay, blocks: seq<ContentBlock<J>>, item: InputItem)
    requires Segment(opts.providerPrefix)
    requires item in Convert(json, role, opts, blocks, []) && item.ReasoningInput?
    ensures exists k ::
              && 0 <= k < |blocks| && IssuedBy(opts.providerPrefix, blocks[k])
              && item == Replayed(opts.providerPrefix, blocks[k])
              && forall p | Segment(p) && p != opts.providerPrefix :: !IssuedBy(p, blocks[k])
  {
    hide Replayed, Convert, Segment;
    var q := opts.providerPrefix;
    InReasoningOf(Convert(json, role, opts, blocks, []), item);
    ReplaysOwnReasoning(json, role, opts, blocks, []);
    OwnReasoningOf(q, blocks);
    var k :| 0 <= k < |blocks| && IssuedBy(q, blocks[k]) && item == Replayed(q, blocks[k]);
    forall p | Segment(p) && p != q
      ensures !IssuedBy(p, blocks[k])
    {
      NotForeign(p, q, BlobOf(blocks[k]).0);
    }
  }

  lemma NotForeign(p: string, q: string, blob: string)
    requires Segment(p) && Segment(q) && p != q && q <= blob
    ensures !(p <= blob)
  {
    if p <= blob {
      SegmentsDoNotNest(p, q, blob);
    }
  }
}
