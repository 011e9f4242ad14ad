/** The two event vocabularies the bridge translates between. */
module Protocol {
  datatype Option<+T> = None | Some(value: T) {
    function GetOr(default: T): T {
      if Some? then value else default
    }
  }

  // ---- OpenAI Responses side -------------------------------------------------------------

  datatype ItemType = ReasoningType | MessageType | FunctionCallType | OtherType

  /** An output item as the translator reads it; an absent string field that the source reads as
      `''` is the empty string, one it tests with `typeof` is an Option. */
  datatype Item = Item(
    itemType: ItemType,
    id: Option<string>,
    callId: Option<string>,
    name: string,
    arguments: string,
    encrypted: string)

  /** How the response ended: `status` and `incomplete_details.reason`. */
  datatype Ending = Ending(incomplete: bool, maxTokens: bool)

  /** One upstream event. `Noted` covers `response.created` and `response.in_progress`,
      `Ignored` every type the translator has no case for. */
  datatype Upstream =
    | Noted
    | ItemAdded(index: int, item: Item)
    | TextDelta(index: int, delta: string)
    | SummaryDelta(index: int, delta: string)
    | ArgsDelta(index: int, delta: string)
    | ItemDone(index: int, item: Item)
    | Completed(ending: Ending)
    | Failed(message: string)
    | Ignored

  /** `DEFERRABLE_TYPES` */
  predicate Deferrable(e: Upstream) {
    e.ItemAdded? || e.TextDelta? || e.SummaryDelta? || e.ArgsDelta? || e.ItemDone?
  }

  // ---- Anthropic Messages side -----------------------------------------------------------

  datatype Head =
    | TextHead
    | ThinkingHead
    | RedactedHead(data: string)
    | ToolHead(id: string, name: string)

  datatype Delta =
    | TextD(text: string)
    | ThinkingD(text: string)
    | SignatureD(signature: string)
    | JsonD(partial: string)

  datatype StopReason = MaxTokens | ToolUse | EndTurn

  datatype Wire =
    | MessageStart
    | BlockStart(index: int, head: Head)
    | BlockDelta(index: int, delta: Delta)
    | BlockStop(index: int)
    | MessageDelta(stopReason: StopReason)
    | MessageStop
    | ErrorEvent(message: string)

  predicate Terminal(w: Wire) {
    w.MessageStop? || w.ErrorEvent?
  }

  /** An emitted event together with the output item on whose behalf it was emitted;
      message-level events have no item. */
  datatype Sent = Sent(item: Option<int>, wire: Wire)

  /** What the client sees of a trace. */
  function Wires(sent: seq<Sent>): (w: seq<Wire>)
    ensures |w| == |sent| && forall i | 0 <= i < |sent| :: w[i] == sent[i].wire
  {
    seq(|sent|, i requires 0 <= i < |sent| => sent[i].wire)
  }

  lemma WiresAppend(a: seq<Sent>, b: seq<Sent>)
    ensures Wires(a + b) == Wires(a) + Wires(b)
  {
  }
}
