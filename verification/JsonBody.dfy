/** `pushJson`: a complete response as the sequence of calls it makes on the translator. */
module JsonBodies {
  import opened Protocol
  import opened Translation
  import opened Payloads

  /** An output item of a complete response with the texts of its content or summary parts. */
  datatype OutputItem = OutputItem(item: Item, parts: seq<string>)

  /** The shapes `pushJson` tells apart. */
  datatype Body =
    | NotAnObject
    | FailedBody(message: string)
    | NonTerminal
    | Whole(output: seq<OutputItem>, ending: Ending)

  const INVALID := "upstream returned an invalid Responses JSON object"
  const NON_TERMINAL := "upstream returned a non-terminal Responses JSON object"

  function PartEvents(i: int, o: OutputItem): seq<Upstream> {
    match o.item.itemType
    case MessageType => TextDeltas(i, o.parts)
    case ReasoningType => SummaryDeltas(i, o.parts)
    case FunctionCallType => [ArgsDelta(i, o.item.arguments)]
    case OtherType => []
  }

  function ItemEvents(i: int, o: OutputItem): seq<Upstream> {
    [ItemAdded(i, o.item)] + PartEvents(i, o) + [ItemDone(i, o.item)]
  }

  function OutputEvents(output: seq<OutputItem>): seq<Upstream> {
    if output == [] then []
    else
      var last := |output| - 1;
      OutputEvents(output[..last]) + ItemEvents(last, output[last])
  }

  function Feeds(events: seq<Upstream>): (calls: seq<Call>)
    ensures |calls| == |events| && forall k | 0 <= k < |events| :: calls[k] == Feed(events[k])
  {
    seq(|events|, k requires 0 <= k < |events| => Feed(events[k]))
  }

  function BodyCalls(body: Body): seq<Call> {
    match body
    case NotAnObject => [Abort(INVALID)]
    case FailedBody(message) => [Feed(Failed(message))]
    case NonTerminal => [Abort(NON_TERMINAL)]
    case Whole(output, ending) => Feeds([Noted] + OutputEvents(output) + [Completed(ending)])
  }

  lemma FeedsAppend(a: seq<Upstream>, b: seq<Upstream>)
    ensures Feeds(a + b) == Feeds(a) + Feeds(b)
  {
  }

  lemma FedAppend(prefix: string, s: State, a: seq<Upstream>, b: seq<Upstream>)
    ensures RunFrom(prefix, s, Feeds(a + b)) == RunFrom(prefix, RunFrom(prefix, s, Feeds(a)), Feeds(b))
  {
    FeedsAppend(a, b);
    RunAppend(prefix, s, Feeds(a), Feeds(b));
  }

  lemma OneCall(prefix: string, s: State, c: Call)
    ensures RunFrom(prefix, s, [c]) == Apply(prefix, s, c)
  {
    RunSnoc(prefix, s, [], c);
    assert [c] == [] + [c];
  }

  lemma FedNothing(prefix: string, s: State)
    ensures RunFrom(prefix, s, Feeds([])) == s
  {
    assert Feeds([]) == [];
  }

  lemma FedOne(prefix: string, s: State, e: Upstream)
    ensures RunFrom(prefix, s, Feeds([e])) == Push(prefix, s, e)
  {
    OneCall(prefix, s, Feed(e));
    assert Feeds([e]) == [Feed(e)];
  }

  lemma FedSnoc(prefix: string, s: State, a: seq<Upstream>, e: Upstream)
    ensures RunFrom(prefix, s, Feeds(a + [e])) == Push(prefix, RunFrom(prefix, s, Feeds(a)), e)
  {
    FedAppend(prefix, s, a, [e]);
    FedOne(prefix, RunFrom(prefix, s, Feeds(a)), e);
  }

  lemma NextState(prefix: string, s: State, t: State, a: seq<Upstream>, b: seq<Upstream>)
    requires t == RunFrom(prefix, s, Feeds(a))
    ensures RunFrom(prefix, t, Feeds(b)) == RunFrom(prefix, s, Feeds(a + b))
  {
    FedAppend(prefix, s, a, b);
  }
}
