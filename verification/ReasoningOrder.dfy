/** Where reasoning stands among the other items: a reasoning item holds the open slot from its first delta
    on, and is forgotten with its done event. */
module ReasoningOrder {
  import opened JsText
  import opened Protocol
  import opened Translation
  import opened Bracketing
  import opened Deferral

  lemma OthersClosed(s: State, i: int)
    requires i in s.blocks
    ensures var t := CloseOther(s, i);
            && i in t.blocks && t.blocks[i] == s.blocks[i] && t.deferred == s.deferred && s.sent <= t.sent
            && (t.open.Some? ==> t.open == Some(i))
  {
  }

  /** A summary delta of a reasoning item that is not kept waiting takes the slot. */
  lemma DeltaTakes(s: State, i: int, delta: string)
    requires Is(s, i, Thinking) && (s.blocks[i].live ==> s.open == Some(i))
    ensures var t := OnSummaryDelta(s, i, delta);
            t.open == Some(i) && Is(t, i, Thinking) && t.deferred == s.deferred && s.sent <= t.sent
  {
    hide Blank, CloseOther;
    OthersClosed(s, i);
  }

  lemma HeldByDelta(prefix: string, s: State, i: int, delta: string)
    requires Consistent(s) && Waiting(s) && Is(s, i, Thinking) && !ShouldDefer(s, SummaryDelta(i, delta))
    ensures var t := Push(prefix, s, SummaryDelta(i, delta));
            t.open == Some(i) && Is(t, i, Thinking) && t.deferred == s.deferred && s.sent <= t.sent
  {
    hide OnSummaryDelta;
    var e := SummaryDelta(i, delta);
    DeltaTakes(s.(handled := s.handled + [e]), i, delta);
    var h := HandleOpen(prefix, s, e);
    forall d <- h.deferred
      ensures ShouldDefer(h, d)
    {
      assert ShouldDefer(s, d);
    }
    NoneReady(h);
  }

  lemma NoneReady(s: State)
    requires Waiting(s)
    ensures FirstReady(s, s.deferred) == |s.deferred|
  {
  }

  lemma {:induction false} OthersWait(prefix: string, calls: seq<Call>, others: seq<Call>, i: int)
    requires Run(prefix, calls).open == Some(i) && Is(Run(prefix, calls), i, Thinking)
    requires forall k | 0 <= k < |others| ::
               others[k].Feed? && Deferrable(others[k].event) && others[k].event.index != i
    ensures Run(prefix, calls + others)
         == Run(prefix, calls).(deferred := Run(prefix, calls + others).deferred)
  {
    hide Run;
    if others == [] {
      assert calls + others == calls;
    } else {
      var most, last := others[..|others| - 1], others[|others| - 1];
      OthersWait(prefix, calls, most, i);
      assert calls + others == calls + most + [last];
      LastPush(prefix, calls + most, last);
    }
  }

  lemma LastPush(prefix: string, calls: seq<Call>, c: Call)
    ensures Run(prefix, calls + [c]) == Apply(prefix, Run(prefix, calls), c)
  {
    RunSnoc(prefix, INITIAL, calls, c);
  }

  /** Any summary delta of a reasoning item, a blank one too, makes every event of the other items wait:
      however many of them come, nothing is sent, until the item's own done event. What is sent then is
      first the item's own, its sealed block or its signature, so that reasoning keeps its place. */
  lemma ReasoningKeepsItsPlace(prefix: string, calls: seq<Call>, i: int, delta: string, others: seq<Call>, item: Item)
    requires Is(Run(prefix, calls), i, Thinking) && !ShouldDefer(Run(prefix, calls), SummaryDelta(i, delta))
    requires forall k | 0 <= k < |others| ::
               others[k].Feed? && Deferrable(others[k].event) && others[k].event.index != i
    ensures var held := calls + [Feed(SummaryDelta(i, delta))];
            var sent, after := Run(prefix, held).sent, Run(prefix, held + others + [Feed(ItemDone(i, item))]).sent;
            && Run(prefix, held + others).sent == sent
            && sent <= after
            && (Blob(prefix, item) != "" ==> |after| > |sent| && after[|sent|].item == Some(i))
  {
    hide Run, Good, Waiting, Blob;
    var held, done := calls + [Feed(SummaryDelta(i, delta))], Feed(ItemDone(i, item));
    RunIsBracketed(prefix, calls);
    RunConserves(prefix, calls, None);
    LastPush(prefix, calls, Feed(SummaryDelta(i, delta)));
    HeldByDelta(prefix, Run(prefix, calls), i, delta);
    OthersWait(prefix, held, others, i);
    RunIsBracketed(prefix, held + others);
    LastPush(prefix, held + others, done);
    DoneSends(prefix, Run(prefix, held + others), i, item);
  }

  lemma DoneSends(prefix: string, s: State, i: int, item: Item)
    requires Good(s) && s.open == Some(i) && Is(s, i, Thinking)
    ensures var t := Push(prefix, s, ItemDone(i, item));
            s.sent <= t.sent && (Blob(prefix, item) != "" ==> |t.sent| > |s.sent| && t.sent[|s.sent|].item == Some(i))
  {
    hide Blob, Drain, Good, ThinkingDone;
    var e := ItemDone(i, item);
    OwnFirst(s.(handled := s.handled + [e]), i, Blob(prefix, item));
    HandleOpenGood(prefix, s, e);
    DrainSent(prefix, HandleOpen(prefix, s, e));
  }

  lemma OwnFirst(s: State, i: int, blob: string)
    requires s.open == Some(i) && i in s.blocks
    ensures var t := ThinkingDone(s, i, blob);
            s.sent <= t.sent && (blob != "" ==> |t.sent| > |s.sent| && t.sent[|s.sent|].item == Some(i))
  {
  }

  lemma {:induction false} DrainSent(prefix: string, s: State)
    requires Good(s)
    ensures s.sent <= Drain(prefix, s).sent
    decreases |s.deferred|
  {
    hide HandleOpen, Good;
    var n := FirstReady(s, s.deferred);
    if n < |s.deferred| {
      TakeOutGood(s, n);
      HandleOpenGood(prefix, TakeOut(s, n), s.deferred[n]);
      HandledSent(prefix, TakeOut(s, n), s.deferred[n]);
      DrainSent(prefix, HandleOpen(prefix, TakeOut(s, n), s.deferred[n]));
    }
  }

  /** A reasoning item whose done event has come starts anew: a later summary delta opens a block with its
      own text alone, without the blanks of the item's first life. */
  lemma LateSummaryIsItsOwn(prefix: string, calls: seq<Call>, i: int, item: Item, delta: string)
    requires Is(Run(prefix, calls), i, Thinking) && Run(prefix, calls).deferred == [] && !Blank(delta)
    requires !ShouldDefer(Run(prefix, calls), ItemDone(i, item))
    ensures var done := calls + [Feed(ItemDone(i, item))];
            ThinkingSent(Run(prefix, done).sent, Run(prefix, done + [Feed(SummaryDelta(i, delta))]).sent, delta)
  {
    hide Run, Good, ThinkingSent, Push, ShouldDefer;
    var s := Run(prefix, calls);
    LastPush(prefix, calls, Feed(ItemDone(i, item)));
    DoneForgets(prefix, s, i, item);
    LastPush(prefix, calls + [Feed(ItemDone(i, item))], Feed(SummaryDelta(i, delta)));
    FreshDelta(prefix, Push(prefix, s, ItemDone(i, item)), i, delta);
  }

  /** More was sent, and last of all a thinking block was opened with the text. */
  predicate ThinkingSent(before: seq<Sent>, after: seq<Sent>, text: string) {
    var n := |after| - 2;
    && |before| <= n && before <= after
    && after[n].wire.BlockStart? && after[n].wire.head == ThinkingHead
    && after[n + 1].wire == BlockDelta(after[n].wire.index, ThinkingD(text))
  }

  /** Nothing is queued, and nothing keeps the item's next delta waiting. */
  predicate Renewed(s: State, i: int) {
    Is(s, i, Thinking) && s.deferred == [] && !Uninterruptible(s) && !s.blocks[i].live && s.blocks[i].pending == ""
  }

  lemma DoneForgets(prefix: string, s: State, i: int, item: Item)
    requires Is(s, i, Thinking) && s.deferred == [] && !ShouldDefer(s, ItemDone(i, item))
    ensures Renewed(Push(prefix, s, ItemDone(i, item)), i)
  {
    hide Blob, OnItemDone;
    var e := ItemDone(i, item);
    DoneRenews(prefix, s.(handled := s.handled + [e]), i, item);
  }

  lemma DoneRenews(prefix: string, s: State, i: int, item: Item)
    requires Is(s, i, Thinking) && s.deferred == [] && (Uninterruptible(s) ==> s.open == Some(i))
    ensures Renewed(OnItemDone(prefix, s, i, item), i)
  {
    hide Blob, ThinkingDone;
    BlockDone(s, i, Blob(prefix, item));
  }

  lemma BlockDone(s: State, i: int, blob: string)
    requires Is(s, i, Thinking) && (Uninterruptible(s) ==> s.open == Some(i))
    ensures var t := ThinkingDone(s, i, blob);
            && Is(t, i, Thinking) && !t.blocks[i].live && t.deferred == s.deferred
            && (Uninterruptible(t) ==> t.open == Some(i))
  {
    hide CloseOther;
    OthersClosed(s, i);
  }

  lemma FreshDelta(prefix: string, s: State, i: int, delta: string)
    requires Renewed(s, i) && !Blank(delta)
    ensures ThinkingSent(s.sent, Push(prefix, s, SummaryDelta(i, delta)).sent, delta)
  {
    hide Blank;
    assert "" + delta == delta;
  }
}
