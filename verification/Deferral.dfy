/** The deferred queue: nothing is lost, duplicated or reordered within an item, and the queue is
    empty when the stream ends if every item was done before. */
module Deferral {
  import opened Protocol
  import opened Translation
  import opened Bracketing

  /** The item an event belongs to; events that are never deferred belong to none. */
  function KeyOf(e: Upstream): Option<int> {
    if Deferrable(e) then Some(e.index) else None
  }

  /** The events of one item, in order. */
  function Of(events: seq<Upstream>, key: Option<int>): seq<Upstream> {
    if events == [] then []
    else
      var e := events[|events| - 1];
      var before := Of(events[..|events| - 1], key);
      if KeyOf(e) == key then before + [e] else before
  }

  lemma OfSnoc(events: seq<Upstream>, e: Upstream, key: Option<int>)
    ensures Of(events + [e], key) == if KeyOf(e) == key then Of(events, key) + [e] else Of(events, key)
  {
    assert (events + [e])[..|events|] == events;
  }

  lemma {:induction false} OfAppend(a: seq<Upstream>, b: seq<Upstream>, key: Option<int>)
    ensures Of(a + b, key) == Of(a, key) + Of(b, key)
  {
    if b == [] {
      assert a + b == a;
    } else {
      OfAppend(a, b[..|b| - 1], key);
      assert (a + b)[..|a + b| - 1] == a + b[..|b| - 1];
    }
  }

  lemma {:induction false} OfNone(events: seq<Upstream>, key: Option<int>)
    requires forall e <- events :: KeyOf(e) != key
    ensures Of(events, key) == []
  {
    if events != [] {
      OfNone(events[..|events| - 1], key);
    }
  }

  lemma {:induction false} OfMultiset(events: seq<Upstream>, e: Upstream)
    ensures multiset(events)[e] == multiset(Of(events, KeyOf(e)))[e]
  {
    if events != [] {
      var last := events[|events| - 1];
      OfMultiset(events[..|events| - 1], e);
      assert events == events[..|events| - 1] + [last];
    }
  }

  /** Taking out an event before which the queue holds none of the same item keeps every item's order. */
  lemma OfTakenOut(queue: seq<Upstream>, n: nat, key: Option<int>)
    requires n < |queue| && forall i | 0 <= i < n :: KeyOf(queue[i]) != KeyOf(queue[n])
    ensures Of(queue, key) == Of([queue[n]], key) + Of(queue[..n] + queue[n + 1..], key)
  {
    var a, e, b := queue[..n], queue[n], queue[n + 1..];
    assert queue == a + ([e] + b);
    OfAppend(a, [e] + b, key);
    OfAppend([e], b, key);
    OfAppend(a, b, key);
    if KeyOf(e) == key {
      OfNone(a, key);
    } else {
      OfNone([e], key);
    }
  }

  lemma MovedInOrder(handled: seq<Upstream>, queue: seq<Upstream>, n: nat, key: Option<int>)
    requires n < |queue| && forall i | 0 <= i < n :: KeyOf(queue[i]) != KeyOf(queue[n])
    ensures Of(handled + [queue[n]], key) + Of(queue[..n] + queue[n + 1..], key) == Of(handled, key) + Of(queue, key)
  {
    OfTakenOut(queue, n, key);
    OfAppend(handled, [queue[n]], key);
  }

  // ---- conservation ------------------------------------------------------------------------

  /** A non-empty queue means an uninterruptible item is open, and no queued event is its own. */
  predicate Waiting(s: State) {
    forall d <- s.deferred :: ShouldDefer(s, d)
  }

  function Received(calls: seq<Call>): seq<Upstream> {
    if calls == [] then []
    else
      var c := calls[|calls| - 1];
      Received(calls[..|calls| - 1]) + if c.Feed? then [c.event] else []
  }

  /** What is known of an item: its handled events, then its waiting ones. */
  function Known(s: State, key: Option<int>): seq<Upstream> {
    Of(s.handled, key) + Of(s.deferred, key)
  }

  /** The event handled out of turn belongs to the open item, those it overtakes do not. */
  lemma ReadyOvertakesNoSibling(s: State)
    requires forall d <- s.deferred :: Deferrable(d)
    ensures var n := FirstReady(s, s.deferred);
            n < |s.deferred| ==> forall i | 0 <= i < n :: KeyOf(s.deferred[i]) != KeyOf(s.deferred[n])
  {
    var n := FirstReady(s, s.deferred);
    if n < |s.deferred| {
      forall i | 0 <= i < n
        ensures KeyOf(s.deferred[i]) != KeyOf(s.deferred[n])
      {
        assert ShouldDefer(s, s.deferred[i]) && !ShouldDefer(s, s.deferred[n]);
      }
    }
  }

  lemma {:induction false} DrainConserves(prefix: string, s: State, key: Option<int>)
    requires forall d <- s.deferred :: Deferrable(d)
    ensures Known(Drain(prefix, s), key) == Known(s, key)
    ensures Waiting(Drain(prefix, s))
    decreases |s.deferred|
  {
    var n := FirstReady(s, s.deferred);
    if n < |s.deferred| {
      ReadyOvertakesNoSibling(s);
      MovedInOrder(s.handled, s.deferred, n, key);
      DrainConserves(prefix, HandleOpen(prefix, TakeOut(s, n), s.deferred[n]), key);
    }
  }

  lemma StillWaiting(s: State, queue: seq<Upstream>)
    requires forall d <- queue :: ShouldDefer(s, d)
    ensures Waiting(s.(deferred := queue))
  {
    forall d <- queue
      ensures ShouldDefer(s.(deferred := queue), d)
    {
      assert ShouldDefer(s, d);
    }
  }

  /** A forced end hands over the whole queue, after the event that ends the stream. */
  lemma EndHandles(prefix: string, s: State, e: Upstream)
    requires e.Completed? || e.Failed?
    ensures var t := Handle(prefix, s, e);
            if s.finished then t == s.(handled := s.handled + [e])
            else t.finished && t.deferred == [] && t.handled == s.handled + [e] + s.deferred && t.open == None
  {
    if !s.finished {
      var h := s.(handled := s.handled + [e]);
      var b := if e.Completed? then EnsureStart(h) else h;
      ForceDrainKeeps(prefix, b);
      StopAllKeeps(ForceDrain(prefix, b), 0);
    }
  }

  lemma {:induction false} StopAllKeeps(s: State, n: nat)
    ensures Keeps(s, StopAll(s, n))
    decreases |s.order| - n
  {
    if n < |s.order| {
      var k := s.order[n];
      if k in s.blocks && s.blocks[k].live && s.blocks[k].index >= 0 {
        StopAllKeeps(StopBlock(s, k), n + 1);
      } else {
        StopAllKeeps(s, n + 1);
      }
    }
  }

  lemma EndConserves(s: State, t: State, ended: seq<Upstream>, key: Option<int>)
    requires Consistent(s) && forall e <- ended :: !Deferrable(e)
    requires t.handled == s.handled + ended + s.deferred && t.deferred == []
    ensures Known(t, key) == Known(s, key) + Of(ended, key)
  {
    OfAppend(s.handled + ended, s.deferred, key);
    OfAppend(s.handled, ended, key);
    if key.Some? {
      OfNone(ended, key);
    } else {
      OfNone(s.deferred, key);
    }
  }

  lemma HandleConserves(prefix: string, s: State, e: Upstream, key: Option<int>)
    requires Good(s) && Waiting(s) && !ShouldDefer(s, e)
    ensures Known(Handle(prefix, s, e), key) == Known(s, key) + Of([e], key)
  {
    if (e.Completed? || e.Failed?) && !s.finished {
      EndHandles(prefix, s, e);
      EndConserves(s, Handle(prefix, s, e), [e], key);
    } else {
      if e.Completed? || e.Failed? {
        EndHandles(prefix, s, e);
      }
      KnownSnoc(s, Handle(prefix, s, e), e, key);
    }
  }

  lemma KnownSnoc(s: State, t: State, e: Upstream, key: Option<int>)
    requires Good(s) && Waiting(s) && !ShouldDefer(s, e)
    requires t.handled == s.handled + [e] && t.deferred == s.deferred
    ensures Known(t, key) == Known(s, key) + Of([e], key)
  {
    OfAppend(s.handled, [e], key);
    if KeyOf(e) == key {
      OfNone(s.deferred, key);
    }
  }

  lemma HandleDeferrable(prefix: string, s: State, e: Upstream)
    requires Good(s)
    ensures forall d <- Handle(prefix, s, e).deferred :: Deferrable(d)
  {
    if e.Completed? || e.Failed? {
      EndHandles(prefix, s, e);
    }
  }

  lemma PushConserves(prefix: string, s: State, e: Upstream, key: Option<int>)
    requires Good(s) && Waiting(s)
    ensures Known(Push(prefix, s, e), key) == Known(s, key) + Of([e], key)
    ensures Waiting(Push(prefix, s, e))
  {
    if ShouldDefer(s, e) {
      OfAppend(s.deferred, [e], key);
      StillWaiting(s, s.deferred + [e]);
    } else {
      var h := Handle(prefix, s, e);
      HandleConserves(prefix, s, e, key);
      HandleDeferrable(prefix, s, e);
      DrainConserves(prefix, h, key);
    }
  }

  lemma AbortConserves(prefix: string, s: State, message: string, key: Option<int>)
    requires Good(s) && Waiting(s)
    ensures Known(Fail(prefix, s, message), key) == Known(s, key)
    ensures Waiting(Fail(prefix, s, message))
  {
    if !s.finished {
      ForceDrainKeeps(prefix, s);
      StopAllKeeps(ForceDrain(prefix, s), 0);
      EndConserves(s, Fail(prefix, s, message), [], key);
    }
  }

  /** The deferred-queue theorem, for every sequence of calls and every item: the item's handled
      events followed by its waiting ones are its received events in order of arrival, and the
      queue only holds events that the open uninterruptible item keeps waiting. */
  lemma {:induction false} RunConserves(prefix: string, calls: seq<Call>, key: Option<int>)
    ensures Known(Run(prefix, calls), key) == Of(Received(calls), key)
    ensures Waiting(Run(prefix, calls))
  {
    if calls != [] {
      var before := calls[..|calls| - 1];
      RunConserves(prefix, before, key);
      RunIsBracketed(prefix, before);
      match calls[|calls| - 1]
      case Feed(e) =>
        PushConserves(prefix, Run(prefix, before), e, key);
        OfAppend(Received(before), [e], key);
      case Abort(message) =>
        AbortConserves(prefix, Run(prefix, before), message, key);
        assert Received(before) + [] == Received(before);
    }
  }

  /** No event is lost or handled twice. */
  lemma HandledOnce(prefix: string, calls: seq<Call>)
    ensures var s := Run(prefix, calls);
            multiset(s.handled) + multiset(s.deferred) == multiset(Received(calls))
  {
    hide Run, Received;
    var s := Run(prefix, calls);
    forall e: Upstream
      ensures (multiset(s.handled) + multiset(s.deferred))[e] == multiset(Received(calls))[e]
    {
      RunConserves(prefix, calls, KeyOf(e));
      OfMultiset(s.handled, e);
      OfMultiset(s.deferred, e);
      OfMultiset(Received(calls), e);
    }
  }

  // ---- the queue at the end ------------------------------------------------------------------

  /** The open item has handled an event, and its last one was not its item.done. */
  predicate OpenUnfinished(s: State) {
    s.open.Some? ==>
      var own := Of(s.handled, s.open);
      own != [] && !own[|own| - 1].ItemDone?
  }

  lemma DeltaOpens(s: State, i: int, delta: string)
    ensures var t := OnTextDelta(s, i, delta); t.open.Some? ==> t.open == s.open || t.open == Some(i)
    ensures var t := OnSummaryDelta(s, i, delta); t.open.Some? ==> t.open == s.open || t.open == Some(i)
  {
  }

  lemma DoneCloses(prefix: string, s: State, i: int, item: Item)
    requires Consistent(s)
    ensures var t := OnItemDone(prefix, s, i, item); t.open != Some(i) && (t.open.Some? ==> t.open == s.open)
  {
    hide Blob;
  }

  /** Handling an event opens its own item or none, and item.done never leaves its item open. */
  lemma HandleOpenOpens(prefix: string, s: State, e: Upstream)
    requires Consistent(s)
    ensures var t := HandleOpen(prefix, s, e);
            && (t.open.Some? ==> t.open == s.open || t.open == KeyOf(e))
            && (e.ItemDone? ==> t.open != Some(e.index))
  {
    hide OnTextDelta, OnSummaryDelta, OnItemDone;
    var h := s.(handled := s.handled + [e]);
    match e
    case TextDelta(i, d) => DeltaOpens(h, i, d);
    case SummaryDelta(i, d) => DeltaOpens(h, i, d);
    case ItemDone(i, item) => DoneCloses(prefix, h, i, item);
    case _ =>
  }

  lemma HandleOpenUnfinished(prefix: string, s: State, e: Upstream)
    requires Consistent(s) && OpenUnfinished(s)
    ensures OpenUnfinished(HandleOpen(prefix, s, e))
  {
    HandleOpenOpens(prefix, s, e);
    OfSnoc(s.handled, e, HandleOpen(prefix, s, e).open);
  }

  lemma {:induction false} DrainUnfinished(prefix: string, s: State)
    requires Good(s) && OpenUnfinished(s)
    ensures OpenUnfinished(Drain(prefix, s))
    decreases |s.deferred|
  {
    var n := FirstReady(s, s.deferred);
    if n < |s.deferred| {
      var p := TakeOut(s, n);
      TakeOutGood(s, n);
      HandleOpenGood(prefix, p, s.deferred[n]);
      HandleOpenUnfinished(prefix, p, s.deferred[n]);
      DrainUnfinished(prefix, HandleOpen(prefix, p, s.deferred[n]));
    }
  }

  lemma ApplyUnfinished(prefix: string, s: State, c: Call)
    requires Good(s) && OpenUnfinished(s)
    ensures OpenUnfinished(Apply(prefix, s, c))
  {
    match c
    case Abort(_) =>
    case Feed(e) =>
      if !ShouldDefer(s, e) {
        var h := Handle(prefix, s, e);
        HandleGood(prefix, s, e);
        if e.Completed? || e.Failed? {
          EndHandles(prefix, s, e);
          if s.open.Some? {
            OfSnoc(s.handled, e, s.open);
          }
        } else {
          HandleOpenUnfinished(prefix, s, e);
        }
        DrainUnfinished(prefix, h);
      }
  }

  lemma {:induction false} RunUnfinished(prefix: string, calls: seq<Call>)
    ensures OpenUnfinished(Run(prefix, calls))
  {
    if calls != [] {
      RunIsBracketed(prefix, calls[..|calls| - 1]);
      RunUnfinished(prefix, calls[..|calls| - 1]);
      ApplyUnfinished(prefix, Run(prefix, calls[..|calls| - 1]), calls[|calls| - 1]);
    }
  }
}
