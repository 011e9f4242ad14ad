/** What the translator says at the end of a stream, read off the trace alone: why a message stopped,
    and what a failure is reported as. */
module Endings {
  import opened Protocol
  import opened Translation
  import opened Bracketing

  /** The trace starts a tool_use block. */
  ghost predicate StartsTool(trace: seq<Sent>) {
    exists k | 0 <= k < |trace| :: trace[k].wire.BlockStart? && trace[k].wire.head.ToolHead?
  }

  lemma StartsToolSnoc(trace: seq<Sent>, x: Sent)
    ensures StartsTool(trace + [x]) <==> StartsTool(trace) || (x.wire.BlockStart? && x.wire.head.ToolHead?)
  {
    var longer := trace + [x];
    if k :| 0 <= k < |trace| && trace[k].wire.BlockStart? && trace[k].wire.head.ToolHead? {
      assert longer[k] == trace[k];
    }
    assert longer[|trace|] == x;
  }

  lemma {:induction false} ToolsRead(trace: seq<Sent>, r: Reader)
    requires Read(trace) == Some(r)
    ensures r.tools <==> StartsTool(trace)
  {
    if trace != [] {
      var before, x := trace[..|trace| - 1], trace[|trace| - 1];
      ToolsRead(before, Read(before).value);
      StartsToolSnoc(before, x);
      assert before + [x] == trace;
    }
  }

  /** What is sent up to the closing of the last block, on the way to the end. */
  lemma ClosedGood(prefix: string, s: State)
    requires Good(s) && s.started
    ensures var c := CloseAll(ForceDrain(prefix, s));
            Good(c) && (c.hasToolUse <==> StartsTool(c.sent)) && s.sent <= c.sent
  {
    hide ForceDrain, CloseAll, Good;
    ForceDrainGood(prefix, s);
    CloseAllGood(ForceDrain(prefix, s));
    ToolsTold(CloseAll(ForceDrain(prefix, s)));
    ForceDrainSent(prefix, s);
    CloseAllSent(ForceDrain(prefix, s));
  }

  lemma ToolsTold(s: State)
    requires Good(s)
    ensures s.hasToolUse <==> StartsTool(s.sent)
  {
    ToolsRead(s.sent, ReaderOf(s));
  }

  lemma {:induction false} ForceDrainSent(prefix: string, s: State)
    ensures s.sent <= ForceDrain(prefix, s).sent
    decreases |s.deferred|
  {
    hide HandleOpen;
    if s.deferred != [] {
      var t := s.(deferred := s.deferred[1..]);
      HandledSent(prefix, t, s.deferred[0]);
      ForceDrainSent(prefix, HandleOpen(prefix, t, s.deferred[0]));
    }
  }

  lemma CloseAllSent(s: State)
    requires Good(s)
    ensures s.sent <= CloseAll(s).sent
  {
    hide Read;
    CloseAllStopsTheOpenBlock(s);
  }

  /** Why the message stopped. A completed response ends the stream with message_delta and
      message_stop; the reason is max_tokens exactly if the response was cut at its output limit, and
      otherwise tool_use exactly if a tool_use block was started, else end_turn. */
  lemma CompletionSays(prefix: string, calls: seq<Call>, ending: Ending)
    requires !Run(prefix, calls).finished
    ensures var sent := Run(prefix, calls + [Feed(Completed(ending))]).sent;
            var n := |sent| - 2;
            var cut := ending.incomplete && ending.maxTokens;
            && 0 <= n && Run(prefix, calls).sent <= sent[..n]
            && sent[n].wire.MessageDelta? && sent[n + 1].wire == MessageStop
            && (sent[n].wire.stopReason == MaxTokens <==> cut)
            && (sent[n].wire.stopReason == ToolUse <==> !cut && StartsTool(sent[..n]))
            && (sent[n].wire.stopReason == EndTurn <==> !cut && !StartsTool(sent[..n]))
  {
    hide Run, RunFrom, ForceDrain, CloseAll, Good, Drain, StartsTool;
    var s, e := Run(prefix, calls), Completed(ending);
    RunIsBracketed(prefix, calls);
    RunSnoc(prefix, INITIAL, calls, Feed(e));
    var h := s.(handled := s.handled + [e]);
    NotedGood(s, e);
    CompletedAtRest(prefix, h, ending);
    RestIsDrained(prefix, OnCompleted(prefix, h, ending));
    LastCall(prefix, calls, Feed(e));
    CompletedSays(prefix, h, ending);
  }

  lemma LastCall(prefix: string, calls: seq<Call>, c: Call)
    ensures Run(prefix, calls + [c]) == Apply(prefix, Run(prefix, calls), c)
  {
    RunSnoc(prefix, INITIAL, calls, c);
  }

  lemma CompletedSays(prefix: string, s: State, ending: Ending)
    requires Good(s) && !s.finished
    ensures var sent := OnCompleted(prefix, s, ending).sent;
            var n := |sent| - 2;
            var cut := ending.incomplete && ending.maxTokens;
            && 0 <= n && s.sent <= sent[..n]
            && sent[n].wire.MessageDelta? && sent[n + 1].wire == MessageStop
            && (sent[n].wire.stopReason == MaxTokens <==> cut)
            && (sent[n].wire.stopReason == ToolUse <==> !cut && StartsTool(sent[..n]))
            && (sent[n].wire.stopReason == EndTurn <==> !cut && !StartsTool(sent[..n]))
  {
    hide ForceDrain, CloseAll, Good, StartsTool;
    EnsureStartGood(s);
    ClosedGood(prefix, EnsureStart(s));
    var c := CloseAll(ForceDrain(prefix, EnsureStart(s)));
    var sent := OnCompleted(prefix, s, ending).sent;
    assert sent[..|sent| - 2] == c.sent;
  }

  /** A failure, reported by the upstream or by the caller, ends the stream with one error event that
      carries its message. */
  lemma FailureSays(prefix: string, calls: seq<Call>, c: Call, message: string)
    requires !Run(prefix, calls).finished && (c == Abort(message) || c == Feed(Failed(message)))
    ensures var sent := Run(prefix, calls + [c]).sent;
            && sent != [] && Run(prefix, calls).sent <= sent[..|sent| - 1]
            && sent[|sent| - 1] == Sent(None, ErrorEvent(message))
  {
    hide Run, RunFrom, ForceDrain, CloseAll, Good, Drain;
    var s := Run(prefix, calls);
    RunIsBracketed(prefix, calls);
    LastCall(prefix, calls, c);
    if c.Feed? {
      NotedGood(s, c.event);
      FailSays(prefix, s.(handled := s.handled + [c.event]), message);
      FailAtRest(prefix, s.(handled := s.handled + [c.event]), message);
      RestIsDrained(prefix, Fail(prefix, s.(handled := s.handled + [c.event]), message));
    } else {
      FailSays(prefix, s, message);
    }
  }

  lemma FailSays(prefix: string, s: State, message: string)
    requires Good(s) && !s.finished
    ensures var sent := Fail(prefix, s, message).sent;
            sent != [] && s.sent <= sent[..|sent| - 1] && sent[|sent| - 1] == Sent(None, ErrorEvent(message))
  {
    hide ForceDrain, CloseAll, Good;
    ForceDrainGood(prefix, s);
    ForceDrainSent(prefix, s);
    CloseAllSent(ForceDrain(prefix, s));
    var c := CloseAll(ForceDrain(prefix, s));
    var sent := Fail(prefix, s, message).sent;
    assert sent[..|sent| - 1] == c.sent;
  }
}
