/** handler.ts: the streaming line loop that feeds the translator, how it ends the stream, and the
    whole-body SSE splitter of the non-streaming path. */
module EventStreams {
  import opened JsText
  import opened Protocol
  import opened Bytes
  import opened Translation
  import opened Bracketing
  import opened JsonBodies
  import opened SseTranslators

  // ---- one line --------------------------------------------------------------------------------

  const FIELD := "data:"
  const DONE := "[DONE]"

  /** The payload of a line, if it is a data line with one. */
  function Payload(line: string): Option<string> {
    if !(FIELD <= line) then None else
    var payload := Trim(line[5..]);
    if payload == "" || payload == DONE then None else Some(payload)
  }

  /** `line.replace(/\r$/, '')` */
  function StripCr(line: string): string {
    if line != "" && line[|line| - 1] == '\r' then line[..|line| - 1] else line
  }

  /** A trailing carriage return or newline never changes what a line says. */
  lemma PayloadIgnoresLineEnd(line: string, c: char)
    requires c == '\r' || c == '\n'
    ensures Payload(line + [c]) == Payload(line)
  {
    assert |line| >= 5 ==> (line + [c])[..5] == line[..5];
    assert |line| == 4 ==> (line + [c])[4] == c;
    if FIELD <= line {
      assert (line + [c])[5..] == line[5..] + [c];
      TrimSpaceAfter(line[5..], c);
    }
  }

  lemma PayloadIgnoresCr(line: string)
    ensures Payload(StripCr(line)) == Payload(line)
  {
    if line != "" && line[|line| - 1] == '\r' {
      PayloadIgnoresLineEnd(StripCr(line), '\r');
      assert StripCr(line) + ['\r'] == line;
    }
  }

  function PayloadsOf(lines: seq<string>): seq<string> {
    if lines == [] then []
    else
      var before := PayloadsOf(lines[..|lines| - 1]);
      match Payload(lines[|lines| - 1])
      case Some(p) => before + [p]
      case None => before
  }

  lemma PayloadsSnoc(lines: seq<string>, line: string)
    ensures PayloadsOf(lines + [line]) == PayloadsOf(lines) + if Payload(line).Some? then [Payload(line).value] else []
  {
    assert (lines + [line])[..|lines|] == lines;
  }

  lemma {:induction false} PayloadsAppend(a: seq<string>, b: seq<string>)
    ensures PayloadsOf(a + b) == PayloadsOf(a) + PayloadsOf(b)
  {
    if b == [] {
      assert a + b == a;
    } else {
      PayloadsAppend(a, b[..|b| - 1]);
      assert (a + b)[..|a + b| - 1] == a + b[..|b| - 1];
    }
  }

  /** The events behind the payloads; what `JSON.parse` rejects is skipped. */
  function Events(parse: string -> Option<Upstream>, payloads: seq<string>): seq<Upstream> {
    if payloads == [] then []
    else
      var before := Events(parse, payloads[..|payloads| - 1]);
      match parse(payloads[|payloads| - 1])
      case Some(e) => before + [e]
      case None => before
  }

  lemma {:induction false} EventsAppend(parse: string -> Option<Upstream>, a: seq<string>, b: seq<string>)
    ensures Events(parse, a + b) == Events(parse, a) + Events(parse, b)
  {
    if b == [] {
      assert a + b == a;
    } else {
      EventsAppend(parse, a, b[..|b| - 1]);
      assert (a + b)[..|a + b| - 1] == a + b[..|b| - 1];
    }
  }

  // ---- the loop ----------------------------------------------------------------------------------

  /** Between two reads: the unfinished line and the translator. */
  datatype Loop = Loop(buf: string, translator: State)

  function LineEvents(parse: string -> Option<Upstream>, text: string): seq<Upstream> {
    Events(parse, PayloadsOf(Lines('\n', text)))
  }

  function OnText(parse: string -> Option<Upstream>, prefix: string, l: Loop, chunk: string): Loop {
    Loop(Rest('\n', l.buf + chunk), RunFrom(prefix, l.translator, Feeds(LineEvents(parse, l.buf + chunk))))
  }

  function OnTexts(parse: string -> Option<Upstream>, prefix: string, chunks: seq<string>): Loop {
    if chunks == [] then Loop("", INITIAL)
    else OnText(parse, prefix, OnTexts(parse, prefix, chunks[..|chunks| - 1]), chunks[|chunks| - 1])
  }

  lemma LineEventsAppend(parse: string -> Option<Upstream>, a: string, b: string)
    ensures LineEvents(parse, a + b) == LineEvents(parse, a) + LineEvents(parse, Rest('\n', a) + b)
  {
    CutAnywhere('\n', a, b);
    PayloadsAppend(Lines('\n', a), Lines('\n', Rest('\n', a) + b));
    EventsAppend(parse, PayloadsOf(Lines('\n', a)), PayloadsOf(Lines('\n', Rest('\n', a) + b)));
  }

  /** The loop feeds the translator the events of the body's terminated lines, however the decoded
      body is cut into chunks; an unterminated last line is never processed. */
  lemma {:induction false} ReadsDoNotMatter(parse: string -> Option<Upstream>, prefix: string, chunks: seq<string>)
    ensures OnTexts(parse, prefix, chunks)
         == Loop(Rest('\n', Concat(chunks)), Run(prefix, Feeds(LineEvents(parse, Concat(chunks)))))
  {
    if chunks == [] {
      assert Feeds([]) == [];
    } else {
      var before, chunk := chunks[..|chunks| - 1], chunks[|chunks| - 1];
      ReadsDoNotMatter(parse, prefix, before);
      var rest := Rest('\n', Concat(before));
      CutAnywhere('\n', Concat(before), chunk);
      LineEventsAppend(parse, Concat(before), chunk);
      FedAppend(prefix, INITIAL, LineEvents(parse, Concat(before)), LineEvents(parse, rest + chunk));
    }
  }

  // ---- how the stream ends -------------------------------------------------------------------------

  const NO_EVENTS := "upstream produced no translatable SSE events"

  /** `finalizeStream`: everything the client has been sent after a clean end of the upstream. */
  function AfterCleanEnd(prefix: string, s: State): seq<Sent> {
    if s.sent == [] then [Sent(None, ErrorEvent(NO_EVENTS))] else Translation.Fail(prefix, s, TRUNCATED).sent
  }

  /** The same after a read error. */
  function AfterBrokenEnd(prefix: string, s: State, message: string): seq<Sent> {
    Translation.Fail(prefix, s, message).sent
  }

  /** Whatever the upstream sent and however the body ended, the client gets a well-bracketed
      stream with exactly one terminal event and no block left open. */
  lemma AlwaysEndsOnce(prefix: string, calls: seq<Call>, message: string)
    ensures var s := Run(prefix, calls);
            EndsOnce(s, AfterCleanEnd(prefix, s)) && EndsOnce(s, AfterBrokenEnd(prefix, s, message))
  {
    hide Read, Run;
    var s := Run(prefix, calls);
    RunIsBracketed(prefix, calls);
    EndedOnce(prefix, s, message);
    EndedOnce(prefix, s, TRUNCATED);
    if s.sent == [] {
      NothingSent(s);
    }
  }

  /** A complete stream after s: well bracketed, one terminal event, and nothing left open by it. */
  predicate EndsOnce(s: State, out: seq<Sent>) {
    Read(out).Some? && Count(out, Terminal) == 1 && s.sent <= out && (!s.finished ==> Read(out).value.open.None?)
  }

  lemma NothingSent(s: State)
    requires s.sent == []
    ensures EndsOnce(s, [Sent(None, ErrorEvent(NO_EVENTS))])
  {
    var out := [Sent(None, ErrorEvent(NO_EVENTS))];
    assert out[..0] == [] && Read([]) == Some(FRESH);
    AcceptedCounts(out, FRESH.(ended := true));
  }

  lemma EndedOnce(prefix: string, s: State, message: string)
    requires Good(s)
    ensures EndsOnce(s, Translation.Fail(prefix, s, message).sent)
  {
    hide Read, Translation.Fail;
    var t := Translation.Fail(prefix, s, message);
    FailGood(prefix, s, message);
    FailEnds(prefix, s, message);
    AcceptedCounts(t.sent, ReaderOf(t));
  }

  /** Nothing that was sent is taken back. */
  predicate Grows(s: State, t: State) {
    s.sent <= t.sent
  }

  lemma OpenWithGrows(s: State, i: int, head: Head, delta: Delta)
    requires i in s.blocks
    ensures Grows(s, OpenWith(s, i, head, delta))
  {
  }

  lemma TextGrows(s: State, i: int, delta: string)
    ensures Grows(s, OnTextDelta(s, i, delta))
  {
    if Is(s, i, Text) && !s.blocks[i].live && !Blank(s.blocks[i].pending + delta) {
      OpenWithGrows(CloseOther(s, i), i, TextHead, TextD(s.blocks[i].pending + delta));
    }
  }

  lemma SummaryGrows(s: State, i: int, delta: string)
    ensures Grows(s, OnSummaryDelta(s, i, delta))
  {
    if Is(s, i, Thinking) && !s.blocks[i].live && !Blank(s.blocks[i].pending + delta) {
      OpenWithGrows(CloseOther(s, i).(open := Some(i)), i, ThinkingHead, ThinkingD(s.blocks[i].pending + delta));
    }
  }

  lemma AddedGrows(s: State, i: int, item: Item)
    ensures Grows(s, OnItemAdded(EnsureStart(s), i, item))
  {
    assert Grows(s, EnsureStart(s));
    assert Grows(EnsureStart(s), CloseOther(EnsureStart(s), i));
  }

  lemma CloseOtherGrows(s: State, i: int)
    ensures Grows(s, CloseOther(s, i)) && (i in s.blocks ==> i in CloseOther(s, i).blocks)
  {
  }

  lemma SealedGrows(s: State, i: int, blob: string)
    requires i in s.blocks
    ensures Grows(s, SendSealed(s, i, blob)) && i in SendSealed(s, i, blob).blocks
  {
  }

  lemma ThinkingDoneGrows(s: State, i: int, blob: string)
    requires i in s.blocks
    ensures Grows(s, Settle(ThinkingDone(s, i, blob), i))
  {
    hide SendSealed, CloseOther;
    CloseOtherGrows(s, i);
    SealedGrows(CloseOther(s, i), i, blob);
    Growing(s, CloseOther(s, i), SendSealed(CloseOther(s, i), i, blob));
    assert Grows(s, ThinkingDone(s, i, blob));
  }

  lemma DoneGrows(prefix: string, s: State, i: int, item: Item)
    ensures Grows(s, OnItemDone(prefix, s, i, item))
  {
    if i in s.blocks {
      ThinkingDoneGrows(s, i, Blob(prefix, item));
      assert Grows(s, SendMissingArgs(s, i, item));
      assert Grows(SendMissingArgs(s, i, item), FinishBlock(s, i, item));
    }
  }

  lemma HandleOpenGrows(prefix: string, s: State, e: Upstream)
    ensures Grows(s, HandleOpen(prefix, s, e))
  {
    var h := s.(handled := s.handled + [e]);
    match e
    case ItemAdded(i, item) => AddedGrows(h, i, item);
    case TextDelta(i, d) => TextGrows(h, i, d);
    case SummaryDelta(i, d) => SummaryGrows(h, i, d);
    case ArgsDelta(i, d) => assert Grows(h, OnArgsDelta(h, i, d));
    case ItemDone(i, item) => DoneGrows(prefix, h, i, item);
    case _ =>
  }

  lemma {:induction false} ForceDrainGrows(prefix: string, s: State)
    ensures Grows(s, ForceDrain(prefix, s))
    decreases |s.deferred|
  {
    if s.deferred != [] {
      var p := s.(deferred := s.deferred[1..]);
      var t := HandleOpen(prefix, p, s.deferred[0]);
      HandleOpenGrows(prefix, p, s.deferred[0]);
      ForceDrainGrows(prefix, t);
      Growing(s, t, ForceDrain(prefix, t));
    }
  }

  lemma Growing(a: State, b: State, c: State)
    requires Grows(a, b) && Grows(b, c)
    ensures Grows(a, c)
  {
  }

  lemma FailEnds(prefix: string, s: State, message: string)
    requires Good(s)
    ensures var t := Translation.Fail(prefix, s, message);
            t.finished && s.sent <= t.sent && (!s.finished ==> ReaderOf(t).open.None?)
  {
    if !s.finished {
      var d := ForceDrain(prefix, s);
      ForceDrainGrows(prefix, s);
      ForceDrainGood(prefix, s);
      CloseAllGood(d);
      CloseAllStopsTheOpenBlock(d);
    }
  }

  // ---- the handler's loop -----------------------------------------------------------------------

  /** One line of the loop, with or without its line end. */
  function TakeLine(parse: string -> Option<Upstream>, prefix: string, s: State, line: string): State {
    match Payload(line)
    case None => s
    case Some(p) =>
      match parse(p)
      case None => s
      case Some(e) => Push(prefix, s, e)
  }

  function TakeLines(parse: string -> Option<Upstream>, prefix: string, s: State, lines: seq<string>): State {
    if lines == [] then s
    else TakeLine(parse, prefix, TakeLines(parse, prefix, s, lines[..|lines| - 1]), lines[|lines| - 1])
  }

  lemma TakeLinesSnoc(parse: string -> Option<Upstream>, prefix: string, s: State, lines: seq<string>, line: string)
    ensures TakeLines(parse, prefix, s, lines + [line])
            == TakeLine(parse, prefix, TakeLines(parse, prefix, s, lines), line)
  {
    assert (lines + [line])[..|lines|] == lines;
  }

  /** The scan of text has come to `start`: the lines before are `done` and led from s to now. */
  ghost predicate Handled(parse: string -> Option<Upstream>, prefix: string, s: State, text: string, start: nat,
      done: seq<string>, now: State)
  {
    Scanned('\n', text, start, done) && now == TakeLines(parse, prefix, s, done)
  }

  lemma HandledNothing(parse: string -> Option<Upstream>, prefix: string, s: State, text: string)
    ensures Handled(parse, prefix, s, text, 0, [], s)
  {
    ScanStarts('\n', text);
  }

  lemma HandledOneMore(parse: string -> Option<Upstream>, prefix: string, s: State, text: string, start: nat,
      done: seq<string>, now: State, nl: nat)
    requires Handled(parse, prefix, s, text, start, done, now) && nl == IndexOf(text, '\n', start) < |text|
    ensures Handled(parse, prefix, s, text, nl + 1, done + [text[start..nl + 1]],
                    TakeLine(parse, prefix, now, StripCr(text[start..nl])))
  {
    var line, full := text[start..nl], text[start..nl + 1];
    assert line + ['\n'] == full;
    PayloadIgnoresLineEnd(line, '\n');
    PayloadIgnoresCr(line);
    TakeLinesSnoc(parse, prefix, s, done, full);
    ScanAdvances('\n', text, start, nl, done);
  }

  /** Line by line the loop runs the translator on the events of the lines. */
  lemma {:induction false} LinesAreEvents(parse: string -> Option<Upstream>, prefix: string, s: State,
      lines: seq<string>)
    ensures TakeLines(parse, prefix, s, lines) == RunFrom(prefix, s, Feeds(Events(parse, PayloadsOf(lines))))
  {
    if lines == [] {
      assert Feeds([]) == [];
    } else {
      var most, line := lines[..|lines| - 1], lines[|lines| - 1];
      LinesAreEvents(parse, prefix, s, most);
      var payloads := PayloadsOf(most);
      match Payload(line)
      case None =>
      case Some(p) =>
        assert (payloads + [p])[..|payloads|] == payloads;
        match parse(p)
        case None =>
        case Some(e) => FedSnoc(prefix, s, Events(parse, payloads), e);
    }
  }

  lemma WrittenGrows(before: seq<Sent>, after: seq<Sent>)
    requires before <= after
    ensures Wires(after) == Wires(before) + Wires(after[|before|..])
  {
    assert after == before + after[|before|..];
    WiresAppend(before, after[|before|..]);
  }

  class StreamingResponse {
    const parse: string -> Option<Upstream>
    const translator: SseTranslator
    var buf: string
    var written: seq<Wire>

    ghost function Now(): Loop
      reads this, translator
    {
      Loop(buf, translator.Now())
    }

    /** The client has been sent exactly what the translator emitted. */
    ghost predicate InStep()
      reads this, translator
    {
      written == Wires(translator.sent)
    }

    constructor (parse: string -> Option<Upstream>, prefix: string)
      ensures InStep() && Now() == Loop("", INITIAL) && translator.signaturePrefix == prefix
      ensures this.parse == parse
    {
      this.parse := parse;
      translator := new SseTranslator(prefix);
      buf, written := "", [];
    }

    method WriteOut(out: seq<Wire>, ghost before: seq<Sent>)
      requires written == Wires(before) && translator.Emitted(before, out)
      modifies this`written
      ensures InStep()
    {
      WrittenGrows(before, translator.sent);
      written := written + out;
    }

    method HandleLine(line: string)
      requires InStep()
      modifies this`written, translator
      ensures InStep()
      ensures translator.Now() == TakeLine(parse, translator.signaturePrefix, old(translator.Now()), line)
    {
      if !(FIELD <= line) {
        return;
      }
      var payload := Trim(line[5..]);
      if payload == "" || payload == DONE {
        return;
      }
      var ev := parse(payload);
      if ev.Some? {
        ghost var before := translator.sent;
        var out := translator.Push(ev.value);
        WriteOut(out, before);
      }
    }

    /** The scan of the buffered text; returns what is left after its last newline. */
    method HandleLines(text: string) returns (rest: string)
      requires InStep()
      modifies this`written, translator
      ensures InStep() && rest == Rest('\n', text)
      ensures translator.Now() == TakeLines(parse, translator.signaturePrefix, old(translator.Now()), Lines('\n', text))
    {
      hide TakeLines, TakeLine, Lines, Rest;
      ghost var before, done := translator.Now(), [];
      var start := 0;
      var nl := IndexOf(text, '\n', start);
      HandledNothing(parse, translator.signaturePrefix, before, text);
      while nl < |text|
        invariant start <= |text| && nl == IndexOf(text, '\n', start) && InStep()
        invariant Handled(parse, translator.signaturePrefix, before, text, start, done, translator.Now())
        decreases |text| - start
      {
        ghost var now := translator.Now();
        HandleLine(StripCr(text[start..nl]));
        HandledOneMore(parse, translator.signaturePrefix, before, text, start, done, now, nl);
        done := done + [text[start..nl + 1]];
        start := nl + 1;
        nl := IndexOf(text, '\n', start);
      }
      ScanEnds('\n', text, start, done);
      rest := text[start..];
    }

    method OnRead(chunkText: string)
      requires InStep()
      modifies this, translator
      ensures InStep() && Now() == OnText(parse, translator.signaturePrefix, old(Now()), chunkText)
    {
      LinesAreEvents(parse, translator.signaturePrefix, translator.Now(), Lines('\n', buf + chunkText));
      buf := HandleLines(buf + chunkText);
    }

    method FinalizeStream()
      requires InStep()
      modifies this, translator
      ensures written == Wires(AfterCleanEnd(translator.signaturePrefix, old(translator.Now())))
    {
      if |written| == 0 {
        written := [ErrorEvent(NO_EVENTS)];
        return;
      }
      ghost var before := translator.sent;
      var out := translator.Finish();
      WriteOut(out, before);
    }

    method OnReadError(message: string)
      requires InStep()
      modifies this, translator
      ensures written == Wires(AfterBrokenEnd(translator.signaturePrefix, old(translator.Now()), message))
    {
      ghost var before := translator.sent;
      var out := translator.Fail(message);
      WriteOut(out, before);
    }
  }

  // ---- the whole body at once -----------------------------------------------------------------------

  function Eol(s: string, i: nat): (n: nat)
    requires i <= |s|
    ensures i + n <= |s|
  {
    EolAt('\r', '\n', s, i)
  }

  function BlankLine(s: string, i: nat): (n: nat)
    requires i <= |s|
    ensures i + n <= |s|
  {
    BlankLineAt('\r', '\n', s, i)
  }

  function FindEol(s: string, i: nat): (n: nat)
    requires i <= |s|
    ensures i <= n <= |s| && (n < |s| ==> Eol(s, n) > 0) && forall k | i <= k < n :: Eol(s, k) == 0
    decreases |s| - i
  {
    if i == |s| || Eol(s, i) > 0 then i else FindEol(s, i + 1)
  }

  function FindBlankLine(s: string, i: nat): (n: nat)
    requires i <= |s|
    ensures i <= n <= |s| && (n < |s| ==> BlankLine(s, n) > 0)
    decreases |s| - i
  {
    if i == |s| || BlankLine(s, i) > 0 then i else FindBlankLine(s, i + 1)
  }

  /** `block.split(/\r?\n/)` */
  function SplitLines(s: string): seq<string>
    decreases |s|
  {
    var n := FindEol(s, 0);
    if n == |s| then [s] else [s[..n]] + SplitLines(s[n + Eol(s, n)..])
  }

  /** `body.split(/\r?\n\r?\n/)` */
  function Blocks(s: string): seq<string>
    decreases |s|
  {
    var n := FindBlankLine(s, 0);
    if n == |s| then [s] else [s[..n]] + Blocks(s[n + BlankLine(s, n)..])
  }

  function DataOf(lines: seq<string>): seq<string> {
    if lines == [] then []
    else
      var line := lines[0];
      (if FIELD <= line then [TrimStart(line[5..])] else []) + DataOf(lines[1..])
  }

  function JoinLines(parts: seq<string>): string {
    if parts == [] then "" else if |parts| == 1 then parts[0] else parts[0] + "\n" + JoinLines(parts[1..])
  }

  function BlockPayload(block: string): Option<string> {
    var data := DataOf(SplitLines(block));
    if data == [] then None else
    var payload := Trim(JoinLines(data));
    if payload == "" || payload == DONE then None else Some(payload)
  }

  function BlockPayloads(blocks: seq<string>): seq<string> {
    if blocks == [] then []
    else (if BlockPayload(blocks[0]).Some? then [BlockPayload(blocks[0]).value] else []) + BlockPayloads(blocks[1..])
  }

  /** What `parseSsePayloads` hands to `JSON.parse`. */
  function WholeBodyPayloads(body: string): seq<string> {
    BlockPayloads(Blocks(body))
  }

  lemma NoEolNoNewline(s: string)
    requires FindEol(s, 0) == |s|
    ensures '\n' !in s
  {
    forall k | 0 <= k < |s|
      ensures s[k] != '\n'
    {
      assert Eol(s, k) == 0;
    }
  }

  /** Splitting and cutting say the same, line by line. */
  lemma {:induction false} SplitSaysTheSame(s: string)
    ensures PayloadsOf(SplitLines(s)) == PayloadsOf(Lines('\n', s) + [Rest('\n', s)])
    decreases |s|
  {
    var n := FindEol(s, 0);
    if n == |s| {
      NoEolNoNewline(s);
      assert Lines('\n', s) == [] && Rest('\n', s) == s && [] + [s] == [s];
    } else {
      var nl := n + Eol(s, n) - 1;
      var later := s[nl + 1..];
      forall k | 0 <= k < nl
        ensures s[k] != '\n'
      {
        assert k < n ==> Eol(s, k) == 0;
      }
      assert s == s[..nl] + ['\n'] + later;
      FirstLine('\n', s[..nl], later);
      SplitSaysTheSame(later);
      SameLine(s, n, nl);
      PayloadsAppend([s[..n]], SplitLines(later));
      PayloadsAppend([s[..nl] + ['\n']], Lines('\n', later) + [Rest('\n', later)]);
      Regroup([s[..nl] + ['\n']], Lines('\n', later), [Rest('\n', later)]);
    }
  }

  lemma SameLine(s: string, n: nat, nl: nat)
    requires n < |s| && Eol(s, n) > 0 && nl == n + Eol(s, n) - 1
    ensures PayloadsOf([s[..n]]) == PayloadsOf([s[..nl] + ['\n']])
  {
    PayloadIgnoresLineEnd(s[..nl], '\n');
    if nl == n + 1 {
      PayloadIgnoresLineEnd(s[..n], '\r');
      assert s[..n] + ['\r'] == s[..nl];
    }
    PayloadsSnoc([], s[..n]);
    PayloadsSnoc([], s[..nl] + ['\n']);
    assert [] + [s[..n]] == [s[..n]] && [] + [s[..nl] + ['\n']] == [s[..nl] + ['\n']];
  }

  predicate IsEol(e: string) {
    e == "\n" || e == "\r\n"
  }

  lemma EolEndsLine(line: string, e: string, more: string)
    requires '\n' !in line && IsEol(e)
    ensures Lines('\n', line + e + more) == [line + e] + Lines('\n', more)
    ensures Rest('\n', line + e + more) == Rest('\n', more)
    ensures Payload(line + e) == Payload(line)
  {
    var front := line + e[..|e| - 1];
    assert front + ['\n'] == line + e;
    FirstLine('\n', front, more);
    PayloadIgnoresLineEnd(front, '\n');
    if |e| == 2 {
      assert front == line + ['\r'];
      PayloadIgnoresLineEnd(line, '\r');
    } else {
      assert front == line;
    }
  }

  lemma OneLinePayloads(line: string)
    ensures PayloadsOf([line]) == if Payload(line).Some? then [Payload(line).value] else []
  {
    PayloadsSnoc([], line);
    assert [] + [line] == [line];
  }

  lemma SameText(block: string, e: string, f: string, more: string)
    ensures block + e + f + more == block + (e + ("" + f + more))
  {
  }

  lemma BlockLines(block: string, e: string, f: string, more: string)
    requires IsEol(e) && IsEol(f)
    ensures Lines('\n', block + e + f + more)
            == Lines('\n', block) + ([Rest('\n', block) + e] + (["" + f] + Lines('\n', more)))
    ensures Rest('\n', block + e + f + more) == Rest('\n', more)
    ensures Payload(Rest('\n', block) + e) == Payload(Rest('\n', block)) && Payload("" + f) == None
  {
    var r, after := Rest('\n', block), "" + f + more;
    SameText(block, e, f, more);
    RestIsSuffix('\n', block);
    CutAnywhere('\n', block, e + after);
    Regroup(r, e, after);
    EolEndsLine(r, e, after);
    EolEndsLine("", f, more);
  }

  lemma FourParts(a: seq<string>, b: string, c: string, d: seq<string>)
    requires Payload(c) == None
    ensures PayloadsOf(a + ([b] + ([c] + d))) == PayloadsOf(a) + PayloadsOf([b]) + PayloadsOf(d)
  {
    PayloadsAppend(a, [b] + ([c] + d));
    PayloadsAppend([b], [c] + d);
    PayloadsAppend([c], d);
    OneLinePayloads(c);
  }

  /** A block, its blank line and what follows: the payloads of the block, then those of the rest. */
  lemma BlockByBlock(block: string, e: string, f: string, more: string)
    requires IsEol(e) && IsEol(f)
    ensures PayloadsOf(Lines('\n', block + e + f + more))
            == PayloadsOf(SplitLines(block)) + PayloadsOf(Lines('\n', more))
    ensures Rest('\n', block + e + f + more) == Rest('\n', more)
  {
    var r := Rest('\n', block);
    BlockLines(block, e, f, more);
    FourParts(Lines('\n', block), r + e, "" + f, Lines('\n', more));
    SplitSaysTheSame(block);
    PayloadsAppend(Lines('\n', block), [r]);
    OneLinePayloads(r + e);
    OneLinePayloads(r);
  }

  lemma NextBlock(body: string) returns (block: string, e: string, f: string, more: string)
    requires FindBlankLine(body, 0) < |body|
    ensures IsEol(e) && IsEol(f) && body == block + e + f + more && |more| < |body|
    ensures Blocks(body) == [block] + Blocks(more)
  {
    var n := FindBlankLine(body, 0);
    var first := Eol(body, n);
    var m := n + first + Eol(body, n + first);
    block, e, f, more := body[..n], body[n..n + first], body[n + first..m], body[m..];
  }

  lemma {:induction false} SingleData(lines: seq<string>)
    requires |DataOf(lines)| <= 1
    ensures PayloadsOf(lines) == if DataOf(lines) == [] then [] else
              var payload := Trim(DataOf(lines)[0]); if payload == "" || payload == DONE then [] else [payload]
  {
    if lines != [] {
      SingleData(lines[1..]);
      assert lines == [lines[0]] + lines[1..];
      PayloadsAppend([lines[0]], lines[1..]);
      OneLinePayloads(lines[0]);
    }
  }

  predicate OneDataLineEach(blocks: seq<string>) {
    forall block <- blocks :: |DataOf(SplitLines(block))| <= 1
  }

  /** On a newline-terminated body whose events have at most one data line each, the streaming loop
      hands `JSON.parse` exactly what the whole-body splitter does. */
  lemma {:induction false} StreamingAgreesWithWhole(body: string)
    requires Rest('\n', body) == "" && OneDataLineEach(Blocks(body))
    ensures PayloadsOf(Lines('\n', body)) == WholeBodyPayloads(body)
    decreases |body|
  {
    hide Lines, SplitLines, Rest;
    if FindBlankLine(body, 0) == |body| {
      assert Blocks(body) == [body] && [body][1..] == [];
      var own := PayloadsOf(Lines('\n', body));
      assert own + [] == own;
      assert body in Blocks(body);
      SingleData(SplitLines(body));
      assert BlockPayloads([]) == [];
      var said := if BlockPayload(body).Some? then [BlockPayload(body).value] else [];
      assert said + [] == said == PayloadsOf(SplitLines(body));
      SplitSaysTheSame(body);
      PayloadsAppend(Lines('\n', body), [""]);
      OneLinePayloads("");
    } else {
      var block, e, f, more := NextBlock(body);
      assert forall b <- Blocks(more) :: b in Blocks(body);
      assert block in Blocks(body);
      SingleData(SplitLines(block));
      BlockByBlock(block, e, f, more);
      StreamingAgreesWithWhole(more);
    }
  }

  lemma NextPayload(blocks: seq<string>, i: nat)
    requires i < |blocks|
    ensures BlockPayloads(blocks[i..])
         == (if BlockPayload(blocks[i]).Some? then [BlockPayload(blocks[i]).value] else [])
            + BlockPayloads(blocks[i + 1..])
  {
    hide BlockPayload;
    assert blocks[i..][1..] == blocks[i + 1..];
  }

  method ParseSsePayloads(body: string) returns (payloads: seq<string>)
    ensures payloads == WholeBodyPayloads(body)
  {
    hide Blocks, BlockPayload;
    payloads := [];
    var blocks := Blocks(body);
    var i := 0;
    assert blocks[0..] == blocks;
    while i < |blocks|
      invariant i <= |blocks|
      invariant BlockPayloads(blocks) == payloads + BlockPayloads(blocks[i..])
    {
      NextPayload(blocks, i);
      var payload := ParseBlock(blocks[i]);
      if payload.Some? {
        payloads := payloads + [payload.value];
      }
      i := i + 1;
    }
  }

  method ParseBlock(block: string) returns (payload: Option<string>)
    ensures payload == BlockPayload(block)
  {
    var data := CollectData(SplitLines(block));
    if data == [] {
      return None;
    }
    var text := Trim(JoinLines(data));
    payload := if text == "" || text == DONE then None else Some(text);
  }

  lemma NextData(lines: seq<string>, i: nat)
    requires i < |lines|
    ensures DataOf(lines[i..])
         == (if FIELD <= lines[i] then [TrimStart(lines[i][5..])] else []) + DataOf(lines[i + 1..])
  {
    hide TrimStart;
    assert lines[i..][1..] == lines[i + 1..];
  }

  lemma NoData()
    ensures DataOf([]) == []
  {
  }

  method CollectData(lines: seq<string>) returns (data: seq<string>)
    ensures data == DataOf(lines)
  {
    hide TrimStart, DataOf;
    data := [];
    var i := 0;
    assert lines[0..] == lines && data + DataOf(lines) == DataOf(lines);
    NoData();
    while i < |lines|
      invariant i <= |lines|
      invariant DataOf(lines) == data + DataOf(lines[i..])
    {
      NextData(lines, i);
      var own := if FIELD <= lines[i] then [TrimStart(lines[i][5..])] else [];
      Regroup(data, own, DataOf(lines[i + 1..]));
      data := data + own;
      i := i + 1;
    }
    assert lines[i..] == [];
  }
}
