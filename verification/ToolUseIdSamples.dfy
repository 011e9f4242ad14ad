/** Streams past the rewriter's two limits, the scan window and the pending buffer, with a codec for
    one kind of JSON text: the start frame of a tool_use block whose `type` comes last. */
module ToolUseIdSamples {
  import opened Protocol
  import opened Bytes
  import opened ToolUseIdRewrite
  import opened ToolUseIdChunking

  const HEAD: seq<Byte> := Ascii("{\"content_block\":{\"id\":\"")
  const MIDDLE: seq<Byte> := Ascii("\",\"type\":\"tool_use\"},\"type\":")
  const TAIL: seq<Byte> := MIDDLE + MARKER + Ascii("}")

  // ---- the codec ----------------------------------------------------------------------------------

  function Coded(c: char): seq<Byte> {
    [128 + (c as int / 16384) as Byte, 128 + (c as int / 128 % 128) as Byte, 128 + (c as int % 128) as Byte]
  }

  /** Three bytes a character, none of them ASCII. */
  function Encode(id: string): (b: seq<Byte>)
    ensures |b| == 3 * |id| && forall i | 0 <= i < |b| :: b[i] >= 128
  {
    if id == [] then [] else Encode(id[..|id| - 1]) + Coded(id[|id| - 1])
  }

  function Decode(b: seq<Byte>): Option<string>
    decreases |b|
  {
    if b == [] then Some("")
    else if |b| < 3 then None
    else
      var n := (b[|b| - 3] as int - 128) * 16384 + (b[|b| - 2] as int - 128) * 128 + b[|b| - 1] as int - 128;
      match Decode(b[..|b| - 3])
      case None => None
      case Some(before) => if 0 <= n < 0xd800 || 0xe000 <= n < 0x110000 then Some(before + [n as char]) else None
  }

  lemma CodedValue(c: char)
    ensures var b := Coded(c);
            (b[0] as int - 128) * 16384 + (b[1] as int - 128) * 128 + b[2] as int - 128 == c as int
  {
    var n := c as int;
    assert n / 128 / 128 == n / 16384;
  }

  lemma {:induction false} DecodeEncode(id: string)
    ensures Decode(Encode(id)) == Some(id)
  {
    if id != [] {
      var b := Encode(id);
      DecodeEncode(id[..|id| - 1]);
      assert b[..|b| - 3] == Encode(id[..|id| - 1]) && b[|b| - 3..] == Coded(id[|id| - 1]);
      CodedValue(id[|id| - 1]);
      assert id[..|id| - 1] + [id[|id| - 1]] == id;
    }
  }

  function Spaces(n: nat): seq<Byte> {
    seq(n, _ => SPACE)
  }

  function StripEnd(text: seq<Byte>): seq<Byte>
    decreases |text|
  {
    if text != [] && text[|text| - 1] == SPACE then StripEnd(text[..|text| - 1]) else text
  }

  lemma {:induction false} StripsSpaces(core: seq<Byte>, n: nat)
    requires core != [] && core[|core| - 1] != SPACE
    ensures StripEnd(core + Spaces(n)) == core
  {
    if n == 0 {
      assert core + Spaces(0) == core;
    } else {
      var text := core + Spaces(n);
      assert text[..|text| - 1] == core + Spaces(n - 1);
      StripsSpaces(core, n - 1);
    }
  }

  function Printed(id: string): seq<Byte> {
    HEAD + Encode(id) + TAIL
  }

  /** Blanks may follow the closing brace, as JSON allows. */
  function Parsed(text: seq<Byte>): Option<string> {
    var core := StripEnd(text);
    if |core| >= |HEAD| + |TAIL| && core[..|HEAD|] == HEAD && core[|core| - |TAIL|..] == TAIL
    then Decode(core[|HEAD|..|core| - |TAIL|]) else None
  }

  const SAMPLE: Codec<string> := Codec(text => Parsed(text), id => Some(id), (_, id) => id, id => Printed(id))

  lemma NoNewlines()
    ensures LF !in HEAD && LF !in TAIL
  {
    assert LF !in MIDDLE && LF !in MARKER;
  }

  lemma PrintedEnds(id: string)
    ensures var text := Printed(id);
            && |text| > 1 && text[0] == OPEN_BRACE && text[|text| - 1] as int == '}' as int && LF !in text
  {
    hide Encode;
    NoNewlines();
    var text := Printed(id);
    assert text[0] == HEAD[0] && text[|text| - 1] == TAIL[|TAIL| - 1];
    assert forall b <- Encode(id) :: b >= 128;
  }

  lemma ParsesPrinted(id: string, n: nat)
    ensures Parsed(Printed(id) + Spaces(n)) == Some(id)
  {
    PrintedEnds(id);
    var core := Printed(id);
    StripsSpaces(core, n);
    assert core[..|HEAD|] == HEAD && core[|core| - |TAIL|..] == TAIL;
    assert core[|HEAD|..|core| - |TAIL|] == Encode(id);
    DecodeEncode(id);
  }

  /** The hypothesis of the rewriter's promise can be met. */
  lemma SampleReserializes()
    ensures Reserializes(SAMPLE)
  {
    forall frame: string, id | SAMPLE.toolUseId(frame).Some?
      ensures var text := SAMPLE.stringify(SAMPLE.withId(frame, id));
              && SAMPLE.parse(text) == Some(id)
              && |text| > 1 && text[0] == OPEN_BRACE && text[|text| - 1] != CR && LF !in text
    {
      PrintedEnds(id);
      ParsesPrinted(id, 0);
      assert Printed(id) + Spaces(0) == Printed(id);
    }
  }

  // ---- lines --------------------------------------------------------------------------------------

  function Line(id: string, n: nat): seq<Byte> {
    DATA_PREFIX + (Printed(id) + Spaces(n))
  }

  /** Where the JSON of such a line lies. */
  lemma LineParts(id: string, n: nat)
    ensures var line := Line(id, n) + [LF];
            && ContentEnd(line) == |line| - 1 && line[..5] == DATA
            && SkipBlanks(line, 5, |line| - 1) == 6 && line[6] == OPEN_BRACE
            && |line| - 1 > 8 && line[6..9] != BOM
            && line[6..|line| - 1] == Printed(id) + Spaces(n)
            && LF !in Line(id, n)
  {
    PrintedEnds(id);
    var line, text := Line(id, n) + [LF], Printed(id) + Spaces(n);
    assert forall k | 0 <= k < 6 :: DATA_PREFIX[k] as int == "data: "[k] as int;
    assert line[..6] == DATA_PREFIX && line[6..|line| - 1] == text && text[0] == OPEN_BRACE;
    assert line[6] == text[0];
    assert line[..5] == DATA;
    var last := line[|line| - 2];
    assert last == text[|text| - 1];
    assert last != CR by {
      if n > 0 {
        assert last == SPACE;
      } else {
        assert last == Printed(id)[|Printed(id)| - 1];
      }
    }
    assert SkipBlanks(line, 6, |line| - 1) == 6;
    assert line[6..9][0] == line[6];
    assert LF !in DATA_PREFIX && LF !in Printed(id) && LF !in Spaces(n);
  }

  lemma SampleLine(id: string, n: nat)
    ensures Terminated(Line(id, n) + [LF]) && |Line(id, n) + [LF]| <= 3 * |id| + n + 100
  {
    hide SkipBlanks, Encode;
    LineParts(id, n);
    assert (Line(id, n) + [LF])[..|Line(id, n)|] == Line(id, n);
  }

  lemma LineIsRead(id: string, n: nat)
    ensures ReadId(SAMPLE, Line(id, n) + [LF]) == Some(id)
  {
    LineParts(id, n);
    ParsesPrinted(id, n);
  }

  lemma PrintedMarker(id: string, n: nat)
    ensures PartAt(Printed(id) + Spaces(n), MARKER, |HEAD| + 3 * |id| + |MIDDLE|)
  {
    hide Encode;
    var text, i := Printed(id) + Spaces(n), |HEAD| + 3 * |id| + |MIDDLE|;
    assert text == (HEAD + Encode(id) + MIDDLE) + MARKER + (Ascii("}") + Spaces(n));
    assert |HEAD + Encode(id) + MIDDLE| == i;
  }

  lemma FoundEarly(text: seq<Byte>, part: seq<Byte>, i: nat, n: nat)
    requires i + |part| <= n <= |text| && PartAt(text, part, i)
    ensures Contains(text[..n], part)
  {
    assert text[..n][i..i + |part|] == text[i..i + |part|];
    assert PartAt(text[..n], part, i);
  }

  /** The rewriter sees a short id: the marker starts within the window. */
  lemma ShortIsSeen(id: string, n: nat)
    requires |id| <= 100
    ensures IdIn(SAMPLE, Line(id, n) + [LF]) == Some((id, id))
  {
    hide Printed, Contains, PartAt, Parsed, SkipBlanks;
    LineParts(id, n);
    ParsesPrinted(id, n);
    PrintedMarker(id, n);
    var line, text := Line(id, n) + [LF], Printed(id) + Spaces(n);
    var end := |line| - 1;
    PrintedLength(id);
    FoundEarly(text, MARKER, |HEAD| + 3 * |id| + |MIDDLE|, Min(|text|, SCAN_WINDOW));
    assert line[6..Min(end, 6 + SCAN_WINDOW)] == text[..Min(|text|, SCAN_WINDOW)];
  }

  lemma PrintedLength(id: string)
    ensures |Printed(id)| == |HEAD| + 3 * |id| + |MIDDLE| + |MARKER| + 1
  {
  }

  /** The opening of the frame holds no marker. */
  lemma NoMarkerInHead(i: nat)
    requires i + |MARKER| <= |HEAD|
    ensures !PartAt(HEAD, MARKER, i)
  {
    assert |HEAD| == 24 && |MARKER| == 21;
    var part := HEAD[i..i + |MARKER|];
    assert part[8] == HEAD[i + 8] && part[14] == HEAD[i + 14];
    assert MARKER[8] as int == '_' as int && MARKER[14] as int == '_' as int;
    assert HEAD[8] as int == 't' as int && HEAD[15] as int == '"' as int;
    assert HEAD[10] as int == 'b' as int && HEAD[11] as int == 'l' as int;
  }

  /** It does not see an id that fills the window. */
  lemma LongIsUnseen(id: string)
    requires |id| >= 200
    ensures IdIn(SAMPLE, Line(id, 0) + [LF]) == None
  {
    hide Contains, Encode, Parsed;
    LineParts(id, 0);
    var line := Line(id, 0) + [LF];
    var window := line[6..Min(|line| - 1, 6 + SCAN_WINDOW)];
    assert Printed(id) + Spaces(0) == Printed(id);
    assert window == Printed(id)[..SCAN_WINDOW];
    assert Printed(id)[..SCAN_WINDOW] == HEAD + Encode(id)[..SCAN_WINDOW - |HEAD|];
    NoMarkerBehindHead(Encode(id)[..SCAN_WINDOW - |HEAD|]);
  }

  lemma NoMarkerBehindHead(coded: seq<Byte>)
    requires forall i | 0 <= i < |coded| :: coded[i] >= 128
    ensures !Contains(HEAD + coded, MARKER)
  {
    var window := HEAD + coded;
    forall i | 0 <= i <= |window| - |MARKER|
      ensures !PartAt(window, MARKER, i)
    {
      if i + |MARKER| <= |HEAD| {
        NoMarkerInHead(i);
        assert window[i..i + |MARKER|] == HEAD[i..i + |MARKER|];
      } else {
        var last := |MARKER| - 1;
        assert window[i + last] == coded[i + last - |HEAD|] >= 128;
        assert window[i..i + |MARKER|][last] == window[i + last];
        assert MARKER[last] as int == '"' as int;
      }
    }
  }

  // ---- the two limits -------------------------------------------------------------------------------

  lemma NewlineWithin(stream: seq<Byte>, i: nat, j: nat, k: nat)
    requires i <= k < j <= |stream| && stream[k] == LF
    ensures LF in stream[i..j]
  {
    assert stream[i..j][k - i] == LF;
  }

  lemma TwiceWithinLimit(line: seq<Byte>)
    requires Terminated(line) && |line| <= MAX_PENDING_LINE_BYTES
    ensures LinesWithinLimit(line + line)
  {
    forall i, j | 0 <= i <= j <= |line + line| && j - i > MAX_PENDING_LINE_BYTES
      ensures LF in (line + line)[i..j]
    {
      NewlineWithin(line + line, i, j, |line| - 1);
    }
  }

  lemma TwoLines(line: seq<Byte>)
    requires Terminated(line)
    ensures Concat([line, line]) == line + line && AllLines(line + line) == [line, line]
  {
    hide AllLines;
    ConcatSnoc([line], line);
    ConcatFew(line);
    assert [line] + [line] == [line, line];
    PiecesAreLines([line, line]);
  }

  lemma UnseenTwice(thread: string, s: Rewriter, line: seq<Byte>)
    requires IdIn(SAMPLE, line) == None
    ensures RewriteLines(SAMPLE, thread, s, [line, line]) == (s, [line, line])
  {
    hide IdIn;
    OneLine(SAMPLE, thread, s, line);
    RewriteLinesAppend(SAMPLE, thread, s, [line], [line]);
    assert [line] + [line] == [line, line];
  }

  /** The promise needs its condition: with the marker past the window a frame passes as it is, so
      its id is handed on twice, and even if the history has it. */
  lemma LateMarkerPassesTwice(thread: string, s: Rewriter, id: string)
    requires 200 <= |id| <= 1000
    ensures var line := Line(id, 0) + [LF];
            && OnEnd(SAMPLE, thread, OnChunks(SAMPLE, thread, Begin(s), [line + line])).pushed == [line, line]
            && ReadId(SAMPLE, line) == Some(id)
  {
    hide RewriteLines, AllLines, ReadId, IdIn, LinesWithinLimit, OnChunks, OnEnd, Line, Terminated;
    var line := Line(id, 0) + [LF];
    SampleLine(id, 0);
    LineIsRead(id, 0);
    LongIsUnseen(id);
    TwiceWithinLimit(line);
    ConcatFew(line + line);
    TwoLines(line);
    UnseenTwice(thread, s, line);
    ChunkingDoesNotMatter(SAMPLE, thread, s, [line + line]);
  }

  /** A line of 4 MiB of blanks after a frame whose id is taken: the bytes handed on depend on
      whether the newline arrives with the line. */
  lemma LongLineSplits(thread: string, s: Rewriter)
    requires "a" in s.used
    ensures var line := Line("a", MAX_PENDING_LINE_BYTES);
            var early := OnEnd(SAMPLE, thread, OnChunks(SAMPLE, thread, Begin(s), [line, [LF]])).pushed;
            var whole := OnEnd(SAMPLE, thread, OnChunks(SAMPLE, thread, Begin(s), [line + [LF]])).pushed;
            Concat(early) != Concat(whole)
  {
    hide OnChunks, OnEnd, IdIn, Line;
    SampleReserializes();
    var line := Line("a", MAX_PENDING_LINE_BYTES);
    LineParts("a", MAX_PENDING_LINE_BYTES);
    LineIsLong("a", MAX_PENDING_LINE_BYTES);
    ShortIsSeen("a", MAX_PENDING_LINE_BYTES);
    LongLinesPassRaw(SAMPLE, thread, s, line);
  }

  /** A frame behind 4 MiB of blanks on the same line: the line is not one that the gate reads, but
      once the blanks are pushed raw the frame is taken for a line and its id renamed. */
  lemma FlushedLineRenamed(thread: string, s: Rewriter)
    requires "a" in s.used
    ensures var pad, tail := Spaces(MAX_PENDING_LINE_BYTES + 1), Line("a", 0) + [LF];
            && IdIn(SAMPLE, pad + tail) == None
            && Passed(SAMPLE, thread, s, [pad, tail]) != Passed(SAMPLE, thread, s, [pad + tail]) == pad + tail
  {
    hide *;
    var pad, line := Spaces(MAX_PENDING_LINE_BYTES + 1), Line("a", 0);
    var tail := line + [LF];
    LineUnbroken("a", 0);
    PadUnseen(line);
    PadPasses(thread, s, pad, line);
    assert pad + tail == pad + line + [LF];
    PaddedUnbroken(pad, line);
    PaddedPasses(thread, s, pad + line);
    SampleReserializes();
    ShortIsSeen("a", 0);
    SeenIsRead(SAMPLE, tail);
    RenamedReadsNew(SAMPLE, thread, s, tail);
    var piece := RewriteLine(SAMPLE, thread, s, tail).1;
    assert (pad + piece)[|pad|..] == piece && (pad + tail)[|pad|..] == tail;
  }

  lemma LineUnbroken(id: string, n: nat)
    ensures LF !in Line(id, n)
  {
    LineParts(id, n);
  }

  lemma PaddedUnbroken(pad: seq<Byte>, line: seq<Byte>)
    requires LF !in pad && LF !in line
    ensures LF !in pad + line
  {
  }

  lemma PadPasses(thread: string, s: Rewriter, pad: seq<Byte>, line: seq<Byte>)
    requires LF !in pad && |pad| > MAX_PENDING_LINE_BYTES && LF !in line
    ensures Passed(SAMPLE, thread, s, [pad, line + [LF]]) == pad + RewriteLine(SAMPLE, thread, s, line + [LF]).1
  {
    hide OnChunk, RewriteLine, Concat;
    var middle := OnChunk(SAMPLE, thread, Begin(s), pad);
    FewChunks(SAMPLE, thread, Begin(s), pad, line + [LF]);
    ChunkIsTooLong(SAMPLE, thread, Begin(s), pad);
    ChunkIsLine(SAMPLE, thread, middle, line);
    ConcatSnoc([pad], RewriteLine(SAMPLE, thread, s, line + [LF]).1);
    ConcatFew(pad);
    assert [] + [pad] == [pad];
  }

  lemma PaddedPasses(thread: string, s: Rewriter, line: seq<Byte>)
    requires LF !in line && IdIn(SAMPLE, line + [LF]) == None
    ensures Passed(SAMPLE, thread, s, [line + [LF]]) == line + [LF]
  {
    hide OnChunk, IdIn, Concat;
    FewChunks(SAMPLE, thread, Begin(s), line + [LF], []);
    ChunkIsLine(SAMPLE, thread, Begin(s), line);
    ConcatFew(line + [LF]);
    assert [] + [line + [LF]] == [line + [LF]];
  }

  lemma PadUnseen(line: seq<Byte>)
    requires LF !in line
    ensures var pad := Spaces(MAX_PENDING_LINE_BYTES + 1);
            |pad| > MAX_PENDING_LINE_BYTES && LF !in pad && LF !in pad + line
            && IdIn(SAMPLE, pad + (line + [LF])) == None
  {
    hide Parsed;
    var pad := Spaces(MAX_PENDING_LINE_BYTES + 1);
    var all := pad + (line + [LF]);
    assert all[..5][0] == SPACE;
    assert DATA[0] as int == 'd' as int;
  }

  lemma LineIsLong(id: string, n: nat)
    ensures |Line(id, n)| > n
  {
  }
}
