/** tool-use-id-stream-rewrite.ts: renaming duplicate ids in an SSE byte stream, line by line. */
module ToolUseIdRewrite {
  import opened Protocol
  import opened Bytes
  import opened ToolUseIds

  const MAX_PENDING_LINE_BYTES: nat := 4 * 1024 * 1024
  const SCAN_WINDOW: nat := 512
  const DATA: seq<Byte> := Ascii("data:")
  const DATA_PREFIX: seq<Byte> := Ascii("data: ")
  const MARKER: seq<Byte> := Ascii("\"content_block_start\"")

  /** JSON on bytes: `JSON.parse`, the id of a `tool_use` content block if there is one, setting
      that id, and `JSON.stringify`. */
  datatype Codec<!J> = Codec(parse: seq<Byte> -> Option<J>, toolUseId: J -> Option<string>,
                             withId: (J, string) -> J, stringify: J -> seq<Byte>)

  // ---- one line ---------------------------------------------------------------------------------

  /** Where the line ends without its `\n` or `\r\n`. */
  function ContentEnd(line: seq<Byte>): (end: nat)
    ensures end <= |line|
  {
    if |line| > 0 && line[|line| - 1] == LF then
      if |line| > 1 && line[|line| - 2] == CR then |line| - 2 else |line| - 1
    else |line|
  }

  function SkipBlanks(line: seq<Byte>, from: nat, end: nat): (n: nat)
    requires from <= end <= |line|
    ensures from <= n <= end && (n < end ==> line[n] != SPACE && line[n] != TAB)
    decreases end - from
  {
    if from < end && (line[from] == SPACE || line[from] == TAB) then SkipBlanks(line, from + 1, end) else from
  }

  /** Where the JSON of a data line starts, if the line passes the byte gate. */
  function JsonStart(line: seq<Byte>, end: nat): (start: Option<nat>)
    requires end <= |line|
    ensures start.Some? ==> 5 <= start.value < end
  {
    if end <= |DATA_PREFIX| || line[..5] != DATA then None else
    var blanks := SkipBlanks(line, 5, end);
    var start := if blanks + 2 < end && line[blanks..blanks + 3] == BOM then blanks + 3 else blanks;
    if start >= end || line[start] != OPEN_BRACE then None
    else if !Contains(line[start..Min(end, start + SCAN_WINDOW)], MARKER) then None
    else Some(start)
  }

  /** The tool_use id the rewriter sees in a line. */
  function IdIn<J>(codec: Codec<J>, line: seq<Byte>): (r: Option<(J, string)>)
    ensures r.Some? ==> codec.toolUseId(r.value.0) == Some(r.value.1)
  {
    var end := ContentEnd(line);
    match JsonStart(line, end)
    case None => None
    case Some(start) =>
      match codec.parse(line[start..end])
      case None => None
      case Some(frame) =>
        match codec.toolUseId(frame)
        case None => None
        case Some(id) => Some((frame, id))
  }

  function Frame<J>(codec: Codec<J>, frame: J, newline: seq<Byte>): seq<Byte> {
    DATA_PREFIX + codec.stringify(frame) + newline
  }

  /** The stream's own ids, the shared cache and the number of renames. */
  datatype Rewriter = Rewriter(cache: Cache, used: set<string>, renames: nat)

  function Resolving(thread: string, s: Rewriter, id: string): (r: (Rewriter, string))
    ensures r.1 == Resolved(id, s.used + SharedWith(s.cache, thread))
  {
    var out := Resolved(id, s.used + SharedWith(s.cache, thread));
    (Rewriter(Observe(s.cache, thread, out), s.used + {out}, s.renames + if out == id then 0 else 1), out)
  }

  /** `rewriteSseLine` */
  function RewriteLine<J>(codec: Codec<J>, thread: string, s: Rewriter, line: seq<Byte>): (Rewriter, seq<Byte>) {
    match IdIn(codec, line)
    case None => (s, line)
    case Some((frame, id)) =>
      var (next, out) := Resolving(thread, s, id);
      (next, if out == id then line else Frame(codec, codec.withId(frame, out), line[ContentEnd(line)..]))
  }

  function RewriteLines<J>(codec: Codec<J>, thread: string, s: Rewriter,
      lines: seq<seq<Byte>>): (r: (Rewriter, seq<seq<Byte>>))
    ensures |r.1| == |lines|
  {
    if lines == [] then (s, [])
    else
      var (before, out) := RewriteLines(codec, thread, s, lines[..|lines| - 1]);
      var (after, line) := RewriteLine(codec, thread, before, lines[|lines| - 1]);
      (after, out + [line])
  }

  /** A rewriter is one stream of the world its cache is shared in. */
  predicate StreamOf(s: Rewriter, w: World, stream: nat) {
    s.cache == w.cache && s.used == UsedBy(w, stream)
  }

  /** The steps a stream's lines take in that world, one for each tool_use id. */
  function StepsOf<J>(codec: Codec<J>, thread: string, stream: nat, lines: seq<seq<Byte>>): (steps: seq<Step>) {
    if lines == [] then []
    else
      StepsOf(codec, thread, stream, lines[..|lines| - 1])
      + match IdIn(codec, lines[|lines| - 1])
        case None => []
        case Some((_, id)) => [Resolves(thread, stream, id)]
  }

  /** Rewriting a stream is that stream's part in the shared world: what is proved there of results,
      history and forgetting holds of the bytes rewritten here. */
  lemma {:induction false} LinesAreSteps<J>(codec: Codec<J>, thread: string, s: Rewriter, w: World, stream: nat,
      lines: seq<seq<Byte>>)
    requires StreamOf(s, w, stream)
    ensures StreamOf(RewriteLines(codec, thread, s, lines).0, After(w, StepsOf(codec, thread, stream, lines)), stream)
  {
    if lines != [] {
      var most, last := lines[..|lines| - 1], lines[|lines| - 1];
      LinesAreSteps(codec, thread, s, w, stream, most);
      match IdIn(codec, last)
      case None =>
        assert StepsOf(codec, thread, stream, lines) == StepsOf(codec, thread, stream, most);
      case Some((_, id)) =>
        var before, step := StepsOf(codec, thread, stream, most), Resolves(thread, stream, id);
        assert (before + [step])[..|before|] == before;
        assert After(w, before + [step]) == Take(After(w, before), step);
    }
  }

  lemma {:induction false} RewriteLinesAppend<J>(codec: Codec<J>, thread: string, s: Rewriter, a: seq<seq<Byte>>,
      b: seq<seq<Byte>>)
    ensures var (middle, first) := RewriteLines(codec, thread, s, a);
            var (end, second) := RewriteLines(codec, thread, middle, b);
            RewriteLines(codec, thread, s, a + b) == (end, first + second)
  {
    var (middle, first) := RewriteLines(codec, thread, s, a);
    if b == [] {
      assert a + b == a && first + [] == first;
    } else {
      var most, last := b[..|b| - 1], b[|b| - 1];
      RewriteLinesAppend(codec, thread, s, a, most);
      var (before, second) := RewriteLines(codec, thread, middle, most);
      assert (a + b)[..|a + b| - 1] == a + most && (a + b)[|a + b| - 1] == last;
      assert first + second + [RewriteLine(codec, thread, before, last).1]
             == first + (second + [RewriteLine(codec, thread, before, last).1]);
    }
  }

  // ---- the transform ----------------------------------------------------------------------------

  /** The transform between two chunks, and the pieces it has pushed. */
  datatype Transform = Transform(rewriter: Rewriter, pending: seq<Byte>, pushed: seq<seq<Byte>>)

  /** `_transform` */
  function OnChunk<J>(codec: Codec<J>, thread: string, t: Transform, chunk: seq<Byte>): Transform {
    var buf := t.pending + chunk;
    var (rewriter, out) := RewriteLines(codec, thread, t.rewriter, Lines(LF, buf));
    var rest := Rest(LF, buf);
    if |rest| > MAX_PENDING_LINE_BYTES then Transform(rewriter, [], t.pushed + out + [rest])
    else Transform(rewriter, rest, t.pushed + out)
  }

  /** `_flush` */
  function OnEnd<J>(codec: Codec<J>, thread: string, t: Transform): Transform {
    if t.pending == [] then t
    else
      var (rewriter, line) := RewriteLine(codec, thread, t.rewriter, t.pending);
      Transform(rewriter, [], t.pushed + [line])
  }

  function OnChunks<J>(codec: Codec<J>, thread: string, t: Transform, chunks: seq<seq<Byte>>): Transform {
    if chunks == [] then t
    else OnChunk(codec, thread, OnChunks(codec, thread, t, chunks[..|chunks| - 1]), chunks[|chunks| - 1])
  }

  function Begin(s: Rewriter): Transform {
    Transform(s, [], [])
  }

  /** The reference: all lines of the whole stream, an unfinished last one included. */
  function AllLines(stream: seq<Byte>): seq<seq<Byte>> {
    Lines(LF, stream) + if Rest(LF, stream) == [] then [] else [Rest(LF, stream)]
  }

  /** No stretch without a newline is longer than the limit. */
  ghost predicate LinesWithinLimit(stream: seq<Byte>) {
    forall i, j | 0 <= i <= j <= |stream| && LF !in stream[i..j] :: j - i <= MAX_PENDING_LINE_BYTES
  }

  lemma PrefixWithinLimit(stream: seq<Byte>, more: seq<Byte>)
    requires LinesWithinLimit(stream + more)
    ensures LinesWithinLimit(stream) && |Rest(LF, stream)| <= MAX_PENDING_LINE_BYTES
  {
    forall i, j | 0 <= i <= j <= |stream| && LF !in stream[i..j]
      ensures j - i <= MAX_PENDING_LINE_BYTES
    {
      assert (stream + more)[i..j] == stream[i..j];
    }
    RestIsSuffix(LF, stream);
    assert stream[|stream| - |Rest(LF, stream)|..|stream|] == Rest(LF, stream);
  }

  lemma {:induction false} AfterChunks<J>(codec: Codec<J>, thread: string, s: Rewriter, chunks: seq<seq<Byte>>)
    requires LinesWithinLimit(Concat(chunks))
    ensures var t := OnChunks(codec, thread, Begin(s), chunks);
            && (t.rewriter, t.pushed) == RewriteLines(codec, thread, s, Lines(LF, Concat(chunks)))
            && t.pending == Rest(LF, Concat(chunks))
  {
    if chunks != [] {
      var before, chunk := chunks[..|chunks| - 1], chunks[|chunks| - 1];
      PrefixWithinLimit(Concat(before), chunk);
      assert Concat(chunks) + [] == Concat(chunks);
      PrefixWithinLimit(Concat(chunks), []);
      AfterChunks(codec, thread, s, before);
      CutAnywhere(LF, Concat(before), chunk);
      RewriteLinesAppend(codec, thread, s, Lines(LF, Concat(before)), Lines(LF, Rest(LF, Concat(before)) + chunk));
    }
  }

  /** Byte-stream rewriting does not depend on chunking: if no line is longer than the pending
      limit, every way of cutting the stream into chunks pushes the rewritten lines of the whole
      stream, one piece a line, and leaves the same rewriter. */
  lemma ChunkingDoesNotMatter<J>(codec: Codec<J>, thread: string, s: Rewriter, chunks: seq<seq<Byte>>)
    requires LinesWithinLimit(Concat(chunks))
    ensures var t := OnEnd(codec, thread, OnChunks(codec, thread, Begin(s), chunks));
            && (t.rewriter, t.pushed) == RewriteLines(codec, thread, s, AllLines(Concat(chunks)))
            && t.pending == []
  {
    AfterChunks(codec, thread, s, chunks);
    var rest := Rest(LF, Concat(chunks));
    if rest == [] {
      assert AllLines(Concat(chunks)) == Lines(LF, Concat(chunks));
    } else {
      assert AllLines(Concat(chunks))[..|Lines(LF, Concat(chunks))|] == Lines(LF, Concat(chunks));
    }
  }

  lemma OneLine<J>(codec: Codec<J>, thread: string, s: Rewriter, line: seq<Byte>)
    ensures RewriteLines(codec, thread, s, [line])
            == (RewriteLine(codec, thread, s, line).0, [RewriteLine(codec, thread, s, line).1])
  {
    assert [line][..0] == [];
    assert RewriteLines(codec, thread, s, []) == (s, []);
    var (after, out) := RewriteLine(codec, thread, s, line);
    assert [] + [out] == [out];
  }

  lemma ChunkIsLine<J>(codec: Codec<J>, thread: string, t: Transform, line: seq<Byte>)
    requires t.pending == [] && LF !in line
    ensures var (after, out) := RewriteLine(codec, thread, t.rewriter, line + [LF]);
            OnChunk(codec, thread, t, line + [LF]) == Transform(after, [], t.pushed + [out])
  {
    FirstLine(LF, line, []);
    assert [] + (line + [LF]) == line + [LF] == line + [LF] + [];
    assert Lines(LF, []) == [] && Rest(LF, []) == [];
    OneLine(codec, thread, t.rewriter, line + [LF]);
  }

  lemma ChunkIsTooLong<J>(codec: Codec<J>, thread: string, t: Transform, line: seq<Byte>)
    requires t.pending == [] && LF !in line && |line| > MAX_PENDING_LINE_BYTES
    ensures OnChunk(codec, thread, t, line) == Transform(t.rewriter, [], t.pushed + [line])
  {
    assert [] + line == line;
    assert IndexOf(line, LF, 0) == |line|;
    assert RewriteLines(codec, thread, t.rewriter, []) == (t.rewriter, []);
    assert t.pushed + [] == t.pushed;
  }

  lemma FewChunks<J>(codec: Codec<J>, thread: string, t: Transform, a: seq<Byte>, b: seq<Byte>)
    ensures OnChunks(codec, thread, t, [a]) == OnChunk(codec, thread, t, a)
    ensures OnChunks(codec, thread, t, [a, b]) == OnChunk(codec, thread, OnChunk(codec, thread, t, a), b)
  {
    assert [a][..0] == [] && [a, b][..1] == [a];
  }

  lemma BareNewlinePasses<J>(codec: Codec<J>, thread: string, s: Rewriter)
    ensures RewriteLine(codec, thread, s, [] + [LF]) == (s, [LF])
  {
    assert [] + [LF] == [LF];
  }

  lemma PendingIsBounded<J>(codec: Codec<J>, thread: string, s: Rewriter, chunks: seq<seq<Byte>>)
    ensures |OnChunks(codec, thread, Begin(s), chunks).pending| <= MAX_PENDING_LINE_BYTES
  {
  }

  // ---- without a rename every byte passes unchanged --------------------------------------------

  lemma LineUnchanged<J>(codec: Codec<J>, thread: string, s: Rewriter, line: seq<Byte>)
    ensures var (after, out) := RewriteLine(codec, thread, s, line);
            after.renames >= s.renames && (after.renames == s.renames ==> out == line)
  {
  }

  lemma {:induction false} LinesUnchanged<J>(codec: Codec<J>, thread: string, s: Rewriter, lines: seq<seq<Byte>>)
    ensures var (after, out) := RewriteLines(codec, thread, s, lines);
            after.renames >= s.renames && (after.renames == s.renames ==> out == lines)
  {
    hide RewriteLine;
    if lines != [] {
      LinesUnchanged(codec, thread, s, lines[..|lines| - 1]);
      LineUnchanged(codec, thread, RewriteLines(codec, thread, s, lines[..|lines| - 1]).0, lines[|lines| - 1]);
    }
  }

  lemma Reassembled(pushed: seq<seq<Byte>>, out: seq<seq<Byte>>, rest: seq<Byte>)
    ensures Concat(pushed + out) + rest == Concat(pushed) + (Concat(out) + rest)
    ensures Concat(pushed + out + [rest]) == Concat(pushed) + (Concat(out) + rest)
  {
    ConcatAppend(pushed, out);
    ConcatSnoc(pushed + out, rest);
  }

  lemma ChunkUnchanged<J>(codec: Codec<J>, thread: string, t: Transform, chunk: seq<Byte>, r: Transform)
    requires r == OnChunk(codec, thread, t, chunk)
    ensures r.rewriter.renames >= t.rewriter.renames
    ensures r.rewriter.renames == t.rewriter.renames ==>
            Concat(r.pushed) + r.pending == Concat(t.pushed) + t.pending + chunk
  {
    hide RewriteLines, Lines, Rest, Concat;
    var buf := t.pending + chunk;
    var lines := Lines(LF, buf);
    LinesUnchanged(codec, thread, t.rewriter, lines);
    Reassembled(t.pushed, lines, Rest(LF, buf));
    LinesAndRest(LF, buf);
    assert Concat(t.pushed) + t.pending + chunk == Concat(t.pushed) + buf;
  }

  lemma {:induction false} ChunksUnchanged<J>(codec: Codec<J>, thread: string, s: Rewriter, chunks: seq<seq<Byte>>)
    ensures var r := OnChunks(codec, thread, Begin(s), chunks);
            && r.rewriter.renames >= s.renames
            && (r.rewriter.renames == s.renames ==> Concat(r.pushed) + r.pending == Concat(chunks))
  {
    if chunks != [] {
      ChunksUnchanged(codec, thread, s, chunks[..|chunks| - 1]);
      var before := OnChunks(codec, thread, Begin(s), chunks[..|chunks| - 1]);
      ChunkUnchanged(codec, thread, before, chunks[|chunks| - 1], OnChunks(codec, thread, Begin(s), chunks));
    }
  }

  /** A stream in which nothing was renamed passes byte for byte, over-long lines included. */
  lemma NoRenameNoChange<J>(codec: Codec<J>, thread: string, s: Rewriter, chunks: seq<seq<Byte>>)
    ensures var t := OnEnd(codec, thread, OnChunks(codec, thread, Begin(s), chunks));
            t.rewriter.renames == s.renames ==> Concat(t.pushed) == Concat(chunks)
  {
    ChunksUnchanged(codec, thread, s, chunks);
    var t := OnChunks(codec, thread, Begin(s), chunks);
    if t.pending != [] {
      ConcatSnoc(t.pushed, RewriteLine(codec, thread, t.rewriter, t.pending).1);
    }
  }

  // ---- no duplicate id leaves the stream ---------------------------------------------------------

  /** A client that parses every data line: blanks and a BOM skipped, but no other gate. */
  function ReadId<J>(codec: Codec<J>, line: seq<Byte>): Option<string> {
    var end := ContentEnd(line);
    if end < 5 || line[..5] != DATA then None else
    var blanks := SkipBlanks(line, 5, end);
    var start := if blanks + 2 < end && line[blanks..blanks + 3] == BOM then blanks + 3 else blanks;
    match codec.parse(line[start..end])
    case None => None
    case Some(frame) => codec.toolUseId(frame)
  }

  /** Serialising a renamed frame writes one line that starts with a brace, and whoever parses it
      finds the new id. `JSON.stringify` does so for every frame that came from `JSON.parse`. */
  ghost predicate Reserializes<J(!new)>(codec: Codec<J>) {
    forall frame, id | codec.toolUseId(frame).Some? ::
      var text := codec.stringify(codec.withId(frame, id));
      && codec.parse(text).Some? && codec.toolUseId(codec.parse(text).value) == Some(id)
      && |text| > 1 && text[0] == OPEN_BRACE && text[|text| - 1] != CR && LF !in text
  }

  lemma FrameIsRead<J(!new)>(codec: Codec<J>, frame: J, id: string, newline: seq<Byte>)
    requires Reserializes(codec) && codec.toolUseId(frame).Some?
    requires newline == [] || newline == [LF] || newline == [CR, LF]
    ensures ReadId(codec, Frame(codec, codec.withId(frame, id), newline)) == Some(id)
  {
    var text := codec.stringify(codec.withId(frame, id));
    var line := Frame(codec, codec.withId(frame, id), newline);
    var end := 6 + |text|;
    assert line[6..end] == text;
    assert line[end - 1] == text[|text| - 1] && line[end..] == newline;
    assert ContentEnd(line) == end;
    assert line[..5] == DATA && line[5] == SPACE && line[6] == OPEN_BRACE;
    assert SkipBlanks(line, 5, end) == 6;
    assert 8 < end ==> line[6..9][0] != BOM[0];
  }

  lemma NewlineKept(line: seq<Byte>)
    ensures var newline := line[ContentEnd(line)..]; newline == [] || newline == [LF] || newline == [CR, LF]
  {
  }

  /** The client reads whatever the rewriter sees, and may read more. */
  lemma SeenIsRead<J>(codec: Codec<J>, line: seq<Byte>)
    requires IdIn(codec, line).Some?
    ensures ReadId(codec, line) == Some(IdIn(codec, line).value.1)
  {
  }

  lemma LineIsReadOnce<J(!new)>(codec: Codec<J>, thread: string, s: Rewriter, line: seq<Byte>)
    requires Reserializes(codec)
    ensures var (after, out) := RewriteLine(codec, thread, s, line);
            if IdIn(codec, line).None? then after == s && out == line
            else ReadId(codec, out).Some? && ReadId(codec, out).value !in s.used
                 && after.used == s.used + {ReadId(codec, out).value}
  {
    match IdIn(codec, line)
    case None =>
    case Some((frame, id)) =>
      var (next, out) := Resolving(thread, s, id);
      NewlineKept(line);
      FrameIsRead(codec, frame, out, line[ContentEnd(line)..]);
      SeenIsRead(codec, line);
  }

  lemma RenamedReadsNew<J(!new)>(codec: Codec<J>, thread: string, s: Rewriter, line: seq<Byte>)
    requires Reserializes(codec) && IdIn(codec, line).Some?
    ensures var piece := RewriteLine(codec, thread, s, line).1;
            var id := IdIn(codec, line).value.1;
            if id !in s.used + SharedWith(s.cache, thread) then piece == line else ReadId(codec, piece) != Some(id)
  {
    var (frame, id) := IdIn(codec, line).value;
    var (next, out) := Resolving(thread, s, id);
    NewlineKept(line);
    FrameIsRead(codec, frame, out, line[ContentEnd(line)..]);
  }

  /** Of the lines that pass the gate, no two lead to the same id, and none leads to one already
      used; the other lines are left alone. */
  ghost predicate ReadOnce<J>(codec: Codec<J>, s: Rewriter, lines: seq<seq<Byte>>, after: Rewriter,
      out: seq<seq<Byte>>)
  {
    && |out| == |lines| && s.used <= after.used
    && (forall i | 0 <= i < |out| ::
          if IdIn(codec, lines[i]).None? then out[i] == lines[i]
          else ReadId(codec, out[i]).Some? && ReadId(codec, out[i]).value in after.used - s.used)
    && (forall i, j | 0 <= i < j < |out| && IdIn(codec, lines[i]).Some? && IdIn(codec, lines[j]).Some? ::
          ReadId(codec, out[i]) != ReadId(codec, out[j]))
  }

  lemma {:induction false} LinesAreReadOnce<J(!new)>(codec: Codec<J>, thread: string, s: Rewriter,
      lines: seq<seq<Byte>>)
    requires Reserializes(codec)
    ensures var (after, out) := RewriteLines(codec, thread, s, lines);
            ReadOnce(codec, s, lines, after, out)
  {
    hide ReadId, IdIn, RewriteLine, Reserializes;
    if lines != [] {
      LinesAreReadOnce(codec, thread, s, lines[..|lines| - 1]);
      LineIsReadOnce(codec, thread, RewriteLines(codec, thread, s, lines[..|lines| - 1]).0, lines[|lines| - 1]);
    }
  }

  // ---- the pieces pushed are the lines of the bytes pushed -----------------------------------------

  predicate Terminated(line: seq<Byte>) {
    |line| > 0 && line[|line| - 1] == LF && LF !in line[..|line| - 1]
  }

  /** Terminated lines, but for the last, which may lack its newline. */
  predicate LineByLine(pieces: seq<seq<Byte>>) {
    forall i | 0 <= i < |pieces| ::
      Terminated(pieces[i]) || (i == |pieces| - 1 && pieces[i] != [] && LF !in pieces[i])
  }

  lemma {:induction false} LinesOfPieces(pieces: seq<seq<Byte>>)
    requires forall i | 0 <= i < |pieces| :: Terminated(pieces[i])
    ensures Lines(LF, Concat(pieces)) == pieces && Rest(LF, Concat(pieces)) == []
  {
    if pieces != [] {
      hide Lines, Rest, Terminated;
      var before, last := pieces[..|pieces| - 1], pieces[|pieces| - 1];
      LinesOfPieces(before);
      CutAnywhere(LF, Concat(before), last);
      OneTerminated(last);
      assert [] + last == last && before + [last] == pieces;
    }
  }

  lemma OneTerminated(line: seq<Byte>)
    requires Terminated(line)
    ensures Lines(LF, line) == [line] && Rest(LF, line) == []
  {
    FirstLine(LF, line[..|line| - 1], []);
    assert line == line[..|line| - 1] + [LF] + [] && line == line[..|line| - 1] + [LF];
    assert Lines(LF, []) == [] && [line] + [] == [line];
  }

  lemma PiecesAreLines(pieces: seq<seq<Byte>>)
    requires LineByLine(pieces)
    ensures AllLines(Concat(pieces)) == pieces
  {
    hide Lines, Rest, Terminated;
    if pieces != [] && !Terminated(pieces[|pieces| - 1]) {
      var before, last := pieces[..|pieces| - 1], pieces[|pieces| - 1];
      LinesOfPieces(before);
      CutAnywhere(LF, Concat(before), last);
      Unterminated(last);
      assert [] + last == last && before + [last] == pieces;
    } else {
      LinesOfPieces(pieces);
    }
  }

  lemma Unterminated(line: seq<Byte>)
    requires LF !in line
    ensures Lines(LF, line) == [] && Rest(LF, line) == line
  {
    assert IndexOf(line, LF, 0) == |line|;
  }

  lemma {:induction false} LinesTerminated(stream: seq<Byte>)
    ensures forall i | 0 <= i < |Lines(LF, stream)| :: Terminated(Lines(LF, stream)[i])
    decreases |stream|
  {
    var n := IndexOf(stream, LF, 0);
    if n < |stream| {
      assert stream[..n + 1][..n] == stream[..n];
      LinesTerminated(stream[n + 1..]);
    }
  }

  lemma AllLinesLineByLine(stream: seq<Byte>)
    ensures LineByLine(AllLines(stream))
  {
    LinesTerminated(stream);
    RestIsSuffix(LF, stream);
  }

  /** A rewritten line ends as the line did. */
  lemma RewrittenIsLine<J(!new)>(codec: Codec<J>, thread: string, s: Rewriter, line: seq<Byte>)
    requires Reserializes(codec) && line != [] && (Terminated(line) || LF !in line)
    ensures var out := RewriteLine(codec, thread, s, line).1;
            out != [] && if Terminated(line) then Terminated(out) else LF !in out
  {
    match IdIn(codec, line)
    case None =>
    case Some((frame, id)) =>
      var (next, out) := Resolving(thread, s, id);
      NewlineKept(line);
      var text, newline := codec.stringify(codec.withId(frame, out)), line[ContentEnd(line)..];
      assert LF !in DATA_PREFIX by {
        assert forall i | 0 <= i < 6 :: DATA_PREFIX[i] as int == "data: "[i] as int;
      }
      assert LF !in DATA_PREFIX + text;
      if Terminated(line) {
        var whole := DATA_PREFIX + text + newline;
        assert newline[|newline| - 1] == LF;
        assert whole[..|whole| - 1] == DATA_PREFIX + text + newline[..|newline| - 1];
      } else {
        assert forall b <- newline :: b in line;
      }
  }

  lemma {:induction false} RewrittenLineByLine<J(!new)>(codec: Codec<J>, thread: string, s: Rewriter,
      lines: seq<seq<Byte>>)
    requires Reserializes(codec) && LineByLine(lines)
    ensures LineByLine(RewriteLines(codec, thread, s, lines).1)
    ensures (forall i | 0 <= i < |lines| :: Terminated(lines[i]))
            ==> forall i | 0 <= i < |lines| :: Terminated(RewriteLines(codec, thread, s, lines).1[i])
  {
    hide RewriteLine, Reserializes, Terminated;
    if lines != [] {
      var before, last := lines[..|lines| - 1], lines[|lines| - 1];
      assert forall i | 0 <= i < |before| :: before[i] == lines[i] && Terminated(lines[i]);
      RewrittenLineByLine(codec, thread, s, before);
      NotEmpty(last);
      RewrittenIsLine(codec, thread, RewriteLines(codec, thread, s, before).0, last);
    }
  }

  lemma NotEmpty(line: seq<Byte>)
    ensures Terminated(line) ==> line != []
  {
  }

  // ---- the classes ---------------------------------------------------------------------------------

  class ToolUseIdDedupeRewriter<!J> {
    const codec: Codec<J>
    const thread: string
    const cache: ThreadMintedIdCache
    var usedIds: set<string>
    var renameCount: nat

    ghost function Now(): Rewriter
      reads this, cache
    {
      Rewriter(cache.Now(), usedIds, renameCount)
    }

    constructor (codec: Codec<J>, historyIds: set<string>, thread: string, cache: ThreadMintedIdCache)
      ensures Now() == Rewriter(cache.Now(), historyIds, 0)
      ensures this.codec == codec && this.thread == thread && this.cache == cache
    {
      this.codec, this.thread, this.cache := codec, thread, cache;
      usedIds, renameCount := historyIds, 0;
    }

    method SharedSeen(id: string) returns (seen: bool)
      ensures seen == (id in SharedWith(cache.Now(), thread))
    {
      seen := thread != "" && thread in cache.ids && id in cache.ids[thread];
    }

    method OnObserved(id: string)
      modifies cache
      ensures cache.Now() == Observe(old(cache.Now()), thread, id)
    {
      if thread != "" {
        cache.AddThreadMintedId(thread, id);
      }
    }

    method Resolve(id: string) returns (r: string)
      modifies this, cache
      ensures (Now(), r) == Resolving(thread, old(Now()), id)
    {
      ghost var taken := usedIds + SharedWith(cache.Now(), thread);
      var seen := SharedSeen(id);
      if id !in usedIds && !seen {
        usedIds := usedIds + {id};
        OnObserved(id);
        return id;
      }
      var k := 2;
      var candidate := Candidate(id, k);
      seen := SharedSeen(candidate);
      while candidate in usedIds || seen
        invariant k >= 2 && candidate == Candidate(id, k) && seen == (candidate in SharedWith(cache.Now(), thread))
        invariant Now() == old(Now())
        invariant LeastFree(id, taken, 2) == LeastFree(id, taken, k)
        decreases |Ahead(id, taken, k)|
      {
        FewerAhead(id, taken, k);
        k := k + 1;
        candidate := Candidate(id, k);
        seen := SharedSeen(candidate);
      }
      CandidateIsNew(id, k);
      usedIds := usedIds + {candidate};
      renameCount := renameCount + 1;
      OnObserved(candidate);
      r := candidate;
    }

    /** The byte gate: nothing of a line that is no start frame is parsed. */
    static method FindJson(line: seq<Byte>, end: nat) returns (start: Option<nat>)
      requires end <= |line|
      ensures start == JsonStart(line, end)
    {
      if end <= |DATA_PREFIX| || line[..5] != DATA {
        return None;
      }
      var jsonStart := 5;
      while jsonStart < end && (line[jsonStart] == SPACE || line[jsonStart] == TAB)
        invariant 5 <= jsonStart <= end
        invariant SkipBlanks(line, 5, end) == SkipBlanks(line, jsonStart, end)
      {
        jsonStart := jsonStart + 1;
      }
      if jsonStart + 2 < end && line[jsonStart..jsonStart + 3] == BOM {
        jsonStart := jsonStart + 3;
      }
      if jsonStart >= end || line[jsonStart] != OPEN_BRACE {
        return None;
      }
      if !Contains(line[jsonStart..Min(end, jsonStart + SCAN_WINDOW)], MARKER) {
        return None;
      }
      start := Some(jsonStart);
    }

    method RewriteSseLine(line: seq<Byte>) returns (r: seq<Byte>)
      modifies this, cache
      ensures (Now(), r) == RewriteLine(codec, thread, old(Now()), line)
    {
      var end := ContentEnd(line);
      var jsonStart := FindJson(line, end);
      if jsonStart.None? {
        return line;
      }
      var parsed := codec.parse(line[jsonStart.value..end]);
      if parsed.None? || codec.toolUseId(parsed.value).None? {
        return line;
      }
      var id := codec.toolUseId(parsed.value).value;
      var next := Resolve(id);
      if next == id {
        return line;
      }
      r := Frame(codec, codec.withId(parsed.value, next), line[end..]);
    }
  }

  class ToolUseIdRewriteTransform<!J> {
    const rewriter: ToolUseIdDedupeRewriter<J>
    var pending: seq<Byte>
    var pushed: seq<seq<Byte>>

    ghost function Now(): Transform
      reads this, rewriter, rewriter.cache
    {
      Transform(rewriter.Now(), pending, pushed)
    }

    constructor (rewriter: ToolUseIdDedupeRewriter<J>)
      ensures this.rewriter == rewriter && Now() == Begin(rewriter.Now())
    {
      this.rewriter := rewriter;
      pending, pushed := [], [];
    }

    /** The scan for newlines: every terminated line is rewritten and pushed. */
    method PushLines(buf: seq<Byte>) returns (rest: seq<Byte>)
      modifies this`pushed, rewriter, rewriter.cache
      ensures rest == Rest(LF, buf)
      ensures (rewriter.Now(), pushed)
              == Onto(old(pushed), RewriteLines(rewriter.codec, rewriter.thread, old(rewriter.Now()), Lines(LF, buf)))
    {
      hide RewriteLines, RewriteLine, Lines, Rest;
      ghost var before, earlier, done := rewriter.Now(), pushed, [];
      var start := 0;
      var nl := IndexOf(buf, LF, start);
      ScanStarts(LF, buf);
      NothingRewritten(rewriter.codec, rewriter.thread, before, earlier);
      while nl < |buf|
        invariant 0 <= start <= nl <= |buf| && nl == IndexOf(buf, LF, start)
        invariant Scanned(LF, buf, start, done)
        invariant (rewriter.Now(), pushed) == Onto(earlier, RewriteLines(rewriter.codec, rewriter.thread, before, done))
        decreases |buf| - start
      {
        RewriteOneMore(rewriter.codec, rewriter.thread, before, earlier, done, buf[start..nl + 1],
            (rewriter.Now(), pushed));
        ScanAdvances(LF, buf, start, nl, done);
        done := done + [buf[start..nl + 1]];
        var piece := rewriter.RewriteSseLine(buf[start..nl + 1]);
        pushed := pushed + [piece];
        start := nl + 1;
        nl := IndexOf(buf, LF, start);
      }
      ScanEnds(LF, buf, start, done);
      rest := buf[start..];
    }

    method OnData(chunk: seq<Byte>)
      modifies this, rewriter, rewriter.cache
      ensures Now() == OnChunk(rewriter.codec, rewriter.thread, old(Now()), chunk)
    {
      var rest := PushLines(pending + chunk);
      if |rest| > MAX_PENDING_LINE_BYTES {
        pushed := pushed + [rest];
        pending := [];
      } else {
        pending := rest;
      }
    }

    method Flush()
      modifies this, rewriter, rewriter.cache
      ensures Now() == OnEnd(rewriter.codec, rewriter.thread, old(Now()))
    {
      if |pending| > 0 {
        var piece := rewriter.RewriteSseLine(pending);
        pushed := pushed + [piece];
        pending := [];
      }
    }
  }

  ghost function Onto(pushed: seq<seq<Byte>>, r: (Rewriter, seq<seq<Byte>>)): (Rewriter, seq<seq<Byte>>) {
    (r.0, pushed + r.1)
  }

  lemma NothingRewritten<J>(codec: Codec<J>, thread: string, s: Rewriter, pushed: seq<seq<Byte>>)
    ensures (s, pushed) == Onto(pushed, RewriteLines(codec, thread, s, []))
  {
    assert pushed + [] == pushed;
  }

  lemma RewriteOneMore<J>(codec: Codec<J>, thread: string, s: Rewriter, pushed: seq<seq<Byte>>, done: seq<seq<Byte>>,
                          line: seq<Byte>, now: (Rewriter, seq<seq<Byte>>))
    requires now == Onto(pushed, RewriteLines(codec, thread, s, done))
    ensures var (after, piece) := RewriteLine(codec, thread, now.0, line);
            (after, now.1 + [piece]) == Onto(pushed, RewriteLines(codec, thread, s, done + [line]))
  {
    assert (done + [line])[..|done|] == done;
    var (middle, out) := RewriteLines(codec, thread, s, done);
    var (after, piece) := RewriteLine(codec, thread, middle, line);
    assert RewriteLines(codec, thread, s, done + [line]) == (after, out + [piece]);
    assert pushed + out + [piece] == pushed + (out + [piece]);
  }
}
