/** What the transform of tool-use-id-stream-rewrite.ts promises of whole streams: exactly when the bytes
    passed on do not depend on the chunks, and exactly when no id leaves twice. */
module ToolUseIdChunking {
  import opened Bytes
  import opened ToolUseIds
  import opened ToolUseIdRewrite

  /** The bytes passed on. */
  function Passed<J>(codec: Codec<J>, thread: string, s: Rewriter, chunks: seq<seq<Byte>>): seq<Byte> {
    Concat(OnEnd(codec, thread, OnChunks(codec, thread, Begin(s), chunks)).pushed)
  }

  /** The reference: the stream rewritten line by line. */
  function ByLine<J>(codec: Codec<J>, thread: string, s: Rewriter, stream: seq<Byte>): seq<Byte> {
    Concat(RewriteLines(codec, thread, s, AllLines(stream)).1)
  }

  // ---- over-long lines --------------------------------------------------------------------------------

  /** The length of a line without its newline. */
  function Body(line: seq<Byte>): (n: nat)
    ensures n <= |line| && (n == |line| || (n == |line| - 1 && line[n] == LF))
  {
    if |line| > 0 && line[|line| - 1] == LF then |line| - 1 else |line|
  }

  /** Some chunking pushes the first k bytes of the line raw and takes the rest for a line of its own. */
  predicate CanBeCut(line: seq<Byte>, k: nat) {
    MAX_PENDING_LINE_BYTES < k <= Body(line) && (Body(line) < |line| || |line| - k <= MAX_PENDING_LINE_BYTES)
  }

  /** If the line is too long, no id is found in it, nor in what a raw push can leave of it. */
  ghost predicate SafeLine<J>(codec: Codec<J>, line: seq<Byte>) {
    Body(line) > MAX_PENDING_LINE_BYTES ==>
      IdIn(codec, line).None? && forall k: nat | CanBeCut(line, k) :: IdIn(codec, line[k..]).None?
  }

  ghost predicate SafeStream<J>(codec: Codec<J>, stream: seq<Byte>) {
    forall i | 0 <= i < |AllLines(stream)| :: SafeLine(codec, AllLines(stream)[i])
  }

  // ---- in a safe stream the chunks do not matter --------------------------------------------------------

  /** Bytes in front of a buffer lengthen its first line, or its unfinished one. */
  lemma InFront(flushed: seq<Byte>, buf: seq<Byte>)
    requires LF !in flushed
    ensures var lines := Lines(LF, buf);
            if lines == [] then
              Lines(LF, flushed + buf) == [] && Rest(LF, buf) == buf && Rest(LF, flushed + buf) == flushed + buf
            else
              && Lines(LF, flushed + buf) == [flushed + lines[0]] + lines[1..] && Terminated(lines[0])
              && Rest(LF, flushed + buf) == Rest(LF, buf)
  {
    var n := IndexOf(buf, LF, 0);
    if n == |buf| {
      assert LF !in flushed + buf;
      assert IndexOf(flushed + buf, LF, 0) == |flushed + buf|;
    } else {
      var line, more := buf[..n], buf[n + 1..];
      assert buf == line + [LF] + more && flushed + buf == flushed + line + [LF] + more;
      FirstLine(LF, line, more);
      FirstLine(LF, flushed + line, more);
      assert flushed + line + [LF] == flushed + (line + [LF]);
      assert (line + [LF])[..|line|] == line;
    }
  }

  lemma NoLines<J>(codec: Codec<J>, thread: string, s: Rewriter)
    ensures RewriteLines(codec, thread, s, []) == (s, [])
  {
  }

  /** Nothing is renamed in the first line, with or without the bytes in front of it. */
  lemma SameRewrite<J>(codec: Codec<J>, thread: string, s: Rewriter, flushed: seq<Byte>, lines: seq<seq<Byte>>)
    requires lines != []
    requires flushed == [] || (IdIn(codec, lines[0]).None? && IdIn(codec, flushed + lines[0]).None?)
    ensures var (after, out) := RewriteLines(codec, thread, s, lines);
            var (after', out') := RewriteLines(codec, thread, s, [flushed + lines[0]] + lines[1..]);
            after' == after && Concat(out') == flushed + Concat(out)
  {
    hide RewriteLines, IdIn, Concat;
    var first, more := lines[0], lines[1..];
    assert [first] + more == lines;
    RewriteLinesAppend(codec, thread, s, [first], more);
    RewriteLinesAppend(codec, thread, s, [flushed + first], more);
    OneLine(codec, thread, s, first);
    OneLine(codec, thread, s, flushed + first);
    var (middle, piece) := RewriteLine(codec, thread, s, first);
    var out := RewriteLines(codec, thread, middle, more).1;
    ConcatAppend([piece], out);
    ConcatAppend([flushed + piece], out);
    ConcatFew(piece);
    ConcatFew(flushed + piece);
    if flushed == [] {
      assert flushed + first == first && flushed + piece == piece;
    }
  }

  /** After the bytes so far, of whose unfinished line `flushed` was pushed raw. */
  ghost predicate InStep<J>(codec: Codec<J>, thread: string, s: Rewriter, bytes: seq<Byte>, flushed: seq<Byte>,
      t: Transform)
  {
    var (after, out) := RewriteLines(codec, thread, s, Lines(LF, bytes));
    && t.rewriter == after && Concat(t.pushed) == Concat(out) + flushed
    && Rest(LF, bytes) == flushed + t.pending && |t.pending| <= MAX_PENDING_LINE_BYTES
    && (flushed == [] || |flushed| > MAX_PENDING_LINE_BYTES)
  }

  lemma LinesSoFar(bytes: seq<Byte>, stream: seq<Byte>)
    requires bytes <= stream
    ensures Lines(LF, bytes) <= Lines(LF, stream) <= AllLines(stream)
  {
    CutAnywhere(LF, bytes, stream[|bytes|..]);
    assert stream == bytes + stream[|bytes|..];
  }

  /** The line that ends in this chunk is safe. */
  lemma FinishedLineSafe<J>(codec: Codec<J>, stream: seq<Byte>, bytes: seq<Byte>, n: nat, flushed: seq<Byte>,
      first: seq<Byte>)
    requires SafeStream(codec, stream) && bytes <= stream && n < |Lines(LF, bytes)|
    requires Lines(LF, bytes)[n] == flushed + first && Terminated(first) && |flushed| > MAX_PENDING_LINE_BYTES
    ensures IdIn(codec, first).None? && IdIn(codec, flushed + first).None?
  {
    hide IdIn, Lines, AllLines;
    LinesSoFar(bytes, stream);
    var line := flushed + first;
    assert AllLines(stream)[n] == line && SafeLine(codec, line);
    assert line[|flushed|..] == first && line[|line| - 1] == first[|first| - 1];
    assert CanBeCut(line, |flushed|);
  }

  /** One chunk, if no newline is in it. */
  lemma UnfinishedChunk<J>(codec: Codec<J>, thread: string, s: Rewriter, bytes: seq<Byte>, flushed: seq<Byte>,
      t: Transform, chunk: seq<Byte>) returns (flushed': seq<Byte>)
    requires InStep(codec, thread, s, bytes, flushed, t) && Lines(LF, t.pending + chunk) == []
    ensures InStep(codec, thread, s, bytes + chunk, flushed', OnChunk(codec, thread, t, chunk))
  {
    hide Lines, Rest, Concat;
    var buf := t.pending + chunk;
    RestIsSuffix(LF, bytes);
    CutAnywhere(LF, bytes, chunk);
    InFront(flushed, buf);
    assert Rest(LF, bytes) + chunk == flushed + buf;
    assert Lines(LF, bytes) + [] == Lines(LF, bytes);
    NoLines(codec, thread, t.rewriter);
    assert t.pushed + [] == t.pushed;
    if |buf| > MAX_PENDING_LINE_BYTES {
      flushed' := flushed + buf;
      ConcatSnoc(t.pushed, buf);
      assert flushed' + [] == flushed';
      Regroup(Concat(RewriteLines(codec, thread, s, Lines(LF, bytes)).1), flushed, buf);
    } else {
      flushed' := flushed;
    }
  }

  /** One chunk that ends the unfinished line. */
  lemma FinishingChunk<J>(codec: Codec<J>, thread: string, s: Rewriter, bytes: seq<Byte>, flushed: seq<Byte>,
      t: Transform, chunk: seq<Byte>, stream: seq<Byte>) returns (flushed': seq<Byte>)
    requires SafeStream(codec, stream) && bytes + chunk <= stream
    requires InStep(codec, thread, s, bytes, flushed, t) && Lines(LF, t.pending + chunk) != []
    ensures InStep(codec, thread, s, bytes + chunk, flushed', OnChunk(codec, thread, t, chunk))
  {
    hide Lines, Rest, Concat, RewriteLines, SafeStream, IdIn;
    var buf := t.pending + chunk;
    var lines, rest := Lines(LF, buf), Rest(LF, buf);
    RestIsSuffix(LF, bytes);
    CutAnywhere(LF, bytes, chunk);
    InFront(flushed, buf);
    assert Rest(LF, bytes) + chunk == flushed + buf;
    if flushed != [] {
      FinishedLineSafe(codec, stream, bytes + chunk, |Lines(LF, bytes)|, flushed, lines[0]);
    }
    SameRewrite(codec, thread, t.rewriter, flushed, lines);
    RewriteLinesAppend(codec, thread, s, Lines(LF, bytes), [flushed + lines[0]] + lines[1..]);
    var out := RewriteLines(codec, thread, t.rewriter, lines).1;
    var earlier := RewriteLines(codec, thread, s, Lines(LF, bytes)).1;
    var now := RewriteLines(codec, thread, t.rewriter, [flushed + lines[0]] + lines[1..]).1;
    ConcatAppend(t.pushed, out);
    ConcatAppend(earlier, now);
    Regroup(Concat(earlier), flushed, Concat(out));
    if |rest| > MAX_PENDING_LINE_BYTES {
      flushed' := rest;
      ConcatSnoc(t.pushed + out, rest);
      assert rest + [] == rest;
    } else {
      flushed' := [];
      assert [] + rest == rest && Concat(earlier + now) + [] == Concat(earlier + now);
    }
  }

  lemma {:induction false} SafeChunks<J>(codec: Codec<J>, thread: string, s: Rewriter, chunks: seq<seq<Byte>>,
      stream: seq<Byte>) returns (flushed: seq<Byte>)
    requires SafeStream(codec, stream) && Concat(chunks) <= stream
    ensures InStep(codec, thread, s, Concat(chunks), flushed, OnChunks(codec, thread, Begin(s), chunks))
  {
    hide SafeStream, InStep, OnChunk;
    if chunks == [] {
      flushed := [];
      NothingYet(codec, thread, s);
    } else {
      var most, chunk := chunks[..|chunks| - 1], chunks[|chunks| - 1];
      var before := SafeChunks(codec, thread, s, most, stream);
      var t := OnChunks(codec, thread, Begin(s), most);
      if Lines(LF, t.pending + chunk) == [] {
        flushed := UnfinishedChunk(codec, thread, s, Concat(most), before, t, chunk);
      } else {
        flushed := FinishingChunk(codec, thread, s, Concat(most), before, t, chunk, stream);
      }
    }
  }

  lemma NothingYet<J>(codec: Codec<J>, thread: string, s: Rewriter)
    ensures InStep(codec, thread, s, [], [], Begin(s))
  {
    assert Lines(LF, []) == [] && Rest(LF, []) == [] && Concat<Byte>([]) == [];
    assert RewriteLines(codec, thread, s, []) == (s, []);
  }

  /** The end: what is left of an over-long line passes as it is. */
  lemma SafeEnd<J>(codec: Codec<J>, thread: string, s: Rewriter, stream: seq<Byte>, flushed: seq<Byte>, t: Transform)
    requires SafeStream(codec, stream) && InStep(codec, thread, s, stream, flushed, t)
    ensures var r := OnEnd(codec, thread, t);
            && Concat(r.pushed) == ByLine(codec, thread, s, stream) && r.pending == []
            && r.rewriter == RewriteLines(codec, thread, s, AllLines(stream)).0
  {
    hide Lines, Rest, Concat, RewriteLines, IdIn, SafeStream;
    var rest := Rest(LF, stream);
    if rest == [] {
      assert AllLines(stream) == Lines(LF, stream);
      assert |flushed + t.pending| == 0;
      assert flushed == [] && t.pending == [];
      var out := RewriteLines(codec, thread, s, Lines(LF, stream)).1;
      assert Concat(out) + [] == Concat(out);
    } else {
      var (after, out) := RewriteLines(codec, thread, s, Lines(LF, stream));
      RewriteLinesAppend(codec, thread, s, Lines(LF, stream), [rest]);
      OneLine(codec, thread, after, rest);
      ConcatSnoc(out, RewriteLine(codec, thread, after, rest).1);
      if flushed == [] {
        assert [] + t.pending == t.pending && Concat(out) + [] == Concat(out);
        ConcatSnoc(t.pushed, RewriteLine(codec, thread, after, rest).1);
      } else {
        LastLineSafe(codec, stream, flushed, t.pending);
        ConcatSnoc(t.pushed, t.pending);
        Regroup(Concat(out), flushed, t.pending);
        if t.pending == [] {
          assert flushed + [] == flushed;
        }
      }
    }
  }

  lemma LastLineSafe<J>(codec: Codec<J>, stream: seq<Byte>, flushed: seq<Byte>, pending: seq<Byte>)
    requires SafeStream(codec, stream) && Rest(LF, stream) == flushed + pending
    requires |flushed| > MAX_PENDING_LINE_BYTES >= |pending|
    ensures IdIn(codec, pending).None? && IdIn(codec, flushed + pending).None?
  {
    hide IdIn, Lines, Rest;
    RestIsSuffix(LF, stream);
    var line := flushed + pending;
    assert AllLines(stream)[|Lines(LF, stream)|] == line && SafeLine(codec, line);
    assert line[|line| - 1] in line && Body(line) == |line|;
    assert line[|flushed|..] == pending && CanBeCut(line, |flushed|);
  }

  /** In a safe stream every chunking passes on the line-by-line rewrite and leaves the same rewriter. */
  lemma SafeStreamByLine<J>(codec: Codec<J>, thread: string, s: Rewriter, chunks: seq<seq<Byte>>)
    requires SafeStream(codec, Concat(chunks))
    ensures Passed(codec, thread, s, chunks) == ByLine(codec, thread, s, Concat(chunks))
    ensures OnEnd(codec, thread, OnChunks(codec, thread, Begin(s), chunks)).rewriter
         == RewriteLines(codec, thread, s, AllLines(Concat(chunks))).0
  {
    hide SafeStream, InStep, OnChunks, OnEnd, RewriteLines, AllLines;
    var flushed := SafeChunks(codec, thread, s, chunks, Concat(chunks));
    SafeEnd(codec, thread, s, Concat(chunks), flushed, OnChunks(codec, thread, Begin(s), chunks));
  }

  // ---- in another stream they do -------------------------------------------------------------------------

  lemma AllLinesConcat(stream: seq<Byte>)
    ensures Concat(AllLines(stream)) == stream
  {
    hide Lines, Rest, Concat;
    LinesAndRest(LF, stream);
    var rest := Rest(LF, stream);
    if rest == [] {
      assert AllLines(stream) == Lines(LF, stream);
      assert Concat(Lines(LF, stream)) + [] == Concat(Lines(LF, stream));
    } else {
      ConcatSnoc(Lines(LF, stream), rest);
    }
  }

  /** The stream around its i-th line, cut behind k bytes of that line. */
  function CutAt(lines: seq<seq<Byte>>, i: nat, k: nat): seq<seq<Byte>>
    requires i < |lines| && k <= |lines[i]|
  {
    [Concat(lines[..i]) + lines[i][..k], lines[i][k..] + Concat(lines[i + 1..])]
  }

  lemma CutAtConcat(lines: seq<seq<Byte>>, i: nat, k: nat)
    requires i < |lines| && k <= |lines[i]|
    ensures Concat(CutAt(lines, i, k)) == Concat(lines)
  {
    hide Concat;
    var a, line, b := lines[..i], lines[i], lines[i + 1..];
    assert lines == a + [line] + b;
    ConcatAppend(a + [line], b);
    ConcatSnoc(a, line);
    ConcatSnoc([Concat(a) + line[..k]], line[k..] + Concat(b));
    ConcatFew(Concat(a) + line[..k]);
    assert [Concat(a) + line[..k]] + [line[k..] + Concat(b)] == CutAt(lines, i, k);
    assert line[..k] + line[k..] == line;
    assert Concat(a) + line[..k] + (line[k..] + Concat(b)) == Concat(a) + line + Concat(b);
  }

  /** The first of the two chunks: the lines before are rewritten, the front of the line is pushed raw. */
  lemma FirstOfCut<J>(codec: Codec<J>, thread: string, s: Rewriter, before: seq<seq<Byte>>, front: seq<Byte>)
    requires forall i | 0 <= i < |before| :: Terminated(before[i])
    requires LF !in front && |front| > MAX_PENDING_LINE_BYTES
    ensures var (after, out) := RewriteLines(codec, thread, s, before);
            OnChunk(codec, thread, Begin(s), Concat(before) + front) == Transform(after, [], out + [front])
  {
    hide RewriteLines, Terminated;
    LinesOfPieces(before);
    CutAnywhere(LF, Concat(before), front);
    assert [] + front == front && IndexOf(front, LF, 0) == |front|;
    assert before + [] == before;
    assert [] + (Concat(before) + front) == Concat(before) + front;
    var out := RewriteLines(codec, thread, s, before).1;
    assert [] + out + [front] == out + [front];
  }

  /** The second: the rest of the line is taken for a line of its own. */
  lemma SecondOfCut<J>(codec: Codec<J>, thread: string, t: Transform, rest: seq<Byte>, more: seq<Byte>)
    requires t.pending == []
    requires Terminated(rest) || (LF !in rest && |rest| <= MAX_PENDING_LINE_BYTES && more == [])
    ensures var piece := RewriteLine(codec, thread, t.rewriter, rest).1;
            var passed := Concat(OnEnd(codec, thread, OnChunk(codec, thread, t, rest + more)).pushed);
            && Concat(t.pushed) + piece <= passed
            && (!Terminated(rest) ==> Concat(t.pushed) + piece == passed)
  {
    hide RewriteLines, Concat, Lines, Rest, IdIn;
    assert [] + (rest + more) == rest + more;
    var (after, piece) := RewriteLine(codec, thread, t.rewriter, rest);
    if Terminated(rest) {
      var line := rest[..|rest| - 1];
      assert rest == line + [LF];
      FirstLine(LF, line, more);
      RewriteLinesAppend(codec, thread, t.rewriter, [rest], Lines(LF, more));
      OneLine(codec, thread, t.rewriter, rest);
      var out := RewriteLines(codec, thread, after, Lines(LF, more)).1;
      OnlyAppends(codec, thread, OnChunk(codec, thread, t, rest + more), t.pushed + ([piece] + out));
      assert t.pushed + ([piece] + out) == t.pushed + [piece] + out;
      ConcatAppend(t.pushed + [piece], out);
      ConcatSnoc(t.pushed, piece);
    } else {
      assert rest + more == rest;
      Unterminated(rest);
      NoLines(codec, thread, t.rewriter);
      assert t.pushed + [] == t.pushed;
      ConcatSnoc(t.pushed, piece);
      if rest == [] {
        NoIdInNothing(codec);
        assert Concat(t.pushed) + [] == Concat(t.pushed);
      }
    }
  }

  lemma Unterminated(rest: seq<Byte>)
    requires LF !in rest
    ensures Lines(LF, rest) == [] && Rest(LF, rest) == rest
  {
    assert IndexOf(rest, LF, 0) == |rest|;
  }

  lemma NoIdInNothing<J>(codec: Codec<J>)
    ensures IdIn(codec, []).None? && IdIn(codec, [LF]).None?
  {
  }

  /** A raw push and the end leave what was pushed in front. */
  lemma OnlyAppends<J>(codec: Codec<J>, thread: string, t: Transform, first: seq<seq<Byte>>)
    requires t.pushed == first || exists rest :: t.pushed == first + [rest]
    ensures Concat(first) <= Concat(OnEnd(codec, thread, t).pushed)
  {
    hide RewriteLine, Concat;
    if t.pushed != first {
      var rest :| t.pushed == first + [rest];
      ConcatSnoc(first, rest);
    }
    if t.pending != [] {
      ConcatSnoc(t.pushed, RewriteLine(codec, thread, t.rewriter, t.pending).1);
    }
  }

  /** The i-th line under the two readings: cut behind k bytes, and whole. */
  lemma CutPasses<J>(codec: Codec<J>, thread: string, s: Rewriter, lines: seq<seq<Byte>>, i: nat, k: nat)
    requires LineByLine(lines) && i < |lines| && CanBeCut(lines[i], k)
    ensures var (before, out) := RewriteLines(codec, thread, s, lines[..i]);
            var cut := Concat(out) + (lines[i][..k] + RewriteLine(codec, thread, before, lines[i][k..]).1);
            var passed := Passed(codec, thread, s, CutAt(lines, i, k));
            cut <= passed && (!Terminated(lines[i]) ==> cut == passed)
  {
    hide RewriteLines, RewriteLine, Concat, OnEnd, OnChunk;
    var line := lines[i];
    var (before, out) := RewriteLines(codec, thread, s, lines[..i]);
    CutParts(lines, i, k);
    FirstOfCut(codec, thread, s, lines[..i], line[..k]);
    var t := Transform(before, [], out + [line[..k]]);
    SecondOfCut(codec, thread, t, line[k..], Concat(lines[i + 1..]));
    FewChunks(codec, thread, Begin(s), CutAt(lines, i, k)[0], CutAt(lines, i, k)[1]);
    ConcatSnoc(out, line[..k]);
    Regroup(Concat(out), line[..k], RewriteLine(codec, thread, before, line[k..]).1);
  }

  lemma CutParts(lines: seq<seq<Byte>>, i: nat, k: nat)
    requires LineByLine(lines) && i < |lines| && CanBeCut(lines[i], k)
    ensures forall n | 0 <= n < i :: Terminated(lines[..i][n])
    ensures LF !in lines[i][..k] && (Terminated(lines[i]) <==> Terminated(lines[i][k..]))
    ensures !Terminated(lines[i]) ==>
              LF !in lines[i][k..] && |lines[i][k..]| <= MAX_PENDING_LINE_BYTES && Concat(lines[i + 1..]) == []
  {
    var line := lines[i];
    if Terminated(line) {
      assert forall b <- line[..k] :: b in line[..|line| - 1];
      assert line[k..][..|line| - k - 1] == line[..|line| - 1][k..];
    } else {
      assert forall b <- line[..k] :: b in line;
      assert forall b <- line[k..] :: b in line;
      assert lines[i + 1..] == [];
    }
  }

  lemma WholePasses<J>(codec: Codec<J>, thread: string, s: Rewriter, lines: seq<seq<Byte>>, i: nat)
    requires i < |lines|
    ensures var (before, out) := RewriteLines(codec, thread, s, lines[..i]);
            var whole := Concat(out) + RewriteLine(codec, thread, before, lines[i]).1;
            var all := Concat(RewriteLines(codec, thread, s, lines).1);
            whole <= all && (i == |lines| - 1 ==> whole == all)
  {
    hide RewriteLines, RewriteLine, Concat;
    var (before, out) := RewriteLines(codec, thread, s, lines[..i]);
    var (after, piece) := RewriteLine(codec, thread, before, lines[i]);
    RewriteLinesAppend(codec, thread, s, lines[..i], [lines[i]]);
    OneLine(codec, thread, before, lines[i]);
    RewriteLinesAppend(codec, thread, s, lines[..i] + [lines[i]], lines[i + 1..]);
    assert lines[..i] + [lines[i]] + lines[i + 1..] == lines;
    ConcatSnoc(out, piece);
    var more := RewriteLines(codec, thread, after, lines[i + 1..]).1;
    ConcatAppend(out + [piece], more);
    if i == |lines| - 1 {
      assert lines[i + 1..] == [];
      NoLines(codec, thread, after);
      assert out + [piece] + [] == out + [piece];
    }
  }

  /** An id that is taken makes the readings differ: found in the whole line, the cut leaves it; found
      behind the cut only, the whole line leaves it. */
  lemma ReadingsDiffer<J(!new)>(codec: Codec<J>, thread: string, s: Rewriter, line: seq<Byte>, k: nat)
    requires Reserializes(codec) && k <= |line|
    requires match IdIn(codec, line)
             case Some((_, id)) => id in s.used && IdIn(codec, line[k..]).None?
             case None => IdIn(codec, line[k..]).Some? && IdIn(codec, line[k..]).value.1 in s.used
    ensures line[..k] + RewriteLine(codec, thread, s, line[k..]).1 != RewriteLine(codec, thread, s, line).1
  {
    hide Reserializes, ReadId;
    assert line[..k] + line[k..] == line;
    if IdIn(codec, line).Some? {
      SeenIsRead(codec, line);
      RenamedReadsNew(codec, thread, s, line);
    } else {
      SeenIsRead(codec, line[k..]);
      RenamedReadsNew(codec, thread, s, line[k..]);
      var piece := RewriteLine(codec, thread, s, line[k..]).1;
      assert (line[..k] + piece)[k..] == piece;
    }
  }

  /** Streams that start with different lines behind the same bytes are different. */
  lemma StreamsDiffer(front: seq<Byte>, a: seq<Byte>, b: seq<Byte>, x: seq<Byte>, y: seq<Byte>)
    requires a != b && front + a <= x && front + b <= y
    requires (Terminated(a) && Terminated(b)) || (front + a == x && front + b == y)
    ensures x != y
  {
    if x == y {
      SameLine(front, a, b, x);
    }
  }

  lemma SameLine(front: seq<Byte>, a: seq<Byte>, b: seq<Byte>, x: seq<Byte>)
    requires front + a <= x && front + b <= x
    requires (Terminated(a) && Terminated(b)) || (front + a == x && front + b == x)
    ensures a == b
  {
    assert a == (front + a)[|front|..] && b == (front + b)[|front|..];
    if Terminated(a) {
      EndOfLine(front, a, x);
      EndOfLine(front, b, x);
      assert a == x[|front|..][..|a|] && b == x[|front|..][..|b|];
    }
  }

  lemma EndOfLine(front: seq<Byte>, line: seq<Byte>, x: seq<Byte>)
    requires front + line <= x && Terminated(line)
    ensures x[|front|..][..|line|] == line && IndexOf(x[|front|..], LF, 0) == |line| - 1
  {
    var rest := x[|front|..];
    assert forall i | 0 <= i < |line| :: rest[i] == (front + line)[|front| + i] == line[i];
    assert forall i | 0 <= i < |line| - 1 :: line[i] == line[..|line| - 1][i];
  }

  lemma CutLineTerminated<J(!new)>(codec: Codec<J>, thread: string, s: Rewriter, line: seq<Byte>, k: nat)
    requires Reserializes(codec) && Terminated(line) && k < |line|
    ensures Terminated(RewriteLine(codec, thread, s, line).1)
    ensures Terminated(line[..k] + RewriteLine(codec, thread, s, line[k..]).1)
  {
    hide RewriteLine, Reserializes;
    assert line[k..][..|line| - k - 1] == line[..|line| - 1][k..];
    RewrittenIsLine(codec, thread, s, line);
    RewrittenIsLine(codec, thread, s, line[k..]);
    var piece := RewriteLine(codec, thread, s, line[k..]).1;
    var cut := line[..k] + piece;
    assert cut[..|cut| - 1] == line[..k] + piece[..|piece| - 1];
    assert forall b <- line[..k] :: b in line[..|line| - 1];
  }

  /** One taken id is enough. */
  lemma CutDiffers<J(!new)>(codec: Codec<J>, thread: string, stream: seq<Byte>, i: nat, k: nat, id: string)
    requires Reserializes(codec) && i < |AllLines(stream)| && CanBeCut(AllLines(stream)[i], k)
    requires var line := AllLines(stream)[i];
             match IdIn(codec, line)
             case Some((_, found)) => found == id && IdIn(codec, line[k..]).None?
             case None => IdIn(codec, line[k..]).Some? && IdIn(codec, line[k..]).value.1 == id
    ensures var chunks := CutAt(AllLines(stream), i, k);
            var s := Rewriter(Cache([], map[]), {id}, 0);
            Concat(chunks) == stream && Passed(codec, thread, s, chunks) != ByLine(codec, thread, s, stream)
  {
    hide IdIn, RewriteLine, RewriteLines, Reserializes, Passed, CutAt, Concat, AllLines, Terminated;
    var lines := AllLines(stream);
    var s := Rewriter(Cache([], map[]), {id}, 0);
    AllLinesLineByLine(stream);
    AllLinesConcat(stream);
    CutAtConcat(lines, i, k);
    CutPasses(codec, thread, s, lines, i, k);
    WholePasses(codec, thread, s, lines, i);
    LinesAreReadOnce(codec, thread, s, lines[..i]);
    var (before, out) := RewriteLines(codec, thread, s, lines[..i]);
    var line := lines[i];
    ReadingsDiffer(codec, thread, before, line, k);
    if Terminated(line) {
      CutWithin(line, k);
      CutLineTerminated(codec, thread, before, line, k);
    }
    StreamsDiffer(Concat(out), line[..k] + RewriteLine(codec, thread, before, line[k..]).1,
                  RewriteLine(codec, thread, before, line).1,
                  Passed(codec, thread, s, CutAt(lines, i, k)), ByLine(codec, thread, s, stream));
  }

  lemma CutWithin(line: seq<Byte>, k: nat)
    requires Terminated(line) && CanBeCut(line, k)
    ensures k < |line|
  {
  }

  lemma UnsafeStreamDiffers<J(!new)>(codec: Codec<J>, thread: string, stream: seq<Byte>)
    returns (s: Rewriter, chunks: seq<seq<Byte>>)
    requires Reserializes(codec) && !SafeStream(codec, stream)
    ensures Concat(chunks) == stream && Passed(codec, thread, s, chunks) != ByLine(codec, thread, s, stream)
  {
    hide IdIn, Reserializes, Passed, ByLine, CutAt, Concat, AllLines;
    var i :| 0 <= i < |AllLines(stream)| && !SafeLine(codec, AllLines(stream)[i]);
    var line := AllLines(stream)[i];
    var k: nat, id: string;
    if IdIn(codec, line).Some? {
      k, id := Body(line), IdIn(codec, line).value.1;
      assert line[k..] == [] || line[k..] == [LF];
      NoIdInNothing(codec);
    } else {
      k :| CanBeCut(line, k) && IdIn(codec, line[k..]).Some?;
      id := IdIn(codec, line[k..]).value.1;
    }
    CutDiffers(codec, thread, stream, i, k, id);
    s, chunks := Rewriter(Cache([], map[]), {id}, 0), CutAt(AllLines(stream), i, k);
  }

  // ---- the two promises ---------------------------------------------------------------------------------

  /** Exactly when the chunks do not matter: whatever ids are taken, every chunking of the stream passes
      on the bytes of its line-by-line rewrite if and only if no id is found in a line longer than the
      pending limit, nor in a rest of such a line that a raw push can leave. */
  lemma ChunkingExactly<J(!new)>(codec: Codec<J>, thread: string, stream: seq<Byte>)
    requires Reserializes(codec)
    ensures (forall s: Rewriter, chunks: seq<seq<Byte>> | Concat(chunks) == stream ::
               Passed(codec, thread, s, chunks) == ByLine(codec, thread, s, stream))
       <==> SafeStream(codec, stream)
  {
    hide Reserializes, Passed, ByLine, SafeStream, Concat;
    if SafeStream(codec, stream) {
      forall s: Rewriter, chunks: seq<seq<Byte>> | Concat(chunks) == stream
        ensures Passed(codec, thread, s, chunks) == ByLine(codec, thread, s, stream)
      {
        SafeStreamByLine(codec, thread, s, chunks);
      }
    } else {
      var s, chunks := UnsafeStreamDiffers(codec, thread, stream);
    }
  }

  /** A stream without a line over the limit is safe. */
  lemma WithinLimitIsSafe<J>(codec: Codec<J>, stream: seq<Byte>)
    requires LinesWithinLimit(stream)
    ensures SafeStream(codec, stream)
  {
    hide IdIn, AllLines, Concat;
    var lines := AllLines(stream);
    AllLinesConcat(stream);
    AllLinesLineByLine(stream);
    forall i | 0 <= i < |lines|
      ensures SafeLine(codec, lines[i])
    {
      var line, before := lines[i], Concat(lines[..i]);
      ConcatSnoc(lines[..i], line);
      ConcatAppend(lines[..i] + [line], lines[i + 1..]);
      assert lines[..i] + [line] + lines[i + 1..] == lines;
      var n := Body(line);
      assert stream[|before|..|before| + n] == line[..n];
      assert LF !in line[..n];
    }
  }

  /** Every data line in which a client would find a tool_use id passes the byte gate. */
  ghost predicate GateSeesAll<J>(codec: Codec<J>, lines: seq<seq<Byte>>) {
    forall i | 0 <= i < |lines| :: ReadId(codec, lines[i]).Some? ==> IdIn(codec, lines[i]).Some?
  }

  ghost predicate IdsDistinctAndNew<J>(codec: Codec<J>, lines: seq<seq<Byte>>, used: set<string>) {
    && (forall i | 0 <= i < |lines| && ReadId(codec, lines[i]).Some? :: ReadId(codec, lines[i]).value !in used)
    && (forall i, j | 0 <= i < j < |lines| && ReadId(codec, lines[i]).Some? ::
          ReadId(codec, lines[i]) != ReadId(codec, lines[j]))
  }

  /** What the rewriting is for, and exactly when it works: however a safe stream is cut into chunks, a
      client that parses every data line of the bytes passed on finds no tool_use id twice and none of
      the request's history, whatever that history is, if and only if the byte gate sees every line in
      which the client finds one. */
  lemma OutputIdsDistinct<J(!new)>(codec: Codec<J>, thread: string, chunks: seq<seq<Byte>>)
    requires Reserializes(codec) && SafeStream(codec, Concat(chunks))
    ensures (forall s: Rewriter :: IdsDistinctAndNew(codec, AllLines(Passed(codec, thread, s, chunks)), s.used))
       <==> GateSeesAll(codec, AllLines(Concat(chunks)))
  {
    hide ReadId, IdIn, RewriteLines, Reserializes, SafeStream, AllLines, Passed, Concat;
    var lines := AllLines(Concat(chunks));
    if GateSeesAll(codec, lines) {
      forall s: Rewriter
        ensures IdsDistinctAndNew(codec, AllLines(Passed(codec, thread, s, chunks)), s.used)
      {
        OutputLines(codec, thread, s, chunks);
      }
    } else {
      var i :| 0 <= i < |lines| && ReadId(codec, lines[i]).Some? && IdIn(codec, lines[i]).None?;
      var s := Rewriter(Cache([], map[]), {ReadId(codec, lines[i]).value}, 0);
      OutputLines(codec, thread, s, chunks);
      var out := AllLines(Passed(codec, thread, s, chunks));
      assert out[i] == lines[i];
      assert !IdsDistinctAndNew(codec, out, s.used);
    }
  }

  lemma OutputLines<J(!new)>(codec: Codec<J>, thread: string, s: Rewriter, chunks: seq<seq<Byte>>)
    requires Reserializes(codec) && SafeStream(codec, Concat(chunks))
    ensures var lines := AllLines(Concat(chunks));
            var (after, out) := RewriteLines(codec, thread, s, lines);
            && AllLines(Passed(codec, thread, s, chunks)) == out && ReadOnce(codec, s, lines, after, out)
  {
    hide ReadId, IdIn, RewriteLines, Reserializes, SafeStream, AllLines, Passed, Concat;
    var lines := AllLines(Concat(chunks));
    SafeStreamByLine(codec, thread, s, chunks);
    LinesAreReadOnce(codec, thread, s, lines);
    AllLinesLineByLine(Concat(chunks));
    RewrittenLineByLine(codec, thread, s, lines);
    PiecesAreLines(RewriteLines(codec, thread, s, lines).1);
  }

  // ---- two cuttings of one line --------------------------------------------------------------------------

  lemma LongLinePieces<J>(codec: Codec<J>, thread: string, s: Rewriter, line: seq<Byte>)
    requires LF !in line && |line| > MAX_PENDING_LINE_BYTES
    ensures OnEnd(codec, thread, OnChunks(codec, thread, Begin(s), [line, [LF]])).pushed == [line, [LF]]
    ensures OnEnd(codec, thread, OnChunks(codec, thread, Begin(s), [line + [LF]])).pushed
            == [RewriteLine(codec, thread, s, line + [LF]).1]
  {
    hide RewriteLine, RewriteLines, Lines, Rest;
    assert [] + [LF] == [LF];
    FewChunks(codec, thread, Begin(s), line, [LF]);
    ChunkIsTooLong(codec, thread, Begin(s), line);
    var middle := OnChunk(codec, thread, Begin(s), line);
    ChunkIsLine(codec, thread, middle, []);
    BareNewlinePasses(codec, thread, s);
    FewChunks(codec, thread, Begin(s), line + [LF], []);
    ChunkIsLine(codec, thread, Begin(s), line);
  }

  /** Two of the cuttings of one line: if it is too long it passes raw when it arrives before its
      newline, and is rewritten when it arrives with it. These two agree exactly when there was nothing
      to rename. */
  lemma LongLinesPassRaw<J(!new)>(codec: Codec<J>, thread: string, s: Rewriter, line: seq<Byte>)
    requires Reserializes(codec) && LF !in line && |line| > MAX_PENDING_LINE_BYTES
    ensures var early := Concat(OnEnd(codec, thread, OnChunks(codec, thread, Begin(s), [line, [LF]])).pushed);
            var whole := Concat(OnEnd(codec, thread, OnChunks(codec, thread, Begin(s), [line + [LF]])).pushed);
            var found := IdIn(codec, line + [LF]);
            && early == line + [LF]
            && (early == whole <==> found.None? || found.value.1 !in s.used + SharedWith(s.cache, thread))
  {
    hide OnChunks, OnEnd, IdIn, ReadId, Reserializes;
    LongLinePieces(codec, thread, s, line);
    ConcatSnoc([line], [LF]);
    ConcatFew(line);
    assert [line] + [[LF]] == [line, [LF]];
    var piece := RewriteLine(codec, thread, s, line + [LF]).1;
    ConcatFew(piece);
    LineIsReadOnce(codec, thread, s, line + [LF]);
    match IdIn(codec, line + [LF])
    case None =>
    case Some((frame, id)) =>
      SeenIsRead(codec, line + [LF]);
      RenamedReadsNew(codec, thread, s, line + [LF]);
  }
}
