/** The validity gate of server.ts in front of a streaming 2xx response: which bytes make it commit,
    and that the incremental scanner of headerless responses decides what the whole bytes say. */
module StreamGates {
  import opened Protocol
  import opened Bytes

  const PENDING_CAP: nat := 64 * 1024
  const INFERRED_EVENT_CAP: nat := 8 * 1024 * 1024

  const DATA: seq<Byte> := [0x64, 0x61, 0x74, 0x61, COLON]
  const EVENT: seq<Byte> := [0x65, 0x76, 0x65, 0x6e, 0x74, COLON]

  predicate StartsAt(s: seq<Byte>, part: seq<Byte>, i: nat) {
    i + |part| <= |s| && s[i..i + |part|] == part
  }

  // ---- the three patterns -------------------------------------------------------------------------

  function Eol(s: seq<Byte>, i: nat): (n: nat)
    requires i <= |s|
    ensures i + n <= |s|
  {
    EolAt(CR, LF, s, i)
  }

  /** The length of the event delimiter at i: `\n\n`, `\n\r\n`, `\r\n\n` or `\r\n\r\n`. */
  function BlankAt(s: seq<Byte>, i: nat): (n: nat)
    requires i <= |s|
    ensures i + n <= |s| && (n == 0 || 2 <= n <= 4)
  {
    BlankLineAt(CR, LF, s, i)
  }

  /** Where the first delimiter at or after i starts, |s| if there is none. */
  function FindBlank(s: seq<Byte>, i: nat): (n: nat)
    requires i <= |s|
    ensures i <= n <= |s| && (n < |s| ==> BlankAt(s, n) > 0)
    ensures forall k | i <= k < n :: BlankAt(s, k) == 0
    decreases |s| - i
  {
    if i == |s| || BlankAt(s, i) > 0 then i else FindBlank(s, i + 1)
  }

  /** The end of the comment text at i. */
  function LineStop(s: seq<Byte>, i: nat): (n: nat)
    requires i <= |s|
    ensures i <= n <= |s| && (n < |s| ==> s[n] == CR || s[n] == LF)
    ensures forall k | i <= k < n :: s[k] != CR && s[k] != LF
    decreases |s| - i
  {
    if i == |s| || s[i] == CR || s[i] == LF then i else LineStop(s, i + 1)
  }

  /** The start of the next line if the line at i is empty or a comment. */
  function SkipLine(s: seq<Byte>, i: nat): (r: Option<nat>)
    requires i <= |s|
    ensures r.Some? ==> i < r.value <= |s|
  {
    if Eol(s, i) > 0 then Some(i + Eol(s, i))
    else if i < |s| && s[i] == COLON then
      var stop := LineStop(s, i + 1);
      if Eol(s, stop) > 0 then Some(stop + Eol(s, stop)) else None
    else None
  }

  /** The end of the field name that starts at i. */
  function FieldAt(s: seq<Byte>, i: nat): (r: Option<nat>)
    ensures r.Some? ==> i < r.value <= |s|
  {
    if StartsAt(s, EVENT, i) then Some(i + |EVENT|) else if StartsAt(s, DATA, i) then Some(i + |DATA|) else None
  }

  /** The end of the first field name at a line start i, after empty and comment lines only. */
  function FieldEnd(s: seq<Byte>, i: nat): (r: Option<nat>)
    requires i <= |s|
    ensures r.Some? ==> i < r.value <= |s|
    decreases |s| - i
  {
    if FieldAt(s, i).Some? then FieldAt(s, i)
    else match SkipLine(s, i)
      case None => None
      case Some(next) => FieldEnd(s, next)
  }

  /** `SSE_PREFIX_BYTES_RE`: where its match ends. */
  function PrefixEnd(s: seq<Byte>): (r: Option<nat>)
    ensures r.Some? ==> r.value <= |s|
  {
    FieldEnd(s, if BOM <= s then 3 else 0)
  }

  /** `SSE_DATA_FIELD_BYTES_RE` on one event. */
  predicate HasData(event: seq<Byte>) {
    || StartsAt(event, DATA, 0)
    || (BOM <= event && StartsAt(event, DATA, 3))
    || exists k | 0 <= k < |event| :: event[k] == LF && StartsAt(event, DATA, k + 1)
  }

  /** Where the first event with a data field ends, its blank line included, from the event start i. */
  function DataEventEnd(s: seq<Byte>, i: nat): (r: Option<nat>)
    requires i <= |s|
    ensures r.Some? ==> i < r.value <= |s|
    decreases |s| - i
  {
    var b := FindBlank(s, i);
    if b == |s| then None
    else if HasData(s[i..b]) then Some(b + BlankAt(s, b))
    else DataEventEnd(s, b + BlankAt(s, b))
  }

  /** `SSE_EVENT_MARKER_RE` */
  predicate HasMarker(s: seq<Byte>) {
    || StartsAt(s, EVENT, 0) || StartsAt(s, DATA, 0)
    || exists k | 0 <= k < |s| :: s[k] == LF && (StartsAt(s, EVENT, k + 1) || StartsAt(s, DATA, k + 1))
  }

  // ---- what they say of a prefix --------------------------------------------------------------------

  lemma BlankInPrefix(s: seq<Byte>, n: nat, i: nat)
    requires i <= n <= |s|
    ensures BlankAt(s[..n], i) == if i + BlankAt(s, i) <= n then BlankAt(s, i) else 0
  {
  }

  lemma NothingInsideDelimiter(s: seq<Byte>, n: nat, b: nat, k: nat)
    requires b < k <= n <= |s| && n < b + BlankAt(s, b)
    ensures BlankAt(s[..n], k) == 0
  {
    BlankInPrefix(s, n, k);
  }

  lemma FindBlankInPrefix(s: seq<Byte>, n: nat, i: nat)
    requires i <= n <= |s|
    ensures var b := FindBlank(s, i); FindBlank(s[..n], i) == if b < |s| && b + BlankAt(s, b) <= n then b else n
  {
    var b, c := FindBlank(s, i), FindBlank(s[..n], i);
    forall k | i <= k < n && k < b
      ensures BlankAt(s[..n], k) == 0
    {
      BlankInPrefix(s, n, k);
    }
    if b < |s| && b <= n {
      BlankInPrefix(s, n, b);
      if b + BlankAt(s, b) > n {
        forall k | b < k <= n
          ensures BlankAt(s[..n], k) == 0
        {
          NothingInsideDelimiter(s, n, b, k);
        }
      }
    }
  }

  lemma DataEventStep(s: seq<Byte>, i: nat, b: nat, next: nat)
    requires i <= |s| && b == FindBlank(s, i) && next == b + BlankAt(s, b)
    ensures DataEventEnd(s, i)
         == if b == |s| then None else if HasData(s[i..b]) then Some(next) else DataEventEnd(s, next)
  {
  }

  lemma {:induction false} DataEventEndInPrefix(s: seq<Byte>, n: nat, i: nat)
    requires i <= n <= |s|
    ensures DataEventEnd(s[..n], i) == if Within(DataEventEnd(s, i), n) then DataEventEnd(s, i) else None
    decreases |s| - i
  {
    var t := s[..n];
    var b := FindBlank(s, i);
    var next := b + BlankAt(s, b);
    FindBlankInPrefix(s, n, i);
    DataEventStep(s, i, b, next);
    if b < |s| && next <= n {
      BlankInPrefix(s, n, b);
      assert t[i..b] == s[i..b];
      DataEventStep(t, i, b, next);
      DataEventEndInPrefix(s, n, next);
    } else {
      DataEventStep(t, i, n, n);
    }
  }

  lemma LineStopInPrefix(s: seq<Byte>, n: nat, i: nat)
    requires i <= n <= |s|
    ensures LineStop(s[..n], i) == Min(LineStop(s, i), n)
  {
  }

  lemma StartsAtInPrefix(s: seq<Byte>, n: nat, part: seq<Byte>, i: nat)
    requires n <= |s|
    ensures StartsAt(s[..n], part, i) <==> StartsAt(s, part, i) && i + |part| <= n
  {
    if i + |part| <= n {
      assert s[..n][i..i + |part|] == s[i..i + |part|];
    }
  }

  lemma EolInPrefix(s: seq<Byte>, n: nat, i: nat)
    requires i <= n <= |s|
    ensures Eol(s[..n], i) == if i + Eol(s, i) <= n then Eol(s, i) else 0
  {
  }

  predicate Within(r: Option<nat>, n: nat) {
    r.Some? && r.value <= n
  }

  lemma SkipLineInPrefix(s: seq<Byte>, n: nat, i: nat)
    requires i <= n <= |s|
    ensures SkipLine(s[..n], i) == if Within(SkipLine(s, i), n) then SkipLine(s, i) else None
  {
    EolInPrefix(s, n, i);
    if i < n && s[i] == COLON {
      LineStopInPrefix(s, n, i + 1);
      var stop := LineStop(s, i + 1);
      if stop <= n {
        EolInPrefix(s, n, stop);
      }
    }
  }

  lemma FieldAtInPrefix(s: seq<Byte>, n: nat, i: nat)
    requires i <= n <= |s|
    ensures FieldAt(s[..n], i) == if Within(FieldAt(s, i), n) then FieldAt(s, i) else None
  {
    StartsAtInPrefix(s, n, EVENT, i);
    StartsAtInPrefix(s, n, DATA, i);
    if StartsAt(s, EVENT, i) {
      FieldStart(s, EVENT, i);
      assert !StartsAt(s, DATA, i) by {
        if StartsAt(s, DATA, i) {
          FieldStart(s, DATA, i);
        }
      }
    }
  }

  lemma FieldStart(s: seq<Byte>, part: seq<Byte>, i: nat)
    requires StartsAt(s, part, i) && |part| > 0
    ensures s[i] == part[0]
  {
    assert s[i..i + |part|][0] == part[0];
  }

  /** No line that can be skipped starts with a field name. */
  lemma FieldIsNotSkipped(s: seq<Byte>, i: nat)
    requires i <= |s| && FieldAt(s, i).Some?
    ensures SkipLine(s, i) == None
  {
    if StartsAt(s, EVENT, i) {
      FieldStart(s, EVENT, i);
    } else {
      FieldStart(s, DATA, i);
    }
  }

  lemma {:induction false} FieldEndInPrefix(s: seq<Byte>, n: nat, i: nat)
    requires i <= n <= |s|
    ensures FieldEnd(s[..n], i) == if Within(FieldEnd(s, i), n) then FieldEnd(s, i) else None
    decreases |s| - i
  {
    FieldAtInPrefix(s, n, i);
    SkipLineInPrefix(s, n, i);
    if FieldAt(s, i).Some? {
      FieldIsNotSkipped(s, i);
    } else if Within(SkipLine(s, i), n) {
      FieldEndInPrefix(s, n, SkipLine(s, i).value);
    }
  }

  lemma PrefixEndInPrefix(s: seq<Byte>, n: nat)
    requires n <= |s|
    ensures PrefixEnd(s[..n]) == if Within(PrefixEnd(s), n) then PrefixEnd(s) else None
  {
    if BOM <= s && n < 3 {
      assert n > 0 ==> s[..n][0] == BOM[0];
    } else {
      assert BOM <= s ==> s[..n][..3] == s[..3];
      assert n >= 3 && BOM <= s[..n] ==> s[..3] == s[..n][..3];
      FieldEndInPrefix(s, n, if BOM <= s then 3 else 0);
    }
  }

  // ---- the verdict ------------------------------------------------------------------------------------

  /** What the response headers say. */
  datatype Mode = DeclaredSse | CompressedSse | Inferable | NotSse

  datatype Code = NonSseStreamResponse | SseInferenceLimitExceeded | SseWithoutEvents

  datatype Verdict = Waiting | Committed | Rejected(code: Code)

  /** The verdict on a first data event that ends at `end`. */
  function EventVerdict(end: nat): Verdict {
    if end > INFERRED_EVENT_CAP then Rejected(SseInferenceLimitExceeded) else Committed
  }

  /** What the gate decides when the pending bytes are exactly s. */
  function Judge(mode: Mode, s: seq<Byte>): Verdict {
    match mode
    case CompressedSse => Committed
    case DeclaredSse =>
      if HasMarker(s) then Committed else if |s| > PENDING_CAP then Rejected(SseWithoutEvents) else Waiting
    case NotSse =>
      if |s| > PENDING_CAP then Rejected(NonSseStreamResponse) else Waiting
    case Inferable =>
      if PrefixEnd(s).None? then (if |s| > PENDING_CAP then Rejected(NonSseStreamResponse) else Waiting)
      else match DataEventEnd(s, 0)
        case Some(end) => EventVerdict(end)
        case None => if |s| > INFERRED_EVENT_CAP then Rejected(SseInferenceLimitExceeded) else Waiting
  }

  /** Chunk by chunk: the first decision stands. */
  function OnChunks(mode: Mode, chunks: seq<seq<Byte>>): Verdict {
    if chunks == [] then Waiting
    else
      var before := OnChunks(mode, chunks[..|chunks| - 1]);
      if before != Waiting then before else Judge(mode, Concat(chunks))
  }

  /** What the whole bytes of a headerless response say, the cap on unrecognised bytes aside: commit
      exactly if a field prefix is there and the first data event ends within 8 MiB. */
  function WholeVerdict(s: seq<Byte>): Verdict {
    if PrefixEnd(s).None? then Waiting
    else if Within(DataEventEnd(s, 0), INFERRED_EVENT_CAP) then Committed
    else if |s| > INFERRED_EVENT_CAP then Rejected(SseInferenceLimitExceeded)
    else Waiting
  }

  /** Some chunk boundary lies past the 64 KiB cap but before the end of the field prefix. */
  predicate CutBeforePrefix(chunks: seq<seq<Byte>>, prefix: Option<nat>) {
    chunks != [] &&
    var n := |Concat(chunks)|;
    CutBeforePrefix(chunks[..|chunks| - 1], prefix) || (n > PENDING_CAP && !Within(prefix, n))
  }

  lemma WholeVerdictStands(s: seq<Byte>, n: nat)
    requires n <= |s| && WholeVerdict(s[..n]) != Waiting
    ensures WholeVerdict(s) == WholeVerdict(s[..n])
  {
    PrefixEndInPrefix(s, n);
    DataEventEndInPrefix(s, n, 0);
  }

  lemma {:induction false} UpToHere(chunks: seq<seq<Byte>>, s: seq<Byte>)
    requires Concat(chunks) <= s
    ensures OnChunks(Inferable, chunks)
         == if CutBeforePrefix(chunks, PrefixEnd(s)) then Rejected(NonSseStreamResponse)
            else WholeVerdict(Concat(chunks))
  {
    if chunks != [] {
      var most, all := Concat(chunks[..|chunks| - 1]), Concat(chunks);
      assert all[..|most|] == most && s[..|all|] == all;
      UpToHere(chunks[..|chunks| - 1], s);
      PrefixEndInPrefix(s, |all|);
      if WholeVerdict(most) != Waiting {
        WholeVerdictStands(all, |most|);
        PrefixEndInPrefix(s, |most|);
        assert s[..|most|] == most;
      }
    }
  }

  /** Exactly when chunking matters: every way of cutting a headerless response decides what its
      whole bytes say, unless some cut falls past 64 KiB and before the end of the field prefix;
      then the response is rejected as no SSE. */
  lemma InferenceExactly(chunks: seq<seq<Byte>>)
    ensures OnChunks(Inferable, chunks)
         == if CutBeforePrefix(chunks, PrefixEnd(Concat(chunks))) then Rejected(NonSseStreamResponse)
            else WholeVerdict(Concat(chunks))
  {
    UpToHere(chunks, Concat(chunks));
  }

  lemma {:induction false} EarlyPrefixNeverCut(chunks: seq<seq<Byte>>, prefix: Option<nat>)
    requires Within(prefix, PENDING_CAP)
    ensures !CutBeforePrefix(chunks, prefix)
  {
    if chunks != [] {
      EarlyPrefixNeverCut(chunks[..|chunks| - 1], prefix);
    }
  }

  /** Inference does not depend on chunking: if the field prefix ends within the first 64 KiB, every
      way of cutting the bytes commits exactly if the first complete data event ends within 8 MiB,
      and otherwise every way gives the same rejection. */
  lemma InferenceIgnoresChunking(chunks: seq<seq<Byte>>)
    requires var s := Concat(chunks); PrefixEnd(s[..Min(|s|, PENDING_CAP)]).Some?
    ensures OnChunks(Inferable, chunks) == WholeVerdict(Concat(chunks))
    ensures OnChunks(Inferable, chunks) == Committed <==> Within(DataEventEnd(Concat(chunks), 0), INFERRED_EVENT_CAP)
  {
    var s := Concat(chunks);
    PrefixEndInPrefix(s, Min(|s|, PENDING_CAP));
    EarlyPrefixNeverCut(chunks, PrefixEnd(s));
    InferenceExactly(chunks);
  }

  /** Past 64 KiB of preamble it does depend: one chunk commits what two chunks reject. */
  lemma LatePrefixDependsOnChunking(s: seq<Byte>, n: nat)
    requires WholeVerdict(s) == Committed && PENDING_CAP < n < PrefixEnd(s).value
    ensures OnChunks(Inferable, [s]) == Committed
    ensures OnChunks(Inferable, [s[..n], s[n..]]) == Rejected(NonSseStreamResponse)
  {
    var one, two := [s], [s[..n], s[n..]];
    assert one[..0] == [] && two[..1] == [s[..n]] && [s[..n]][..0] == [];
    assert Concat(one) == s && Concat(two[..1]) == s[..n];
    PrefixEndInPrefix(s, n);
  }

  /** A comment of n bytes and an empty data event. */
  function CommentThenData(n: nat): seq<Byte> {
    [COLON] + seq(n, _ => SPACE) + [LF] + DATA + [LF, LF]
  }

  lemma CommentThenDataBytes(n: nat)
    ensures var s := CommentThenData(n);
            && |s| == n + 9 && s[0] == COLON && s[n + 1] == LF && s[n + 7] == LF && s[n + 8] == LF
            && (forall k | 1 <= k < n + 1 :: s[k] == SPACE) && StartsAt(s, DATA, n + 2)
            && forall k | n + 2 <= k < n + 7 :: s[k] != LF && s[k] != CR
  {
    var s := CommentThenData(n);
    assert s[n + 2..n + 7] == DATA;
    assert forall k | n + 2 <= k < n + 7 :: s[k] == DATA[k - n - 2];
  }

  lemma CommentThenDataPrefix(n: nat)
    ensures PrefixEnd(CommentThenData(n)) == Some(n + 7)
  {
    hide CommentThenData, LineStop;
    CommentThenDataBytes(n);
    var s := CommentThenData(n);
    FieldStartsWith(s, DATA, 0);
    FieldStartsWith(s, EVENT, 0);
    FieldStartsWith(s, EVENT, n + 2);
    FieldStartsWith(s, DATA, n + 2);
    assert s[0] != BOM[0];
    assert SkipLine(s, 0) == Some(n + 2);
    assert FieldAt(s, 0) == None && FieldAt(s, n + 2) == Some(n + 7);
    assert FieldEnd(s, n + 2) == Some(n + 7);
  }

  lemma CommentThenDataEvent(n: nat)
    ensures DataEventEnd(CommentThenData(n), 0) == Some(n + 9)
  {
    hide CommentThenData, FindBlank;
    CommentThenDataBytes(n);
    var s := CommentThenData(n);
    assert BlankAt(s, n + 7) == 2;
    assert forall k | 0 <= k < n + 7 :: BlankAt(s, k) == 0;
    var event := s[0..n + 7];
    assert event[n + 1] == LF && event[n + 2..n + 7] == s[n + 2..n + 7];
    assert StartsAt(event, DATA, n + 2);
    DataEventStep(s, 0, n + 7, n + 9);
  }

  lemma FieldStartsWith(s: seq<Byte>, part: seq<Byte>, i: nat)
    ensures StartsAt(s, part, i) && part != [] ==> s[i] == part[0]
  {
    assert StartsAt(s, part, i) && part != [] ==> s[i..i + |part|][0] == s[i];
  }

  /** Such bytes: a comment of 64 KiB in front of the first field, cut right behind its text. */
  lemma LatePrefixExample()
    ensures var s := CommentThenData(PENDING_CAP);
            && OnChunks(Inferable, [s]) == Committed
            && OnChunks(Inferable, [s[..PENDING_CAP + 1], s[PENDING_CAP + 1..]]) == Rejected(NonSseStreamResponse)
  {
    hide PrefixEnd, DataEventEnd, CommentThenData, OnChunks;
    CommentThenDataPrefix(PENDING_CAP);
    CommentThenDataEvent(PENDING_CAP);
    LatePrefixDependsOnChunking(CommentThenData(PENDING_CAP), PENDING_CAP + 1);
  }

  // ---- a declared SSE response ----------------------------------------------------------------------

  lemma MarkerStays(s: seq<Byte>, more: seq<Byte>)
    requires HasMarker(s)
    ensures HasMarker(s + more)
  {
    assert forall part, i: nat | StartsAt(s, part, i) :: (s + more)[i..i + |part|] == s[i..i + |part|];
    if k :| 0 <= k < |s| && s[k] == LF && (StartsAt(s, EVENT, k + 1) || StartsAt(s, DATA, k + 1)) {
      assert (s + more)[k] == LF;
      assert StartsAt(s, EVENT, k + 1) ==> StartsAt(s + more, EVENT, k + 1);
      assert StartsAt(s, DATA, k + 1) ==> StartsAt(s + more, DATA, k + 1);
    }
  }

  /** Some chunk boundary lies past 64 KiB with no marker before it. */
  predicate CutBeforeMarker(chunks: seq<seq<Byte>>) {
    chunks != [] && (CutBeforeMarker(chunks[..|chunks| - 1])
        || (|Concat(chunks)| > PENDING_CAP && !HasMarker(Concat(chunks))))
  }

  /** With a declared type every cutting commits exactly if the bytes have a marker, unless a cut
      falls past 64 KiB and before it. */
  lemma {:induction false} DeclaredExactly(chunks: seq<seq<Byte>>)
    ensures OnChunks(DeclaredSse, chunks)
         == if CutBeforeMarker(chunks) then Rejected(SseWithoutEvents)
            else if HasMarker(Concat(chunks)) then Committed else Waiting
  {
    if chunks == [] {
      assert !HasMarker([]);
    } else {
      var most := chunks[..|chunks| - 1];
      DeclaredExactly(most);
      if HasMarker(Concat(most)) {
        MarkerStays(Concat(most), chunks[|chunks| - 1]);
      }
    }
  }

  // ---- the incremental scanner -----------------------------------------------------------------------

  /** From one event start to another, over complete events without a data field. */
  predicate Skips(s: seq<Byte>, from: nat, start: nat)
    requires from <= |s|
    decreases |s| - from
  {
    from == start ||
    var b := FindBlank(s, from);
    b < |s| && !HasData(s[from..b]) && Skips(s, b + BlankAt(s, b), start)
  }

  lemma {:induction false} SkipsKeepEnd(s: seq<Byte>, from: nat, start: nat)
    requires from <= |s| && start <= |s| && Skips(s, from, start)
    ensures DataEventEnd(s, from) == DataEventEnd(s, start)
    decreases |s| - from
  {
    if from != start {
      var b := FindBlank(s, from);
      var next := b + BlankAt(s, b);
      assert Skips(s, next, start) && !HasData(s[from..b]);
      DataEventStep(s, from, b, next);
      SkipsKeepEnd(s, next, start);
    }
  }

  lemma {:induction false} SkipsOne(s: seq<Byte>, from: nat, start: nat, next: nat)
    requires from <= |s| && start <= |s| && Skips(s, from, start)
    requires var b := FindBlank(s, start); b < |s| && !HasData(s[start..b]) && next == b + BlankAt(s, b)
    ensures Skips(s, from, next)
    decreases |s| - from
  {
    hide HasData;
    if from != start {
      var b := FindBlank(s, from);
      SkipsOne(s, b + BlankAt(s, b), start, next);
    } else {
      assert Skips(s, next, next);
    }
  }

  lemma {:induction false} SkipsStay(s: seq<Byte>, n: nat, from: nat, start: nat)
    requires from <= n <= |s| && start <= n && Skips(s[..n], from, start)
    ensures Skips(s, from, start)
    decreases |s| - from
  {
    hide HasData, FindBlank, BlankAt;
    if from != start {
      var b := FindBlank(s, from);
      FindBlankInPrefix(s, n, from);
      BlankInPrefix(s, n, b);
      assert s[..n][from..b] == s[from..b];
      SkipsStay(s, n, b + BlankAt(s, b), start);
    }
  }

  /** No delimiter starts in [i, j), whatever bytes follow. */
  predicate NoneUntil(s: seq<Byte>, i: nat, j: nat) {
    i <= j <= |s| && (i < j ==> j + 3 <= |s|) && forall k | i <= k < j :: BlankAt(s, k) == 0
  }

  lemma SearchFromHere(s: seq<Byte>, i: nat, j: nat)
    requires NoneUntil(s, i, j)
    ensures FindBlank(s, i) == FindBlank(s, j)
  {
  }

  lemma NoneUntilStays(s: seq<Byte>, n: nat, i: nat, j: nat)
    requires n <= |s| && NoneUntil(s[..n], i, j)
    ensures NoneUntil(s, i, j)
  {
    forall k | i <= k < j
      ensures BlankAt(s, k) == 0
    {
      assert BlankAt(s[..n], k) == 0;
      BlankInPrefix(s, n, k);
    }
  }

  lemma NoBoundary(s: seq<Byte>, start: nat)
    requires start <= |s| && FindBlank(s, start) == |s|
    ensures DataEventEnd(s, start) == None && NoneUntil(s, start, NextSearch(s, start))
  {
    DataEventStep(s, start, |s|, |s|);
  }

  /** What one boundary tells the scanner. */
  lemma AtBoundary(s: seq<Byte>, start: nat, search: nat, b: nat, next: nat)
    requires start <= |s| && Skips(s, 0, start) && NoneUntil(s, start, search)
    requires b == FindBlank(s, search) && next == b + BlankAt(s, b)
    ensures start <= b
    ensures b == |s| ==> DataEventEnd(s, 0) == None && NoneUntil(s, start, NextSearch(s, start))
    ensures b < |s| && HasData(s[start..b]) ==> DataEventEnd(s, 0) == Some(next)
    ensures b < |s| && !HasData(s[start..b]) ==> Skips(s, 0, next)
  {
    SearchFromHere(s, start, search);
    SkipsKeepEnd(s, 0, start);
    if b == |s| {
      NoBoundary(s, start);
    } else if HasData(s[start..b]) {
      DataEventStep(s, start, b, next);
    } else {
      SkipsOne(s, 0, start, next);
    }
  }

  /** All but the last three bytes are settled. */
  function NextSearch(s: seq<Byte>, start: nat): nat {
    if |s| >= 3 && |s| - 3 > start then |s| - 3 else start
  }

  class StreamGate {
    const mode: Mode
    var pending: seq<Byte>
    var pendingBytes: nat
    var inferredSseEventStart: nat
    var inferredSseBoundarySearchOffset: nat
    var inferredSseEventBytes: nat
    var verdict: Verdict
    ghost var chunks: seq<seq<Byte>>

    /** While undecided: the scanner has skipped complete events without data, and knows that no
        delimiter starts between the current event and its search offset. */
    ghost predicate Valid()
      reads this
    {
      && verdict == OnChunks(mode, chunks)
      && (verdict == Waiting ==>
            && pending == Concat(chunks) && pendingBytes == |pending|
            && ScanValid())
    }

    constructor (mode: Mode)
      ensures Valid() && chunks == [] && verdict == Waiting && this.mode == mode
    {
      this.mode := mode;
      pending, pendingBytes, inferredSseEventStart, inferredSseBoundarySearchOffset := [], 0, 0, 0;
      inferredSseEventBytes, verdict, chunks := 0, Waiting, [];
    }

    /** The earliest of the four delimiters from an offset on. */
    static method NextBoundary(s: seq<Byte>, from: nat) returns (offset: nat, length: nat)
      requires from <= |s|
      ensures offset == FindBlank(s, from) && length == BlankAt(s, offset)
    {
      var delimiters := [[LF, LF], [LF, CR, LF], [CR, LF, LF], [CR, LF, CR, LF]];
      offset, length := |s|, 0;
      var n := 0;
      while n < 4
        invariant n <= 4 && from <= offset <= |s| && length == BlankAt(s, offset)
        invariant offset < |s| ==> length > 0
        invariant forall k, j | from <= k < offset && 0 <= j < n :: !StartsAt(s, delimiters[j], k)
      {
        var at := FirstAt(s, delimiters[n], from);
        if at < offset {
          offset, length := at, |delimiters[n]|;
          DelimiterIsBlank(s, delimiters[n], at);
        }
        n := n + 1;
      }
      forall k | from <= k < offset
        ensures BlankAt(s, k) == 0
      {
        assert !StartsAt(s, delimiters[0], k) && !StartsAt(s, delimiters[1], k);
        assert !StartsAt(s, delimiters[2], k) && !StartsAt(s, delimiters[3], k);
        BlankIsDelimiter(s, k);
      }
    }

    /** The scan of newly arrived bytes from an event start and a search offset: where the first
        data event ends, or the new event start and search offset. */
    static method Scan(text: seq<Byte>, eventStart: nat, searchOffset: nat, eventBytes: nat)
      returns (start: nat, search: nat, bytes: nat, found: bool)
      requires eventStart <= |text| && eventBytes == eventStart
      requires Skips(text, 0, eventStart) && NoneUntil(text, eventStart, searchOffset)
      ensures start <= |text| && bytes == start
      ensures found ==> DataEventEnd(text, 0) == Some(start)
      ensures !found ==> DataEventEnd(text, 0) == None && Skips(text, 0, start) && NoneUntil(text, start, search)
    {
      hide Skips, DataEventEnd, HasData, FindBlank;
      start, search, bytes, found := eventStart, searchOffset, eventBytes, false;
      while true
        invariant start <= |text| && bytes == start
        invariant Skips(text, 0, start) && NoneUntil(text, start, search)
        decreases |text| - start
      {
        var offset, length := NextBoundary(text, search);
        AtBoundary(text, start, search, offset, offset + length);
        if offset == |text| {
          search := NextSearch(text, start);
          return;
        }
        var hasData := HasData(text[start..offset]);
        bytes := bytes + (offset + length - start);
        start := offset + length;
        search := start;
        if hasData {
          found := true;
          return;
        }
      }
    }

    /** The scanner's part of the invariant. */
    ghost predicate ScanValid()
      reads this
    {
      && inferredSseEventStart <= |pending| && inferredSseEventBytes == inferredSseEventStart
      && Skips(pending, 0, inferredSseEventStart)
      && NoneUntil(pending, inferredSseEventStart, inferredSseBoundarySearchOffset)
    }

    method Infer()
      requires ScanValid() && verdict == Waiting && pendingBytes == |pending|
      modifies `inferredSseEventStart, `inferredSseBoundarySearchOffset, `inferredSseEventBytes, `verdict
      ensures verdict == Judge(Inferable, pending) && (verdict == Waiting ==> ScanValid())
    {
      var hasSsePrefix := PrefixEnd(pending).Some?;
      if hasSsePrefix {
        var start, search, bytes, found :=
          Scan(pending, inferredSseEventStart, inferredSseBoundarySearchOffset, inferredSseEventBytes);
        inferredSseEventStart, inferredSseBoundarySearchOffset, inferredSseEventBytes := start, search, bytes;
        if found {
          verdict := EventVerdict(inferredSseEventBytes);
          return;
        }
      }
      var pendingCap := if hasSsePrefix then INFERRED_EVENT_CAP else PENDING_CAP;
      if pendingBytes > pendingCap {
        verdict := Rejected(if hasSsePrefix then SseInferenceLimitExceeded else NonSseStreamResponse);
      }
    }

    method OnData(chunk: seq<Byte>)
      requires Valid()
      modifies this
      ensures Valid() && chunks == old(chunks) + [chunk]
    {
      ConcatSnoc(chunks, chunk);
      assert (chunks + [chunk])[..|chunks|] == chunks;
      chunks := chunks + [chunk];
      if verdict != Waiting {
        return;
      }
      GrowsValid(chunk);
      pending := pending + chunk;
      pendingBytes := pendingBytes + |chunk|;
      match mode
      case CompressedSse => verdict := Committed;
      case DeclaredSse =>
        if HasMarker(pending) {
          verdict := Committed;
        } else if pendingBytes > PENDING_CAP {
          verdict := Rejected(SseWithoutEvents);
        }
      case NotSse =>
        if pendingBytes > PENDING_CAP {
          verdict := Rejected(NonSseStreamResponse);
        }
      case Inferable => Infer();
    }

    lemma GrowsValid(chunk: seq<Byte>)
      requires inferredSseEventStart <= |pending| && Skips(pending, 0, inferredSseEventStart)
      requires NoneUntil(pending, inferredSseEventStart, inferredSseBoundarySearchOffset)
      ensures Skips(pending + chunk, 0, inferredSseEventStart)
      ensures NoneUntil(pending + chunk, inferredSseEventStart, inferredSseBoundarySearchOffset)
    {
      assert (pending + chunk)[..|pending|] == pending;
      SkipsStay(pending + chunk, |pending|, 0, inferredSseEventStart);
      NoneUntilStays(pending + chunk, |pending|, inferredSseEventStart, inferredSseBoundarySearchOffset);
    }
  }

  /** `s.indexOf(part, from)`, with the length of s instead of -1. */
  method FirstAt(s: seq<Byte>, part: seq<Byte>, from: nat) returns (n: nat)
    requires from <= |s| && part != []
    ensures from <= n <= |s| && (n < |s| ==> StartsAt(s, part, n))
    ensures forall k | from <= k < n :: !StartsAt(s, part, k)
  {
    n := from;
    while n < |s| && !StartsAt(s, part, n)
      invariant from <= n <= |s| && forall k | from <= k < n :: !StartsAt(s, part, k)
    {
      n := n + 1;
    }
  }

  lemma DelimiterIsBlank(s: seq<Byte>, d: seq<Byte>, i: nat)
    requires d in [[LF, LF], [LF, CR, LF], [CR, LF, LF], [CR, LF, CR, LF]] && StartsAt(s, d, i)
    ensures BlankAt(s, i) == |d|
  {
    assert forall k | 0 <= k < |d| :: s[i + k] == s[i..i + |d|][k] == d[k];
  }

  lemma BlankIsDelimiter(s: seq<Byte>, i: nat)
    requires i <= |s|
    ensures BlankAt(s, i) > 0 ==>
              StartsAt(s, [LF, LF], i) || StartsAt(s, [LF, CR, LF], i) || StartsAt(s, [CR, LF, LF], i)
                  || StartsAt(s, [CR, LF, CR, LF], i)
  {
  }
}
