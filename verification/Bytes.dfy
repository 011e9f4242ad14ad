/** Octets, and the cutting of a stream into lines that the transform and the event loop share. */
module Bytes {
  newtype Byte = x: int | 0 <= x < 256

  const LF: Byte := 0x0a
  const CR: Byte := 0x0d
  const SPACE: Byte := 0x20
  const TAB: Byte := 0x09
  const COLON: Byte := 0x3a
  const OPEN_BRACE: Byte := 0x7b
  const BOM: seq<Byte> := [0xef, 0xbb, 0xbf]

  function Ascii(s: string): (b: seq<Byte>)
    requires forall i | 0 <= i < |s| :: s[i] as int < 128
    ensures |b| == |s| && forall i | 0 <= i < |s| :: b[i] as int == s[i] as int
  {
    seq(|s|, i requires 0 <= i < |s| => s[i] as int as Byte)
  }

  function Concat<T>(parts: seq<seq<T>>): seq<T> {
    if parts == [] then [] else Concat(parts[..|parts| - 1]) + parts[|parts| - 1]
  }

  lemma ConcatSnoc<T>(parts: seq<seq<T>>, part: seq<T>)
    ensures Concat(parts + [part]) == Concat(parts) + part
  {
    assert (parts + [part])[..|parts|] == parts;
  }

  lemma ConcatFew<T>(part: seq<T>)
    ensures Concat<T>([]) == [] && Concat([part]) == part
  {
    assert [part][..0] == [];
  }

  lemma {:induction false} ConcatAppend<T>(a: seq<seq<T>>, b: seq<seq<T>>)
    ensures Concat(a + b) == Concat(a) + Concat(b)
  {
    if b == [] {
      assert a + b == a;
    } else {
      ConcatAppend(a, b[..|b| - 1]);
      assert (a + b)[..|a + b| - 1] == a + b[..|b| - 1];
    }
  }

  /** `s.indexOf(x, from)`, with the length of s instead of -1. */
  function IndexOf<T(==)>(s: seq<T>, x: T, from: nat): (n: nat)
    requires from <= |s|
    ensures from <= n <= |s| && (n < |s| ==> s[n] == x) && forall k | from <= k < n :: s[k] != x
    decreases |s| - from
  {
    if from == |s| || s[from] == x then from else IndexOf(s, x, from + 1)
  }

  /** The terminated lines of s, each with its newline. */
  function Lines<T(==)>(newline: T, s: seq<T>): seq<seq<T>>
    decreases |s|
  {
    var n := IndexOf(s, newline, 0);
    if n == |s| then [] else [s[..n + 1]] + Lines(newline, s[n + 1..])
  }

  /** What follows the last newline. */
  function Rest<T(==)>(newline: T, s: seq<T>): seq<T>
    decreases |s|
  {
    var n := IndexOf(s, newline, 0);
    if n == |s| then s else Rest(newline, s[n + 1..])
  }

  lemma FirstLine<T>(newline: T, line: seq<T>, s: seq<T>)
    requires newline !in line
    ensures Lines(newline, line + [newline] + s) == [line + [newline]] + Lines(newline, s)
    ensures Rest(newline, line + [newline] + s) == Rest(newline, s)
  {
    var all := line + [newline] + s;
    var n := IndexOf(all, newline, 0);
    assert all[|line|] == newline;
    assert forall k | 0 <= k < |line| :: all[k] == line[k] && line[k] in line;
    assert n == |line|;
    assert all[..n + 1] == line + [newline] && all[n + 1..] == s;
  }

  /** Cutting can stop anywhere and go on later from the unfinished line. */
  lemma {:induction false} CutAnywhere<T>(newline: T, a: seq<T>, b: seq<T>)
    ensures Lines(newline, a + b) == Lines(newline, a) + Lines(newline, Rest(newline, a) + b)
    ensures Rest(newline, a + b) == Rest(newline, Rest(newline, a) + b)
    decreases |a|
  {
    var n := IndexOf(a, newline, 0);
    if n < |a| {
      var line, later := a[..n], a[n + 1..];
      assert newline !in line && a == line + [newline] + later && a + b == line + [newline] + (later + b);
      FirstLine(newline, line, later);
      FirstLine(newline, line, later + b);
      CutAnywhere(newline, later, b);
      Regroup([line + [newline]], Lines(newline, later), Lines(newline, Rest(newline, later) + b));
    }
  }

  lemma Regroup<T>(a: seq<T>, b: seq<T>, c: seq<T>)
    ensures a + (b + c) == a + b + c
  {
  }

  /** The unfinished line is a newline-free end of the stream. */
  lemma {:induction false} RestIsSuffix<T>(newline: T, s: seq<T>)
    ensures newline !in Rest(newline, s) && |Rest(newline, s)| <= |s|
            && s[|s| - |Rest(newline, s)|..] == Rest(newline, s)
    decreases |s|
  {
    var n := IndexOf(s, newline, 0);
    if n < |s| {
      RestIsSuffix(newline, s[n + 1..]);
    }
  }

  /** Cutting loses nothing. */
  lemma {:induction false} LinesAndRest<T>(newline: T, s: seq<T>)
    ensures Concat(Lines(newline, s)) + Rest(newline, s) == s
    decreases |s|
  {
    hide Concat;
    var n := IndexOf(s, newline, 0);
    if n == |s| {
      ConcatFew(s);
    } else {
      var line, later := s[..n + 1], s[n + 1..];
      LinesAndRest(newline, later);
      ConcatAppend([line], Lines(newline, later));
      ConcatFew(line);
      Regroup(line, Concat(Lines(newline, later)), Rest(newline, later));
    }
  }

  // ---- line ends and blank lines ------------------------------------------------------------------

  /** The length of a match of `\r?\n` at i, 0 if there is none. */
  function EolAt<T(==)>(cr: T, lf: T, s: seq<T>, i: nat): (n: nat)
    requires i <= |s|
    ensures i + n <= |s|
  {
    if i < |s| && s[i] == lf then 1
    else if i + 1 < |s| && s[i] == cr && s[i + 1] == lf then 2
    else 0
  }

  /** The same for `\r?\n\r?\n`. */
  function BlankLineAt<T(==)>(cr: T, lf: T, s: seq<T>, i: nat): (n: nat)
    requires i <= |s|
    ensures i + n <= |s| && (n == 0 || 2 <= n <= 4)
  {
    var first := EolAt(cr, lf, s, i);
    if first == 0 then 0 else
    var second := EolAt(cr, lf, s, i + first);
    if second == 0 then 0 else first + second
  }

  // ---- cutting with an index that moves through the buffer --------------------------------------

  lemma CutFirst<T>(newline: T, buf: seq<T>, start: nat, nl: nat)
    requires start <= nl < |buf| && nl == IndexOf(buf, newline, start)
    ensures Lines(newline, buf[start..]) == [buf[start..nl + 1]] + Lines(newline, buf[nl + 1..])
    ensures Rest(newline, buf[start..]) == Rest(newline, buf[nl + 1..])
  {
    assert buf[start..] == buf[start..nl] + [newline] + buf[nl + 1..];
    assert buf[start..nl + 1] == buf[start..nl] + [newline];
    FirstLine(newline, buf[start..nl], buf[nl + 1..]);
  }

  /** How far the scan of buf has come: the lines in front of `start` are `done`. */
  ghost predicate Scanned<T>(newline: T, buf: seq<T>, start: nat, done: seq<seq<T>>) {
    && start <= |buf|
    && Lines(newline, buf) == done + Lines(newline, buf[start..])
    && Rest(newline, buf) == Rest(newline, buf[start..])
  }

  lemma ScanStarts<T>(newline: T, buf: seq<T>)
    ensures Scanned(newline, buf, 0, [])
  {
    assert buf[0..] == buf;
  }

  lemma ScanAdvances<T>(newline: T, buf: seq<T>, start: nat, nl: nat, done: seq<seq<T>>)
    requires Scanned(newline, buf, start, done) && nl == IndexOf(buf, newline, start) < |buf|
    ensures Scanned(newline, buf, nl + 1, done + [buf[start..nl + 1]])
  {
    CutFirst(newline, buf, start, nl);
    Regroup(done, [buf[start..nl + 1]], Lines(newline, buf[nl + 1..]));
  }

  lemma ScanEnds<T>(newline: T, buf: seq<T>, start: nat, done: seq<seq<T>>)
    requires Scanned(newline, buf, start, done) && IndexOf(buf, newline, start) == |buf|
    ensures done == Lines(newline, buf) && buf[start..] == Rest(newline, buf)
  {
    var tail := buf[start..];
    assert forall k | 0 <= k < |tail| :: tail[k] == buf[start + k] != newline;
    assert done + [] == done;
  }

  predicate PartAt(s: seq<Byte>, part: seq<Byte>, i: nat)
    requires i + |part| <= |s|
  {
    s[i..i + |part|] == part
  }

  predicate Contains(s: seq<Byte>, part: seq<Byte>) {
    exists i | 0 <= i <= |s| - |part| :: PartAt(s, part, i)
  }

  function Min(a: int, b: int): int {
    if a < b then a else b
  }
}
