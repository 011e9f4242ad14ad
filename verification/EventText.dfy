/** Event streams as text: which lines they have decides what the stream gate makes of their bytes. */
module EventTexts {
  import opened Protocol
  import opened Bytes
  import opened StreamGates

  /** One line and how it ends. */
  datatype Line = Line(text: seq<Byte>, crlf: bool)

  /** An event and how its blank line ends. */
  datatype Event = Event(lines: seq<Line>, crlf: bool)

  predicate Plain(text: seq<Byte>) {
    text != [] && forall b <- text :: b != CR && b != LF
  }

  predicate ValidLines(lines: seq<Line>) {
    lines != [] && forall k | 0 <= k < |lines| :: Plain(lines[k].text)
  }

  predicate ValidEvents(events: seq<Event>) {
    forall k | 0 <= k < |events| :: ValidLines(events[k].lines)
  }

  function LineEnd(crlf: bool): seq<Byte> {
    if crlf then [CR, LF] else [LF]
  }

  function PrintLines(lines: seq<Line>): seq<Byte> {
    if lines == [] then [] else lines[0].text + (LineEnd(lines[0].crlf) + PrintLines(lines[1..]))
  }

  function PrintEvent(e: Event): seq<Byte> {
    PrintLines(e.lines) + LineEnd(e.crlf)
  }

  function PrintEvents(events: seq<Event>): seq<Byte> {
    if events == [] then [] else PrintEvent(events[0]) + PrintEvents(events[1..])
  }

  // ---- what the lines say --------------------------------------------------------------------------

  /** A line without the byte order mark that may stand in front of an event. */
  function Bare(text: seq<Byte>): seq<Byte> {
    if BOM <= text then text[3..] else text
  }

  /** Some line is a data field. */
  predicate HasDataLine(lines: seq<Line>) {
    lines != [] && (DATA <= Bare(lines[0].text) || LaterLine(lines, DATA))
  }

  /** Some line after the first starts with the name. */
  predicate LaterLine(lines: seq<Line>, name: seq<Byte>) {
    exists k | 1 <= k < |lines| :: name <= lines[k].text
  }

  /** The first event with a data field. */
  function FirstData(events: seq<Event>): (n: nat)
    ensures n <= |events| && (n < |events| ==> HasDataLine(events[n].lines))
    ensures forall k | 0 <= k < n :: !HasDataLine(events[k].lines)
  {
    if events == [] || HasDataLine(events[0].lines) then 0 else 1 + FirstData(events[1..])
  }

  // ---- line ends in bytes ----------------------------------------------------------------------------

  /** s goes on with the part at i. */
  predicate At(s: seq<Byte>, i: nat, part: seq<Byte>) {
    i + |part| <= |s| && s[i..i + |part|] == part
  }

  lemma AtParts(s: seq<Byte>, i: nat, a: seq<Byte>, b: seq<Byte>)
    requires At(s, i, a + b)
    ensures At(s, i, a) && At(s, i + |a|, b)
  {
    assert (a + b)[..|a|] == a && (a + b)[|a|..] == b;
    assert s[i..i + |a + b|][..|a|] == s[i..i + |a|];
    assert s[i..i + |a + b|][|a|..] == s[i + |a|..i + |a| + |b|];
  }

  lemma AtByte(s: seq<Byte>, i: nat, part: seq<Byte>, k: nat)
    requires At(s, i, part) && k < |part|
    ensures s[i + k] == part[k]
  {
    assert s[i..i + |part|][k] == s[i + k];
  }

  lemma EolHere(s: seq<Byte>, i: nat, crlf: bool)
    requires At(s, i, LineEnd(crlf))
    ensures i <= |s| && Eol(s, i) == |LineEnd(crlf)|
  {
    AtByte(s, i, LineEnd(crlf), 0);
    if crlf {
      AtByte(s, i, LineEnd(crlf), 1);
    }
  }

  lemma NoEolInText(s: seq<Byte>, i: nat, text: seq<Byte>, k: nat)
    requires At(s, i, text) && Plain(text) && k < |text|
    ensures i + k <= |s| && Eol(s, i + k) == 0 && BlankAt(s, i + k) == 0
  {
    AtByte(s, i, text, k);
    assert text[k] in text;
  }

  lemma FindsFrom(s: seq<Byte>, i: nat, j: nat)
    requires i <= j <= |s| && forall k | i <= k < j :: BlankAt(s, k) == 0
    ensures FindBlank(s, i) == FindBlank(s, j)
  {
  }

  /** The end of the last line's text, in front of the blank line. */
  function BodyLength(lines: seq<Line>): nat
    requires lines != []
  {
    if |lines| == 1 then |lines[0].text|
    else |lines[0].text| + |LineEnd(lines[0].crlf)| + BodyLength(lines[1..])
  }

  lemma TailValid(lines: seq<Line>)
    requires ValidLines(lines) && |lines| > 1
    ensures ValidLines(lines[1..])
  {
  }

  /** A line end that is not the last of its event is no blank line. */
  lemma NoBlankAfterLine(s: seq<Byte>, i: nat, crlf: bool, text: seq<Byte>)
    requires At(s, i, LineEnd(crlf)) && At(s, i + |LineEnd(crlf)|, text) && Plain(text)
    ensures forall k | i <= k < i + |LineEnd(crlf)| :: BlankAt(s, k) == 0
  {
    EolHere(s, i, crlf);
    NoEolInText(s, i + |LineEnd(crlf)|, text, 0);
    if crlf {
      AtByte(s, i, LineEnd(crlf), 1);
    }
  }

  /** Up to the end of a line's text no blank line starts. */
  lemma ThroughText(s: seq<Byte>, i: nat, text: seq<Byte>)
    requires At(s, i, text) && Plain(text)
    ensures i + |text| <= |s| && FindBlank(s, i) == FindBlank(s, i + |text|)
  {
    hide FindBlank, BlankAt, Plain;
    forall k | i <= k < i + |text|
      ensures k <= |s| && BlankAt(s, k) == 0
    {
      NoEolInText(s, i, text, k - i);
    }
    FindsFrom(s, i, i + |text|);
  }

  /** Nor through the end of a line that another line follows. */
  lemma ThroughLine(s: seq<Byte>, i: nat, text: seq<Byte>, crlf: bool, next: seq<Byte>)
    requires At(s, i, text) && Plain(text) && At(s, i + |text|, LineEnd(crlf))
    requires Plain(next) && At(s, i + |text| + |LineEnd(crlf)|, next)
    ensures i + |text| + |LineEnd(crlf)| <= |s|
    ensures FindBlank(s, i) == FindBlank(s, i + |text| + |LineEnd(crlf)|)
  {
    hide FindBlank, BlankAt, Plain;
    ThroughText(s, i, text);
    NoBlankAfterLine(s, i + |text|, crlf, next);
    FindsFrom(s, i + |text|, i + |text| + |LineEnd(crlf)|);
  }

  lemma PrintStep(lines: seq<Line>)
    requires lines != []
    ensures PrintLines(lines) == lines[0].text + (LineEnd(lines[0].crlf) + PrintLines(lines[1..]))
  {
  }

  lemma PartsOfLines(s: seq<Byte>, i: nat, lines: seq<Line>, crlf: bool)
    requires lines != [] && At(s, i, PrintLines(lines) + LineEnd(crlf))
    ensures var text, end := lines[0].text, LineEnd(lines[0].crlf);
            && At(s, i, text) && At(s, i + |text|, end)
            && At(s, i + |text| + |end|, PrintLines(lines[1..]) + LineEnd(crlf))
            && |PrintLines(lines)| == |text| + |end| + |PrintLines(lines[1..])|
  {
    hide At, PrintLines, LineEnd;
    PrintStep(lines);
    LineHere(s, i, lines[0].text, LineEnd(lines[0].crlf), PrintLines(lines[1..]), LineEnd(crlf));
  }

  lemma LineHere(s: seq<Byte>, i: nat, text: seq<Byte>, end: seq<Byte>, rest: seq<Byte>, blank: seq<Byte>)
    requires At(s, i, text + (end + rest) + blank)
    ensures At(s, i, text) && At(s, i + |text|, end) && At(s, i + |text| + |end|, rest + blank)
  {
    hide At;
    AtParts(s, i, text + (end + rest), blank);
    AtParts(s, i, text, end + rest);
    AtParts(s, i + |text|, end, rest);
    AtJoin(s, i + |text| + |end|, rest, blank);
  }

  /** The first delimiter behind the start of an event is its blank line. */
  lemma {:induction false} BlankOfEvent(s: seq<Byte>, i: nat, lines: seq<Line>, crlf: bool)
    requires ValidLines(lines) && At(s, i, PrintLines(lines) + LineEnd(crlf))
    ensures i <= |s| && FindBlank(s, i) == i + BodyLength(lines) < |s|
    ensures BodyLength(lines) + BlankAt(s, i + BodyLength(lines)) == |PrintLines(lines)| + |LineEnd(crlf)|
    ensures BlankAt(s, i + BodyLength(lines)) > 0
    decreases |lines|
  {
    hide FindBlank, BlankAt, At, PrintLines, LineEnd, Plain;
    var text, end := lines[0].text, LineEnd(lines[0].crlf);
    PartsOfLines(s, i, lines, crlf);
    Ends();
    if |lines| == 1 {
      NoMoreLines(lines, crlf);
      ThroughText(s, i, text);
      TwoEnds(s, i + |text|, lines[0].crlf, crlf);
    } else {
      TailValid(lines);
      PartsOfLines(s, i + |text| + |end|, lines[1..], crlf);
      ThroughLine(s, i, text, lines[0].crlf, lines[1].text);
      BlankOfEvent(s, i + |text| + |end|, lines[1..], crlf);
    }
  }

  lemma Ends()
    ensures |LineEnd(true)| == 2 && |LineEnd(false)| == 1
  {
  }

  lemma NoMoreLines(lines: seq<Line>, crlf: bool)
    requires |lines| == 1
    ensures PrintLines(lines[1..]) == [] && PrintLines(lines[1..]) + LineEnd(crlf) == LineEnd(crlf)
  {
  }

  lemma Fits(s: seq<Byte>, i: nat, part: seq<Byte>)
    requires At(s, i, part)
    ensures i + |part| <= |s|
  {
  }

  lemma AtJoin(s: seq<Byte>, i: nat, a: seq<Byte>, b: seq<Byte>)
    requires At(s, i, a) && At(s, i + |a|, b)
    ensures At(s, i, a + b)
  {
    assert s[i..i + |a + b|] == s[i..i + |a|] + s[i + |a|..i + |a| + |b|];
  }

  lemma TwoEnds(s: seq<Byte>, i: nat, first: bool, second: bool)
    requires At(s, i, LineEnd(first)) && At(s, i + |LineEnd(first)|, LineEnd(second))
    ensures i < |s| && BlankAt(s, i) == |LineEnd(first)| + |LineEnd(second)| && FindBlank(s, i) == i
  {
    EolHere(s, i, first);
    EolHere(s, i + |LineEnd(first)|, second);
  }

  // ---- data fields in bytes ----------------------------------------------------------------------------

  /** The lines of an event, without the end of the last. */
  function Body(lines: seq<Line>): (b: seq<Byte>)
    requires lines != []
    ensures |b| == BodyLength(lines)
  {
    if |lines| == 1 then lines[0].text
    else lines[0].text + (LineEnd(lines[0].crlf) + Body(lines[1..]))
  }

  lemma {:induction false} PrintIsBody(lines: seq<Line>)
    requires lines != []
    ensures Body(lines) <= PrintLines(lines)
    decreases |lines|
  {
    if |lines| == 1 {
      assert PrintLines(lines) == lines[0].text + (LineEnd(lines[0].crlf) + PrintLines(lines[1..]));
    } else {
      PrintIsBody(lines[1..]);
      var a, b := LineEnd(lines[0].crlf) + Body(lines[1..]), LineEnd(lines[0].crlf) + PrintLines(lines[1..]);
      assert a <= b;
      assert lines[0].text + a <= lines[0].text + b;
    }
  }

  /** A field name has no line end in it. */
  predicate Name(name: seq<Byte>) {
    name != [] && forall b <- name :: b != CR && b != LF
  }

  lemma Names()
    ensures Name(DATA) && Name(EVENT)
  {
  }

  lemma StartsByte(s: seq<Byte>, part: seq<Byte>, k: nat)
    requires k < |part|
    ensures StartsAt(s, part, 0) ==> k < |s| && s[k] == part[k]
  {
    assert StartsAt(s, part, 0) ==> s[0..|part|][k] == s[k];
  }

  /** The text in front of a line end starts with a name exactly if the bytes do. */
  lemma NameAtStart(text: seq<Byte>, crlf: bool, more: seq<Byte>, name: seq<Byte>)
    requires Name(name)
    ensures StartsAt(text, name, 0) <==> name <= text
    ensures StartsAt(text + (LineEnd(crlf) + more), name, 0) <==> name <= text
  {
    var all := text + (LineEnd(crlf) + more);
    if |name| > |text| {
      assert all[|text|] == LineEnd(crlf)[0] && name[|text|] in name;
      StartsByte(all, name, |text|);
    } else {
      assert all[0..|name|] == text[..|name|];
    }
  }

  /** Some line after the first starts with the name. */
  predicate Later(s: seq<Byte>, name: seq<Byte>) {
    exists k | 0 <= k < |s| :: s[k] == LF && StartsAt(s, name, k + 1)
  }

  lemma NoLaterInText(text: seq<Byte>, name: seq<Byte>)
    requires Plain(text)
    ensures !Later(text, name)
  {
    forall k | 0 <= k < |text|
      ensures text[k] != LF
    {
      assert text[k] in text;
    }
  }

  lemma Shifted(front: seq<Byte>, rest: seq<Byte>, name: seq<Byte>, k: nat)
    ensures StartsAt(front + rest, name, |front| + k) <==> StartsAt(rest, name, k)
  {
    if k + |name| <= |rest| {
      assert (front + rest)[|front| + k..|front| + k + |name|] == rest[k..k + |name|];
    }
  }

  lemma LineFront(text: seq<Byte>, crlf: bool)
    requires text == [] || Plain(text)
    ensures var front := text + LineEnd(crlf);
            front[|front| - 1] == LF && forall k | 0 <= k < |front| - 1 :: front[k] != LF
  {
    var front := text + LineEnd(crlf);
    assert forall k | 0 <= k < |text| :: front[k] == text[k] && text[k] in text;
  }

  /** Behind a line, the later lines are the next one and those later than it. */
  lemma LaterStep(text: seq<Byte>, crlf: bool, rest: seq<Byte>, name: seq<Byte>)
    requires text == [] || Plain(text)
    ensures Later(text + (LineEnd(crlf) + rest), name) <==> StartsAt(rest, name, 0) || Later(rest, name)
  {
    hide StartsAt;
    var front := text + LineEnd(crlf);
    var all, n := front + rest, |front|;
    assert all == text + (LineEnd(crlf) + rest);
    LineFront(text, crlf);
    if k :| 0 <= k < |rest| && rest[k] == LF && StartsAt(rest, name, k + 1) {
      Shifted(front, rest, name, k + 1);
      assert all[n + k] == LF && StartsAt(all, name, n + k + 1);
    }
    if StartsAt(rest, name, 0) {
      Shifted(front, rest, name, 0);
      assert all[n - 1] == LF && StartsAt(all, name, n - 1 + 1);
    }
    if k :| 0 <= k < |all| && all[k] == LF && StartsAt(all, name, k + 1) {
      assert k < n ==> all[k] == front[k];
      assert k >= n - 1;
      Shifted(front, rest, name, k + 1 - n);
      assert k >= n ==> rest[k - n] == LF && StartsAt(rest, name, k - n + 1);
    }
  }

  lemma LaterLineStep(lines: seq<Line>, name: seq<Byte>)
    requires |lines| > 1
    ensures LaterLine(lines, name) <==> name <= lines[1].text || LaterLine(lines[1..], name)
  {
    var rest := lines[1..];
    if k :| 1 <= k < |rest| && name <= rest[k].text {
      assert name <= lines[k + 1].text;
    }
    if k :| 1 <= k < |lines| && name <= lines[k].text {
      assert k > 1 ==> rest[k - 1] == lines[k];
    }
  }

  lemma {:induction false} LaterInBody(lines: seq<Line>, name: seq<Byte>)
    requires ValidLines(lines) && Name(name)
    ensures Later(Body(lines), name) <==> LaterLine(lines, name)
    ensures StartsAt(Body(lines), name, 0) <==> name <= lines[0].text
    decreases |lines|
  {
    hide Later, LaterLine, StartsAt;
    assert Plain(lines[0].text);
    if |lines| == 1 {
      NoLaterInText(lines[0].text, name);
      NoLaterLine(lines, name);
      NameAtStart(lines[0].text, false, [], name);
    } else {
      TailValid(lines);
      LaterInBody(lines[1..], name);
      LaterStep(lines[0].text, lines[0].crlf, Body(lines[1..]), name);
      LaterLineStep(lines, name);
      NameAtStart(lines[0].text, lines[0].crlf, Body(lines[1..]), name);
    }
  }

  lemma NoLaterLine(lines: seq<Line>, name: seq<Byte>)
    requires |lines| == 1
    ensures !LaterLine(lines, name)
  {
  }

  /** The byte test for a data field finds exactly the data lines. */
  lemma DataOfBody(lines: seq<Line>)
    requires ValidLines(lines)
    ensures HasData(Body(lines)) <==> HasDataLine(lines)
  {
    hide Body, StartsAt, LaterLine;
    Names();
    LaterInBody(lines, DATA);
    BomInBody(lines);
    var text := lines[0].text;
    assert BOM <= text ==> text[0] == BOM[0] != DATA[0];
    assert DATA <= text ==> text[0] == DATA[0];
  }

  /** A byte order mark in front of the first line. */
  lemma BomInBody(lines: seq<Line>)
    requires ValidLines(lines)
    ensures BOM <= Body(lines) && StartsAt(Body(lines), DATA, 3) <==> BOM <= lines[0].text && DATA <= lines[0].text[3..]
  {
    var text, body, name := lines[0].text, Body(lines), BOM + DATA;
    assert Plain(text);
    assert Name(name) by {
      assert forall b <- name :: b in BOM || b in DATA;
    }
    if |lines| == 1 {
      NameAtStart(text, false, [], name);
    } else {
      NameAtStart(text, lines[0].crlf, Body(lines[1..]), name);
    }
    BomSplit(body);
    BomSplit(text);
  }

  lemma BomSplit(s: seq<Byte>)
    ensures StartsAt(s, BOM + DATA, 0) <==> BOM <= s && StartsAt(s, DATA, 3)
    ensures BOM + DATA <= s <==> BOM <= s && DATA <= s[3..]
  {
    if |s| >= 8 {
      assert s[..8] == s[..3] + s[3..8] && s[0..8] == s[..8] && s[3..][..5] == s[3..8];
      assert (BOM + DATA)[..3] == BOM && (BOM + DATA)[3..] == DATA;
      assert s[..8][..3] == s[..3] && s[..8][3..] == s[3..8];
    }
  }

  // ---- the first data event ------------------------------------------------------------------------------

  lemma BodyAt(s: seq<Byte>, i: nat, lines: seq<Line>, crlf: bool)
    requires lines != [] && At(s, i, PrintLines(lines) + LineEnd(crlf))
    ensures i + BodyLength(lines) <= |s| && s[i..i + BodyLength(lines)] == Body(lines)
  {
    PrintIsBody(lines);
    AtParts(s, i, PrintLines(lines), LineEnd(crlf));
    var printed, n := PrintLines(lines), |Body(lines)|;
    assert printed == Body(lines) + printed[n..];
    AtParts(s, i, Body(lines), printed[n..]);
  }

  /** The scan over one event. */
  lemma DataEventHere(s: seq<Byte>, i: nat, e: Event)
    requires ValidLines(e.lines) && At(s, i, PrintEvent(e))
    ensures i + |PrintEvent(e)| <= |s|
    ensures DataEventEnd(s, i) == if HasDataLine(e.lines) then Some(i + |PrintEvent(e)|)
                                  else DataEventEnd(s, i + |PrintEvent(e)|)
  {
    hide DataEventEnd, FindBlank, BlankAt, At, HasData, HasDataLine, Body, BodyLength, PrintLines, LineEnd, Plain;
    Fits(s, i, PrintEvent(e));
    BlankOfEvent(s, i, e.lines, e.crlf);
    BodyAt(s, i, e.lines, e.crlf);
    DataOfBody(e.lines);
    DataEventStep(s, i, i + BodyLength(e.lines), i + |PrintEvent(e)|);
  }

  /** The scan for the first data event, event by event. */
  lemma {:induction false} DataEventOfText(s: seq<Byte>, i: nat, events: seq<Event>)
    requires ValidEvents(events) && At(s, i, PrintEvents(events)) && i + |PrintEvents(events)| == |s|
    ensures var n := FirstData(events);
            DataEventEnd(s, i) == if n == |events| then None else Some(i + |PrintEvents(events[..n + 1])|)
    decreases |events|
  {
    hide DataEventEnd, At, HasDataLine, ValidLines, PrintEvent;
    if events == [] {
      NoEvent(s);
    } else {
      var e, rest := events[0], events[1..];
      AtParts(s, i, PrintEvent(e), PrintEvents(rest));
      DataEventHere(s, i, e);
      if HasDataLine(e.lines) {
        OnePrinted(events);
      } else {
        DataEventOfText(s, i + |PrintEvent(e)|, rest);
        if FirstData(rest) < |rest| {
          OneMorePrinted(events, FirstData(rest) + 1);
        }
      }
    }
  }

  lemma OneMorePrinted(events: seq<Event>, n: nat)
    requires n < |events|
    ensures PrintEvents(events[..n + 1]) == PrintEvent(events[0]) + PrintEvents(events[1..][..n])
  {
    assert events[..n + 1][0] == events[0] && events[..n + 1][1..] == events[1..][..n];
  }

  lemma NoEvent(s: seq<Byte>)
    ensures DataEventEnd(s, |s|) == None
  {
    DataEventStep(s, |s|, |s|, |s|);
  }

  lemma OnePrinted(events: seq<Event>)
    requires events != []
    ensures PrintEvents(events[..1]) == PrintEvent(events[0])
  {
    assert events[..1][1..] == [];
  }

  // ---- the first field -------------------------------------------------------------------------------------

  /** The texts of all lines, and how much is printed in front of each. */
  function Texts(events: seq<Event>): seq<Line> {
    if events == [] then [] else events[0].lines + [Line([], events[0].crlf)] + Texts(events[1..])
  }

  /** The end of the first event or data field name, if only comments and blank lines come before. */
  function FirstField(lines: seq<Line>): Option<nat> {
    if lines == [] then None
    else
      var text := lines[0].text;
      if EVENT <= text then Some(|EVENT|) else if DATA <= text then Some(|DATA|)
      else if text != [] && text[0] != COLON then None
      else match FirstField(lines[1..])
        case None => None
        case Some(n) => Some(|text| + |LineEnd(lines[0].crlf)| + n)
  }

  lemma {:induction false} PrintLinesAppend(a: seq<Line>, b: seq<Line>)
    ensures PrintLines(a + b) == PrintLines(a) + PrintLines(b)
  {
    if a == [] {
      assert a + b == b;
    } else {
      hide PrintLines, LineEnd;
      FirstOfBoth(a, b);
      PrintLinesAppend(a[1..], b);
      PrintStep(a);
      PrintStep(a + b);
      RegroupAll(a[0].text, LineEnd(a[0].crlf), PrintLines(a[1..]), PrintLines(b));
    }
  }

  lemma FirstOfBoth<T>(a: seq<T>, b: seq<T>)
    requires a != []
    ensures (a + b)[0] == a[0] && (a + b)[1..] == a[1..] + b
  {
  }

  lemma RegroupAll(a: seq<Byte>, b: seq<Byte>, c: seq<Byte>, d: seq<Byte>)
    ensures a + (b + (c + d)) == a + (b + c) + d
  {
  }

  lemma {:induction false} TextsPrint(events: seq<Event>)
    ensures PrintLines(Texts(events)) == PrintEvents(events)
  {
    if events != [] {
      var e, blank := events[0], [Line([], events[0].crlf)];
      TextsPrint(events[1..]);
      PrintLinesAppend(e.lines + blank, Texts(events[1..]));
      PrintLinesAppend(e.lines, blank);
      assert blank[1..] == [] && PrintLines(blank) == LineEnd(e.crlf);
    }
  }

  predicate PlainOrBlank(lines: seq<Line>) {
    forall k | 0 <= k < |lines| :: lines[k].text == [] || Plain(lines[k].text)
  }

  lemma {:induction false} TextsPlain(events: seq<Event>)
    requires ValidEvents(events)
    ensures PlainOrBlank(Texts(events))
  {
    if events != [] {
      assert ValidLines(events[0].lines);
      TextsPlain(events[1..]);
    }
  }

  /** The byte pattern for the first field finds the first field line. */
  lemma {:induction false} FieldOfText(s: seq<Byte>, i: nat, lines: seq<Line>)
    requires PlainOrBlank(lines) && At(s, i, PrintLines(lines)) && i + |PrintLines(lines)| == |s|
    ensures FieldEnd(s, i) == match FirstField(lines) case None => None case Some(n) => Some(i + n)
    decreases |lines|
  {
    hide At, FieldAt, SkipLine, StartsAt, Plain, LineEnd, PrintLines;
    if lines == [] {
      NothingHere(s, lines);
    } else {
      var text, end := lines[0].text, LineEnd(lines[0].crlf);
      PrintStep(lines);
      AtParts(s, i, text, end + PrintLines(lines[1..]));
      AtParts(s, i + |text|, end, PrintLines(lines[1..]));
      FieldHere(s, i, text, lines[0].crlf);
      RestPlain(lines);
      FieldOfText(s, i + |text| + |end|, lines[1..]);
    }
  }

  lemma RestPlain(lines: seq<Line>)
    requires PlainOrBlank(lines) && lines != []
    ensures PlainOrBlank(lines[1..]) && (lines[0].text == [] || Plain(lines[0].text))
  {
  }

  lemma NothingHere(s: seq<Byte>, lines: seq<Line>)
    requires lines == []
    ensures PrintLines(lines) == [] && FieldEnd(s, |s|) == None
  {
  }

  /** One line of the pattern. */
  lemma FieldHere(s: seq<Byte>, i: nat, text: seq<Byte>, crlf: bool)
    requires (text == [] || Plain(text)) && At(s, i, text) && At(s, i + |text|, LineEnd(crlf))
    ensures FieldAt(s, i)
         == if EVENT <= text then Some(i + |EVENT|) else if DATA <= text then Some(i + |DATA|) else None
    ensures i <= |s|
    ensures !(EVENT <= text) && !(DATA <= text) ==>
              SkipLine(s, i) == if text == [] || text[0] == COLON then Some(i + |text| + |LineEnd(crlf)|) else None
  {
    hide LineStop;
    NameHere(s, i, text, crlf, EVENT);
    NameHere(s, i, text, crlf, DATA);
    EolHere(s, i + |text|, crlf);
    if text != [] {
      NoEolInText(s, i, text, 0);
      AtByte(s, i, text, 0);
      if text[0] == COLON {
        CommentStops(s, i, text, crlf);
      }
    }
  }

  lemma CommentStops(s: seq<Byte>, i: nat, text: seq<Byte>, crlf: bool)
    requires Plain(text) && At(s, i, text) && At(s, i + |text|, LineEnd(crlf))
    ensures i + 1 <= |s| && LineStop(s, i + 1) == i + |text|
  {
    AtByte(s, i + |text|, LineEnd(crlf), 0);
    forall k | i + 1 <= k < i + |text|
      ensures s[k] != CR && s[k] != LF
    {
      AtByte(s, i, text, k - i);
      assert text[k - i] in text;
    }
  }

  lemma NameHere(s: seq<Byte>, i: nat, text: seq<Byte>, crlf: bool, name: seq<Byte>)
    requires At(s, i, text) && At(s, i + |text|, LineEnd(crlf)) && Name(name)
    ensures StartsAt(s, name, i) <==> name <= text
  {
    var rest := s[i..];
    assert rest[..|text|] == text;
    var more := rest[|text| + |LineEnd(crlf)|..];
    assert rest[|text|..|text| + |LineEnd(crlf)|] == LineEnd(crlf);
    assert rest == text + (LineEnd(crlf) + more);
    NameAtStart(text, crlf, more, name);
    assert StartsAt(s, name, i) ==> s[i..i + |name|] == rest[0..|name|];
    assert StartsAt(rest, name, 0) ==> s[i..i + |name|] == rest[0..|name|];
  }

  // ---- what the gate makes of an event stream ----------------------------------------------------------------

  /** The lines of the stream without the byte order mark in front. */
  function Unmarked(lines: seq<Line>): seq<Line> {
    if lines != [] && BOM <= lines[0].text then [lines[0].(text := lines[0].text[3..])] + lines[1..] else lines
  }

  /** Where the first field name of the stream ends, if only comments and blank lines come before it. */
  function Preamble(events: seq<Event>): Option<nat> {
    var lines := Texts(events);
    match FirstField(Unmarked(lines))
    case None => None
    case Some(n) => Some(if lines != [] && BOM <= lines[0].text then 3 + n else n)
  }

  lemma MarkOfText(lines: seq<Line>)
    requires lines != []
    ensures BOM <= PrintLines(lines) <==> BOM <= lines[0].text
    ensures BOM <= lines[0].text ==>
              At(PrintLines(lines), 3, PrintLines(Unmarked(lines)))
              && |PrintLines(lines)| == 3 + |PrintLines(Unmarked(lines))|
  {
    hide StartsAt, At;
    var text, more := lines[0].text, LineEnd(lines[0].crlf) + PrintLines(lines[1..]);
    assert Name(BOM);
    NameAtStart(text, lines[0].crlf, PrintLines(lines[1..]), BOM);
    StartsMeans(PrintLines(lines), BOM);
    if BOM <= text {
      assert Unmarked(lines)[1..] == lines[1..];
      Behind(text, more);
    }
  }

  lemma StartsMeans(s: seq<Byte>, name: seq<Byte>)
    ensures StartsAt(s, name, 0) <==> name <= s
  {
    assert |s| >= |name| ==> s[0..|name|] == s[..|name|];
  }

  lemma Behind(text: seq<Byte>, more: seq<Byte>)
    requires |text| >= 3
    ensures At(text + more, 3, text[3..] + more) && |text + more| == 3 + |text[3..] + more|
  {
    assert (text + more)[3..] == text[3..] + more;
  }

  lemma UnmarkedPlain(lines: seq<Line>)
    requires PlainOrBlank(lines)
    ensures PlainOrBlank(Unmarked(lines))
  {
    if lines != [] && BOM <= lines[0].text {
      var text := lines[0].text;
      assert Plain(text);
      assert forall b <- text[3..] :: b in text;
    }
  }

  lemma PreambleOfText(events: seq<Event>)
    requires ValidEvents(events)
    ensures PrefixEnd(PrintEvents(events)) == Preamble(events)
  {
    hide FieldEnd, FirstField, Texts;
    var lines, s := Texts(events), PrintEvents(events);
    TextsPrint(events);
    TextsPlain(events);
    UnmarkedPlain(lines);
    if lines == [] {
      assert s == [];
      FieldOfText(s, 0, lines);
    } else {
      MarkOfText(lines);
      FieldOfText(s, if BOM <= s then 3 else 0, Unmarked(lines));
    }
  }

  /** When a headerless event stream is committed, for any events, any line ends and any chunks: its first
      line but comments is an event or data field, some event has a data line, the events up to the first
      that has fit in 8 MiB, and no chunk ends past 64 KiB and before the end of that first field name. */
  lemma TextCommits(events: seq<Event>, chunks: seq<seq<Byte>>)
    requires ValidEvents(events) && Concat(chunks) == PrintEvents(events)
    ensures OnChunks(Inferable, chunks) == Committed <==>
              && Preamble(events).Some? && !CutBeforePrefix(chunks, Preamble(events))
              && FirstData(events) < |events|
              && |PrintEvents(events[..FirstData(events) + 1])| <= INFERRED_EVENT_CAP
  {
    hide PrefixEnd, DataEventEnd, FirstData, Preamble, Concat, OnChunks, CutBeforePrefix;
    var s := PrintEvents(events);
    PreambleOfText(events);
    assert s[0..|s|] == s;
    DataEventOfText(s, 0, events);
    InferenceExactly(chunks);
  }

  /** The plainest stream: one event whose first line is a data field commits under every chunking. */
  lemma PlainDataCommits(text: seq<Byte>, crlf: bool, chunks: seq<seq<Byte>>)
    requires (text == [] || Plain(text)) && |text| + 9 <= INFERRED_EVENT_CAP
    requires Concat(chunks) == PrintEvents([Event([Line(DATA + text, crlf)], crlf)])
    ensures OnChunks(Inferable, chunks) == Committed
  {
    var e := Event([Line(DATA + text, crlf)], crlf);
    Names();
    assert Plain(DATA + text);
    assert (DATA + text)[..5] == DATA && !(EVENT <= DATA + text) && !(BOM <= DATA + text) by {
      assert (DATA + text)[0] == DATA[0];
    }
    var lines := Texts([e]);
    assert lines[0] == e.lines[0] && Preamble([e]) == Some(5);
    assert [e][..1] == [e] && [e][1..] == [] && e.lines[1..] == [];
    EarlyPrefixNeverCut(chunks, Some(5));
    assert HasDataLine(e.lines) && FirstData([e]) == 0;
    OnePrinted([e]);
    assert PrintLines(e.lines) == DATA + text + (LineEnd(crlf) + []);
    TextCommits([e], chunks);
  }

  // ---- a declared event stream ---------------------------------------------------------------------------------

  predicate SomeLine(lines: seq<Line>, name: seq<Byte>) {
    exists k | 0 <= k < |lines| :: name <= lines[k].text
  }

  lemma {:induction false} NameInLines(lines: seq<Line>, name: seq<Byte>)
    requires PlainOrBlank(lines) && Name(name)
    ensures StartsAt(PrintLines(lines), name, 0) || Later(PrintLines(lines), name) <==> SomeLine(lines, name)
    decreases |lines|
  {
    hide Later, StartsAt;
    if lines == [] {
      NoName(name);
    } else {
      var rest := lines[1..];
      NameInLines(rest, name);
      NameAtStart(lines[0].text, lines[0].crlf, PrintLines(rest), name);
      LaterStep(lines[0].text, lines[0].crlf, PrintLines(rest), name);
      SomeLineStep(lines, name);
    }
  }

  lemma NoName(name: seq<Byte>)
    requires Name(name)
    ensures !StartsAt([], name, 0) && !Later([], name) && !SomeLine([], name)
  {
  }

  lemma SomeLineStep(lines: seq<Line>, name: seq<Byte>)
    requires lines != []
    ensures SomeLine(lines, name) <==> name <= lines[0].text || SomeLine(lines[1..], name)
  {
    var rest := lines[1..];
    if k :| 0 <= k < |rest| && name <= rest[k].text {
      assert name <= lines[k + 1].text;
    }
    if k :| 0 <= k < |lines| && name <= lines[k].text {
      assert k > 0 ==> rest[k - 1] == lines[k];
    }
  }

  predicate SomeEvent(events: seq<Event>, name: seq<Byte>) {
    exists k | 0 <= k < |events| :: SomeLine(events[k].lines, name)
  }

  lemma SomeLineAppend(a: seq<Line>, b: seq<Line>, name: seq<Byte>)
    ensures SomeLine(a + b, name) <==> SomeLine(a, name) || SomeLine(b, name)
  {
    var c := a + b;
    if k :| 0 <= k < |a| && name <= a[k].text {
      assert name <= c[k].text;
    }
    if k :| 0 <= k < |b| && name <= b[k].text {
      assert name <= c[|a| + k].text;
    }
    if k :| 0 <= k < |c| && name <= c[k].text {
      assert c[k] == if k < |a| then a[k] else b[k - |a|];
    }
  }

  lemma {:induction false} TextsHaveName(events: seq<Event>, name: seq<Byte>)
    requires Name(name)
    ensures SomeLine(Texts(events), name) <==> SomeEvent(events, name)
  {
    hide SomeLine;
    if events == [] {
      NoName(name);
    } else {
      var blank, rest := [Line([], events[0].crlf)], events[1..];
      TextsHaveName(rest, name);
      SomeLineAppend(events[0].lines + blank, Texts(rest), name);
      SomeLineAppend(events[0].lines, blank, name);
      SomeLineStep(blank, name);
      NoName(name);
      assert blank[1..] == [];
      if k :| 0 <= k < |rest| && SomeLine(rest[k].lines, name) {
        assert SomeLine(events[k + 1].lines, name);
      }
      if k :| 0 <= k < |events| && SomeLine(events[k].lines, name) {
        assert k > 0 ==> rest[k - 1] == events[k];
      }
    }
  }

  lemma MarkerParts(s: seq<Byte>)
    ensures HasMarker(s) <==> StartsAt(s, EVENT, 0) || Later(s, EVENT) || StartsAt(s, DATA, 0) || Later(s, DATA)
  {
    hide StartsAt;
  }

  /** When a stream declared as SSE is committed, for any events, line ends and chunks: some line of some
      event is an event or data field, and no chunk ends past 64 KiB in front of the first such line. */
  lemma DeclaredTextCommits(events: seq<Event>, chunks: seq<seq<Byte>>)
    requires ValidEvents(events) && Concat(chunks) == PrintEvents(events)
    ensures OnChunks(DeclaredSse, chunks) == Committed <==>
              (SomeEvent(events, EVENT) || SomeEvent(events, DATA)) && !CutBeforeMarker(chunks)
  {
    hide StartsAt, Later, HasMarker, OnChunks, CutBeforeMarker, SomeEvent, Concat;
    var s := PrintEvents(events);
    Names();
    TextsPrint(events);
    TextsPlain(events);
    NameInLines(Texts(events), EVENT);
    NameInLines(Texts(events), DATA);
    TextsHaveName(events, EVENT);
    TextsHaveName(events, DATA);
    MarkerParts(s);
    DeclaredExactly(chunks);
  }
}
