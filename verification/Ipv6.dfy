/** The address codec of socks5.ts: IPv6 and IPv4 text to bytes. */
module Ipv6 {
  import opened JsText
  import opened Protocol
  import opened Bytes

  // ---- splitting and joining ---------------------------------------------------------------------

  /** `s.split(c)` */
  function Split(s: string, c: char): (parts: seq<string>)
    ensures parts != []
    decreases |s|
  {
    var n := IndexOf(s, c, 0);
    if n == |s| then [s] else [s[..n]] + Split(s[n + 1..], c)
  }

  function JoinWith(parts: seq<string>, c: char): string {
    if parts == [] then "" else if |parts| == 1 then parts[0] else parts[0] + [c] + JoinWith(parts[1..], c)
  }

  lemma SplitFirst(part: string, c: char, rest: string)
    requires c !in part
    ensures Split(part, c) == [part]
    ensures Split(part + [c] + rest, c) == [part] + Split(rest, c)
  {
    var s := part + [c] + rest;
    assert s[|part|] == c && forall k | 0 <= k < |part| :: s[k] == part[k];
    assert IndexOf(s, c, 0) == |part|;
    assert s[..|part|] == part && s[|part| + 1..] == rest;
  }

  lemma {:induction false} SplitJoin(parts: seq<string>, c: char)
    requires parts != [] && forall p <- parts :: c !in p
    ensures Split(JoinWith(parts, c), c) == parts
  {
    SplitFirst(parts[0], c, JoinWith(parts[1..], c));
    if |parts| > 1 {
      SplitJoin(parts[1..], c);
      assert [parts[0]] + parts[1..] == parts;
    }
  }

  lemma {:induction false} JoinSplit(s: string, c: char)
    ensures JoinWith(Split(s, c), c) == s
    decreases |s|
  {
    var n := IndexOf(s, c, 0);
    if n < |s| {
      JoinSplit(s[n + 1..], c);
      var rest := Split(s[n + 1..], c);
      assert ([s[..n]] + rest)[1..] == rest;
      assert s[..n] + [c] + s[n + 1..] == s;
    }
  }

  // ---- numbers in text ----------------------------------------------------------------------------

  predicate IsHexDigit(c: char) {
    '0' <= c <= '9' || 'a' <= c <= 'f' || 'A' <= c <= 'F'
  }

  function HexDigitValue(c: char): (v: nat)
    requires IsHexDigit(c)
    ensures v < 16
  {
    if '0' <= c <= '9' then c as int - '0' as int
    else if 'a' <= c <= 'f' then c as int - 'a' as int + 10
    else c as int - 'A' as int + 10
  }

  /** The hex digits, in either case. */
  lemma HexDigitsExactly(c: char)
    ensures IsHexDigit(c) <==> c in "0123456789abcdef" || c in "0123456789ABCDEF"
    ensures forall v: nat | v < 16 && (c == "0123456789abcdef"[v] || c == "0123456789ABCDEF"[v]) ::
              HexDigitValue(c) == v
  {
    if IsHexDigit(c) {
      HexDigitOf(c);
    }
    forall v: nat | v < 16 && (c == "0123456789abcdef"[v] || c == "0123456789ABCDEF"[v])
      ensures HexDigitValue(c) == v
    {
    }
  }

  lemma HexDigitOf(c: char)
    requires IsHexDigit(c)
    ensures c == "0123456789abcdef"[HexDigitValue(c)] || c == "0123456789ABCDEF"[HexDigitValue(c)]
  {
  }

  predicate AllHex(s: string) {
    forall c <- s :: IsHexDigit(c)
  }

  function HexValue(s: string): nat
    requires AllHex(s)
  {
    if s == "" then 0 else 16 * HexValue(s[..|s| - 1]) + HexDigitValue(s[|s| - 1])
  }

  /** A 16-bit group. */
  type Group = g: nat | g < 0x1_0000

  /** One to four hex digits. */
  predicate IsGroup(part: string) {
    1 <= |part| <= 4 && AllHex(part)
  }

  lemma GroupFits(part: string)
    requires IsGroup(part)
    ensures HexValue(part) < 0x1_0000
  {
    HexBound(part);
    assert Power16(1) == 16 && Power16(2) == 256 && Power16(3) == 4096 && Power16(4) == 65536;
  }

  function Power16(n: nat): nat {
    if n == 0 then 1 else 16 * Power16(n - 1)
  }

  lemma {:induction false} HexBound(s: string)
    requires AllHex(s)
    ensures HexValue(s) < Power16(|s|)
  {
    if s != "" {
      HexBound(s[..|s| - 1]);
    }
  }

  function HexDigit(v: nat): (c: char)
    requires v < 16
    ensures IsHexDigit(c) && HexDigitValue(c) == v
  {
    if v < 10 then '0' + v as char else 'a' + (v - 10) as char
  }

  /** `n.toString(16)` of a non-negative integer. */
  function Hex(n: nat): (s: string)
    ensures |s| > 0 && AllHex(s)
  {
    if n < 16 then [HexDigit(n)] else Hex(n / 16) + [HexDigit(n % 16)]
  }

  lemma {:induction false} HexValueRoundTrip(n: nat)
    ensures HexValue(Hex(n)) == n
  {
    if n < 16 {
      assert Hex(n)[..0] == "";
    } else {
      HexValueRoundTrip(n / 16);
      assert Hex(n)[..|Hex(n)| - 1] == Hex(n / 16);
    }
  }

  lemma HexRoundTrip(n: nat)
    requires n < 0x1_0000
    ensures IsGroup(Hex(n)) && HexValue(Hex(n)) == n
  {
    HexValueRoundTrip(n);
    assert n / 16 < 4096 && n / 16 / 16 < 256 && n / 16 / 16 / 16 < 16;
    assert |Hex(n / 16 / 16 / 16)| == 1;
    assert |Hex(n / 16 / 16)| <= 2;
    assert |Hex(n / 16)| <= 3;
  }

  /** An octet as `isIPv4` accepts it: no leading zero, at most 255. */
  predicate IsOctet(part: string) {
    && 1 <= |part| <= 3 && (forall c <- part :: '0' <= c <= '9')
    && (|part| == 1 || part[0] != '0') && DecimalValue(part) <= 255
  }

  predicate IsIPv4(s: string) {
    var parts := Split(s, '.');
    |parts| == 4 && forall p <- parts :: IsOctet(p)
  }

  /** `s.split('.').map(Number)` */
  function Octets(s: string): (octets: seq<Byte>)
    requires IsIPv4(s)
    ensures |octets| == 4
  {
    var parts := Split(s, '.');
    seq(4, i requires 0 <= i < 4 => assert parts[i] in parts; DecimalValue(parts[i]) as Byte)
  }

  /** The dotted form of four octets. */
  function Dotted(octets: seq<Byte>): string
    requires |octets| == 4
  {
    JoinWith([Decimal(octets[0] as int), Decimal(octets[1] as int),
              Decimal(octets[2] as int), Decimal(octets[3] as int)], '.')
  }

  lemma DecimalIsOctet(n: nat)
    requires n <= 255
    ensures IsOctet(Decimal(n)) && DecimalValue(Decimal(n)) == n && '.' !in Decimal(n) && ':' !in Decimal(n)
            && '%' !in Decimal(n)
  {
    DecimalRoundTrip(n);
    if n >= 10 {
      assert Decimal(n) == Decimal(n / 10) + [Digit(n % 10)];
      if n >= 100 {
        assert Decimal(n / 10) == Decimal(n / 100) + [Digit(n / 10 % 10)];
      }
    }
  }

  lemma DigitsPrint(x: nat, y: nat, z: nat)
    requires x < 10 && y < 10 && z < 10
    ensures Decimal(x) == [Digit(x)]
    ensures x > 0 ==> Decimal(10 * x + y) == [Digit(x), Digit(y)]
    ensures x > 0 ==> Decimal(10 * (10 * x + y) + z) == [Digit(x), Digit(y), Digit(z)]
  {
    if x > 0 {
      var two := 10 * x + y;
      assert two / 10 == x && two % 10 == y;
      assert Decimal(two) == Decimal(x) + [Digit(y)];
      var three := 10 * two + z;
      assert three / 10 == two && three % 10 == z;
      assert Decimal(three) == Decimal(two) + [Digit(z)];
    }
  }

  predicate IsDigit(c: char) {
    '0' <= c <= '9'
  }

  lemma DigitBack(c: char)
    requires IsDigit(c)
    ensures DigitValue(c) < 10 && Digit(DigitValue(c)) == c && (c != '0' ==> DigitValue(c) > 0)
  {
  }

  lemma OneDigit(a: char)
    requires IsDigit(a)
    ensures Decimal(DecimalValue([a])) == [a]
  {
    assert [a][..0] == "";
    DigitBack(a);
    DigitsPrint(DigitValue(a), 0, 0);
  }

  lemma TwoDigits(a: char, b: char)
    requires IsDigit(a) && IsDigit(b) && a != '0'
    ensures Decimal(DecimalValue([a, b])) == [a, b]
  {
    assert [a][..0] == "" && [a, b][..1] == [a];
    assert DecimalValue([a]) == DigitValue(a);
    assert DecimalValue([a, b]) == 10 * DigitValue(a) + DigitValue(b);
    DigitBack(a);
    DigitBack(b);
    DigitsPrint(DigitValue(a), DigitValue(b), 0);
  }

  lemma ThreeDigits(a: char, b: char, c: char)
    requires IsDigit(a) && IsDigit(b) && IsDigit(c) && a != '0'
    ensures Decimal(DecimalValue([a, b, c])) == [a, b, c]
  {
    assert [a][..0] == "" && [a, b][..1] == [a] && [a, b, c][..2] == [a, b];
    assert DecimalValue([a]) == DigitValue(a);
    assert DecimalValue([a, b]) == 10 * DigitValue(a) + DigitValue(b);
    assert DecimalValue([a, b, c]) == 10 * DecimalValue([a, b]) + DigitValue(c);
    DigitBack(a);
    DigitBack(b);
    DigitBack(c);
    DigitsPrint(DigitValue(a), DigitValue(b), DigitValue(c));
  }

  /** Only one text prints an octet, so the dotted form of an address is its own. */
  lemma OctetIsDecimal(part: string)
    requires IsOctet(part)
    ensures Decimal(DecimalValue(part)) == part
  {
    assert forall i | 0 <= i < |part| :: part[i] in part;
    if |part| == 1 {
      OneDigit(part[0]);
      assert part == [part[0]];
    } else if |part| == 2 {
      TwoDigits(part[0], part[1]);
      assert part == [part[0], part[1]];
    } else {
      ThreeDigits(part[0], part[1], part[2]);
      assert part == [part[0], part[1], part[2]];
    }
  }

  lemma DottedIsIPv4(octets: seq<Byte>)
    requires |octets| == 4
    ensures IsIPv4(Dotted(octets)) && Octets(Dotted(octets)) == octets
  {
    var parts := [Decimal(octets[0] as int), Decimal(octets[1] as int),
                  Decimal(octets[2] as int), Decimal(octets[3] as int)];
    DecimalIsOctet(octets[0] as int);
    DecimalIsOctet(octets[1] as int);
    DecimalIsOctet(octets[2] as int);
    DecimalIsOctet(octets[3] as int);
    SplitJoin(parts, '.');
  }

  lemma IPv4IsDotted(s: string)
    requires IsIPv4(s)
    ensures Dotted(Octets(s)) == s
  {
    var parts := Split(s, '.');
    forall i | 0 <= i < 4
      ensures Decimal(Octets(s)[i] as int) == parts[i]
    {
      assert parts[i] in parts;
      OctetIsDecimal(parts[i]);
    }
    assert parts == [Decimal(Octets(s)[0] as int), Decimal(Octets(s)[1] as int),
                     Decimal(Octets(s)[2] as int), Decimal(Octets(s)[3] as int)];
    JoinSplit(s, '.');
  }

  // ---- ipv6ToBytes ---------------------------------------------------------------------------------

  /** The 16-bit groups of one part: one of hex digits, two of an embedded IPv4 address. */
  function PartGroups(part: string): (r: Option<seq<Group>>)
  {
    if part == "" then None
    else if '.' in part then
      if !IsIPv4(part) then None
      else
        var o := Octets(part);
        Some([o[0] as int * 256 + o[1] as int, o[2] as int * 256 + o[3] as int])
    else if !IsGroup(part) then None
    else
      GroupFits(part);
      Some([HexValue(part) as Group])
  }

  function Collect(parts: seq<string>): (r: Option<seq<Group>>)
  {
    if parts == [] then Some([])
    else match Collect(parts[..|parts| - 1])
      case None => None
      case Some(before) =>
        match PartGroups(parts[|parts| - 1])
        case None => None
        case Some(more) => Some(before + more)
  }

  /** `toGroups` */
  function ToGroups(text: string): (r: Option<seq<Group>>)
  {
    if text == "" then Some([]) else Collect(Split(text, ':'))
  }

  function GroupBytes(groups: seq<Group>): (b: seq<Byte>)
    ensures |b| == 2 * |groups|
  {
    if groups == [] then []
    else
      var g := groups[|groups| - 1];
      GroupBytes(groups[..|groups| - 1]) + [(g / 256) as Byte, (g % 256) as Byte]
  }

  /** `s.indexOf('::')`, with the length of s instead of -1. */
  function FindGap(s: string, i: nat): (n: nat)
    requires i <= |s|
    ensures i <= n <= |s| && (n < |s| ==> n + 1 < |s| && s[n] == ':' && s[n + 1] == ':')
    ensures forall k | i <= k < n && k + 1 < |s| :: s[k] != ':' || s[k + 1] != ':'
    decreases |s| - i
  {
    if i + 1 >= |s| then |s| else if s[i] == ':' && s[i + 1] == ':' then i else FindGap(s, i + 1)
  }

  function Zeros(n: nat): (z: seq<Group>)
    ensures |z| == n && forall g <- z :: g == 0
  {
    seq(n, i requires 0 <= i < n => 0)
  }

  /** The groups around a gap, filled up to eight. */
  function Fill(head: seq<Group>, tail: seq<Group>, gap: bool): (r: Option<seq<Group>>)
    ensures r.Some? ==> |r.value| == 8
  {
    var fill := 8 - |head| - |tail|;
    if (if gap then fill < 0 else fill != 0) then None else Some(head + Zeros(fill) + tail)
  }

  /** `ipv6ToBytes` */
  function Ipv6ToBytes(address: string): (r: Option<seq<Byte>>)
    ensures r.Some? ==> |r.value| == 16
  {
    var bare := address[..IndexOf(address, '%', 0)];
    var at := FindGap(bare, 0);
    var gap := at < |bare|;
    var head, tail := ToGroups(bare[..at]), ToGroups(if gap then bare[at + 2..] else "");
    if head.None? || tail.None? then None
    else match Fill(head.value, tail.value, gap)
      case None => None
      case Some(groups) => Some(GroupBytes(groups))
  }

  /** The loop of `toGroups`. */
  method CollectGroups(text: string) returns (groups: Option<seq<Group>>)
    ensures groups == ToGroups(text)
  {
    if text == "" {
      return Some([]);
    }
    var parts := Split(text, ':');
    var collected: seq<Group> := [];
    var i := 0;
    assert parts[..|parts|] == parts;
    while i < |parts|
      invariant i <= |parts| && Collect(parts[..i]) == Some(collected)
    {
      assert parts[..i + 1][..i] == parts[..i];
      var more := PartGroups(parts[i]);
      if more.None? {
        StaysNone(parts, i + 1);
        return None;
      }
      collected := collected + more.value;
      i := i + 1;
    }
    groups := Some(collected);
  }

  lemma {:induction false} StaysNone(parts: seq<string>, n: nat)
    requires n <= |parts| && Collect(parts[..n]) == None
    ensures Collect(parts) == None
    decreases |parts| - n
  {
    if n == |parts| {
      assert parts[..n] == parts;
    } else {
      assert parts[..n + 1][..n] == parts[..n];
      StaysNone(parts, n + 1);
    }
  }

  // ---- it inverts printing ----------------------------------------------------------------------------

  /** A part without separators in it. */
  predicate CleanPart(part: string) {
    part != "" && ':' !in part && '%' !in part
  }

  predicate Clean(parts: seq<string>) {
    forall p <- parts :: CleanPart(p)
  }

  /** Joined clean parts have no percent sign, no double colon and no colon at either end. */
  lemma {:induction false} JoinedIsClean(parts: seq<string>)
    requires Clean(parts)
    ensures var s := JoinWith(parts, ':');
            && '%' !in s && (s == "" <==> parts == [])
            && (s != "" ==> s[0] != ':' && s[|s| - 1] != ':')
            && forall k | 0 <= k && k + 1 < |s| :: s[k] != ':' || s[k + 1] != ':'
  {
    if |parts| == 1 {
      assert parts[0] in parts;
      assert forall k | 0 <= k < |parts[0]| :: parts[0][k] in parts[0];
    } else if |parts| > 1 {
      assert parts[0] in parts;
      assert forall k | 0 <= k < |parts[0]| :: parts[0][k] in parts[0];
      assert forall p <- parts[1..] :: p in parts;
      JoinedIsClean(parts[1..]);
      var rest := JoinWith(parts[1..], ':');
      var s := parts[0] + [':'] + rest;
      assert forall k | |parts[0]| < k < |s| :: s[k] == rest[k - |parts[0]| - 1];
    }
  }

  lemma JoinedGroups(parts: seq<string>)
    requires Clean(parts)
    ensures ToGroups(JoinWith(parts, ':')) == Collect(parts)
  {
    JoinedIsClean(parts);
    if parts != [] {
      assert forall p <- parts :: ':' !in p;
      SplitJoin(parts, ':');
    }
  }

  lemma BareAddress(bare: string, zone: string)
    requires '%' !in bare && (zone == "" || zone[0] == '%')
    ensures var address := bare + zone; address[..IndexOf(address, '%', 0)] == bare
  {
    var address := bare + zone;
    assert forall k | 0 <= k < |bare| :: address[k] == bare[k] && bare[k] in bare;
    if zone != "" {
      assert address[|bare|] == '%';
    }
  }

  lemma GapFound(head: string, tail: string)
    requires head != "" ==> head[|head| - 1] != ':'
    requires forall k | 0 <= k && k + 1 < |head| :: head[k] != ':' || head[k + 1] != ':'
    ensures FindGap(head + "::" + tail, 0) == |head|
  {
    var s := head + "::" + tail;
    assert forall k | 0 <= k < |head| :: s[k] == head[k];
    assert s[|head|] == ':' && s[|head| + 1] == ':';
  }

  lemma NoGap(s: string)
    requires forall k | 0 <= k && k + 1 < |s| :: s[k] != ':' || s[k + 1] != ':'
    ensures FindGap(s, 0) == |s|
  {
  }

  /** With a gap: any head and tail parts, hex or embedded IPv4, and any zone. */
  lemma GapText(head: seq<string>, tail: seq<string>, zone: string)
    requires Clean(head) && Clean(tail) && (zone == "" || zone[0] == '%')
    requires Collect(head).Some? && Collect(tail).Some?
    ensures var groups := Fill(Collect(head).value, Collect(tail).value, true);
            groups.Some? ==>
              Ipv6ToBytes(JoinWith(head, ':') + "::" + JoinWith(tail, ':') + zone) == Some(GroupBytes(groups.value))
  {
    hide Collect, GroupBytes, JoinWith, FindGap, ToGroups;
    var h, t := JoinWith(head, ':'), JoinWith(tail, ':');
    JoinedIsClean(head);
    JoinedIsClean(tail);
    JoinedGroups(head);
    JoinedGroups(tail);
    BareAddress(h + "::" + t, zone);
    GapFound(h, t);
    assert (h + "::" + t)[..|h|] == h && (h + "::" + t)[|h| + 2..] == t;
  }

  /** Without a gap. */
  lemma FullText(parts: seq<string>, zone: string)
    requires Clean(parts) && (zone == "" || zone[0] == '%')
    requires Collect(parts).Some? && |Collect(parts).value| == 8
    ensures Ipv6ToBytes(JoinWith(parts, ':') + zone) == Some(GroupBytes(Collect(parts).value))
  {
    var s := JoinWith(parts, ':');
    JoinedIsClean(parts);
    JoinedGroups(parts);
    BareAddress(s, zone);
    NoGap(s);
    assert s[..|s|] == s;
    var groups := Collect(parts).value;
    assert groups + Zeros(0) + [] == groups;
  }

  // ---- every printed address ------------------------------------------------------------------------

  /** The hex texts of some groups; each group may be written with or without leading zeros and in
      either case. */
  predicate Prints(texts: seq<string>, groups: seq<Group>) {
    |texts| == |groups| && forall k | 0 <= k < |texts| :: IsGroup(texts[k]) && HexValue(texts[k]) == groups[k]
  }

  /** The dotted text of the last two groups. */
  function Quad(a: Group, b: Group): string {
    Dotted([(a / 256) as Byte, (a % 256) as Byte, (b / 256) as Byte, (b % 256) as Byte])
  }

  /** The parts of the text form: eight hex groups, or six and an IPv4 tail. */
  function Parts(texts: seq<string>, groups: seq<Group>, quad: bool): seq<string>
    requires |texts| == |groups| == 8
  {
    if quad then texts[..6] + [Quad(groups[6], groups[7])] else texts
  }

  /** An address in text: all its parts, or `::` in place of the zero groups in [gap.0, gap.1). */
  function Print(texts: seq<string>, groups: seq<Group>, gap: Option<(nat, nat)>, quad: bool): string
    requires |texts| == |groups| == 8
    requires gap.Some? ==> gap.value.0 <= gap.value.1 <= (if quad then 6 else 8)
  {
    var parts := Parts(texts, groups, quad);
    match gap
    case None => JoinWith(parts, ':')
    case Some((from, to)) => JoinWith(parts[..from], ':') + "::" + JoinWith(parts[to..], ':')
  }

  lemma HexIsClean(text: string)
    requires IsGroup(text)
    ensures HexValue(text) < 0x1_0000 && CleanPart(text) && PartGroups(text) == Some([HexValue(text) as Group])
  {
    GroupFits(text);
  }

  predicate DigitsAndDots(s: string) {
    forall k | 0 <= k < |s| :: IsDigit(s[k]) || s[k] == '.'
  }

  lemma DecimalDigits(n: nat)
    ensures DigitsAndDots(Decimal(n))
  {
    assert forall k | 0 <= k < |Decimal(n)| :: Decimal(n)[k] in Decimal(n);
  }

  lemma {:induction false} JoinedDigitsClean(parts: seq<string>)
    requires forall i | 0 <= i < |parts| :: DigitsAndDots(parts[i])
    ensures DigitsAndDots(JoinWith(parts, '.')) && (|parts| > 1 ==> '.' in JoinWith(parts, '.'))
  {
    if |parts| > 1 {
      JoinedDigitsClean(parts[1..]);
      var s := JoinWith(parts, '.');
      assert s[|parts[0]|] == '.';
    }
  }

  lemma QuadIsClean(a: Group, b: Group)
    ensures CleanPart(Quad(a, b)) && PartGroups(Quad(a, b)) == Some([a, b])
  {
    var o := [(a / 256) as Byte, (a % 256) as Byte, (b / 256) as Byte, (b % 256) as Byte];
    DottedIsIPv4(o);
    DecimalDigits(o[0] as int);
    DecimalDigits(o[1] as int);
    DecimalDigits(o[2] as int);
    DecimalDigits(o[3] as int);
    JoinedDigitsClean([Decimal(o[0] as int), Decimal(o[1] as int), Decimal(o[2] as int), Decimal(o[3] as int)]);
    assert '.' in Quad(a, b);
  }

  lemma CollectSnoc(parts: seq<string>, part: string, groups: seq<Group>, more: seq<Group>)
    requires Collect(parts) == Some(groups) && PartGroups(part) == Some(more)
    ensures Collect(parts + [part]) == Some(groups + more)
  {
    assert (parts + [part])[..|parts|] == parts;
  }

  lemma {:induction false} HexPartsCollect(texts: seq<string>, groups: seq<Group>)
    requires Prints(texts, groups)
    ensures Clean(texts) && Collect(texts) == Some(groups)
  {
    if texts != [] {
      var n := |texts| - 1;
      HexPartsCollect(texts[..n], groups[..n]);
      HexIsClean(texts[n]);
      CollectSnoc(texts[..n], texts[n], groups[..n], [groups[n]]);
      assert texts[..n] + [texts[n]] == texts && groups[..n] + [groups[n]] == groups;
    }
  }

  /** The parts from position `from` on stand for the groups from there on. */
  lemma TailPartsCollect(texts: seq<string>, groups: seq<Group>, quad: bool, from: nat)
    requires |groups| == 8 && Prints(texts, groups) && from <= (if quad then 6 else 8)
    ensures var tail := Parts(texts, groups, quad)[from..]; Clean(tail) && Collect(tail) == Some(groups[from..])
  {
    if quad {
      HexPartsCollect(texts[from..6], groups[from..6]);
      QuadIsClean(groups[6], groups[7]);
      CollectSnoc(texts[from..6], Quad(groups[6], groups[7]), groups[from..6], [groups[6], groups[7]]);
      assert Parts(texts, groups, quad)[from..] == texts[from..6] + [Quad(groups[6], groups[7])];
      assert groups[from..] == groups[from..6] + [groups[6], groups[7]];
    } else {
      HexPartsCollect(texts[from..], groups[from..]);
    }
  }

  lemma GapRoundTrip(texts: seq<string>, groups: seq<Group>, from: nat, to: nat, quad: bool, zone: string)
    requires |groups| == 8 && Prints(texts, groups) && (zone == "" || zone[0] == '%')
    requires from <= to <= (if quad then 6 else 8) && forall k | from <= k < to :: groups[k] == 0
    ensures Ipv6ToBytes(Print(texts, groups, Some((from, to)), quad) + zone) == Some(GroupBytes(groups))
  {
    var head, tail := texts[..from], Parts(texts, groups, quad)[to..];
    HexPartsCollect(head, groups[..from]);
    TailPartsCollect(texts, groups, quad, to);
    assert Parts(texts, groups, quad)[..from] == head;
    GapText(head, tail, zone);
    FilledUp(groups, from, to);
  }

  lemma FilledUp(groups: seq<Group>, from: nat, to: nat)
    requires |groups| == 8 && from <= to <= 8 && forall k | from <= k < to :: groups[k] == 0
    ensures Fill(groups[..from], groups[to..], true) == Some(groups)
  {
    assert groups == groups[..from] + Zeros(to - from) + groups[to..];
  }

  /** `ipv6ToBytes` inverts printing: for every eight groups, every spelling of the hex groups, every
      choice of a compressed run of zero groups, with or without an embedded IPv4 tail and a zone. */
  lemma Ipv6RoundTrip(texts: seq<string>, groups: seq<Group>, gap: Option<(nat, nat)>, quad: bool, zone: string)
    requires |groups| == 8 && Prints(texts, groups) && (zone == "" || zone[0] == '%')
    requires gap.Some? ==> gap.value.0 <= gap.value.1 <= (if quad then 6 else 8)
    requires gap.Some? ==> forall k | gap.value.0 <= k < gap.value.1 :: groups[k] == 0
    ensures Ipv6ToBytes(Print(texts, groups, gap, quad) + zone) == Some(GroupBytes(groups))
  {
    match gap
    case None =>
      TailPartsCollect(texts, groups, quad, 0);
      assert Parts(texts, groups, quad)[0..] == Parts(texts, groups, quad) && groups[0..] == groups;
      FullText(Parts(texts, groups, quad), zone);
    case Some((from, to)) =>
      GapRoundTrip(texts, groups, from, to, quad, zone);
  }

  /** The bytes determine the groups. */
  function BytesGroups(bytes: seq<Byte>): seq<Group>
    requires |bytes| % 2 == 0
  {
    if bytes == [] then []
    else BytesGroups(bytes[..|bytes| - 2]) + [bytes[|bytes| - 2] as int * 256 + bytes[|bytes| - 1] as int]
  }

  lemma {:induction false} BytesGroupsRoundTrip(groups: seq<Group>)
    ensures BytesGroups(GroupBytes(groups)) == groups
  {
    if groups != [] {
      var before := groups[..|groups| - 1];
      BytesGroupsRoundTrip(before);
      assert GroupBytes(groups)[..|GroupBytes(groups)| - 2] == GroupBytes(before);
    }
  }

  lemma {:induction false} GroupBytesRoundTrip(bytes: seq<Byte>)
    requires |bytes| % 2 == 0
    ensures GroupBytes(BytesGroups(bytes)) == bytes
  {
    if bytes != [] {
      var before := bytes[..|bytes| - 2];
      GroupBytesRoundTrip(before);
      assert BytesGroups(bytes)[..|BytesGroups(bytes)| - 1] == BytesGroups(before);
    }
  }
}
