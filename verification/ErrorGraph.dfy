/** upstream-failure.ts: the breadth-first search of an error's `errors` and `cause` links, over an
    object graph that may be shared and cyclic, for a refused connection to a loopback address. */
module ErrorGraph {
  import opened JsText
  import opened Protocol

  datatype RefusedConnection = RefusedConnection(address: string, port: Option<int>)

  function Lower(s: string): string {
    seq(|s|, i requires 0 <= i < |s| => if 'A' <= s[i] <= 'Z' then s[i] - 'A' + 'a' else s[i])
  }

  /** One to three digits at i; the position behind them, None if there are none or too many. */
  function OctetEnd(s: string, i: nat, room: nat): (end: nat)
    requires i <= |s|
    ensures i <= end <= |s| && end - i <= room
    decreases room
  {
    if room > 0 && i < |s| && '0' <= s[i] <= '9' then OctetEnd(s, i + 1, room - 1) else i
  }

  /** `n` times a dot and one to three digits, up to the end. */
  predicate DottedRest(s: string, i: nat, n: nat)
    requires i <= |s|
    decreases n
  {
    if n == 0 then i == |s|
    else
      i < |s| && s[i] == '.' &&
      var end := OctetEnd(s, i + 1, 3);
      end > i + 1 && DottedRest(s, end, n - 1)
  }

  /** `isLoopbackAddress` */
  predicate IsLoopback(address: string)
    decreases |address|
  {
    var a := Lower(Trim(address));
    TrimShrinks(address);
    a == "localhost" || a == "::1"
    || (if "::ffff:" <= a then IsLoopback(a[7..]) else "127" <= a && DottedRest(a, 3, 3))
  }

  /** Only ASCII letters are lowered. */
  lemma LowerExactly(s: string, i: nat)
    requires i < |s|
    ensures |Lower(s)| == |s|
    ensures forall k | 0 <= k < 26 && s[i] == "ABCDEFGHIJKLMNOPQRSTUVWXYZ"[k] ::
              Lower(s)[i] == "abcdefghijklmnopqrstuvwxyz"[k]
    ensures s[i] !in "ABCDEFGHIJKLMNOPQRSTUVWXYZ" ==> Lower(s)[i] == s[i]
  {
    if 'A' <= s[i] <= 'Z' {
      assert s[i] == "ABCDEFGHIJKLMNOPQRSTUVWXYZ"[s[i] as int - 'A' as int];
    }
  }

  predicate ShortNumber(s: string) {
    1 <= |s| <= 3 && forall k | 0 <= k < |s| :: '0' <= s[k] <= '9'
  }

  /** `n` short numbers, each behind a dot. */
  ghost predicate Numbers(s: string, n: nat)
    decreases n
  {
    if n == 0 then s == "" else exists x, tail :: ShortNumber(x) && s == "." + (x + tail) && Numbers(tail, n - 1)
  }

  /** A loopback address as it is usually written. */
  ghost predicate LoopbackText(a: string) {
    a == "localhost" || a == "::1" || ("127" <= a && Numbers(a[3..], 3))
  }

  lemma {:induction false} OctetDigits(s: string, i: nat, room: nat)
    requires i <= |s|
    ensures forall k | i <= k < OctetEnd(s, i, room) :: '0' <= s[k] <= '9'
    decreases room
  {
    if room > 0 && i < |s| && '0' <= s[i] <= '9' {
      OctetDigits(s, i + 1, room - 1);
    }
  }

  lemma {:induction false} OctetStops(s: string, i: nat, end: nat, room: nat)
    requires i <= end <= |s| && end - i <= room && forall k | i <= k < end :: '0' <= s[k] <= '9'
    requires end < |s| ==> s[end] == '.'
    ensures OctetEnd(s, i, room) == end
    decreases room
  {
    if i < end {
      OctetStops(s, i + 1, end, room - 1);
    }
  }

  lemma {:induction false} DottedIsNumbers(s: string, i: nat, n: nat)
    requires i <= |s| && DottedRest(s, i, n)
    ensures Numbers(s[i..], n)
    decreases n
  {
    if n > 0 {
      var end := OctetEnd(s, i + 1, 3);
      OctetDigits(s, i + 1, 3);
      DottedIsNumbers(s, end, n - 1);
      Behind(s[i..], s[i + 1..end], s[end..], n - 1);
    }
  }

  lemma Behind(s: string, x: string, tail: string, n: nat)
    requires ShortNumber(x) && Numbers(tail, n) && |s| == 1 + |x| + |tail|
    requires s[0] == '.' && s[1..1 + |x|] == x && s[1 + |x|..] == tail
    ensures Numbers(s, n + 1)
  {
    hide ShortNumber;
    assert s == "." + (x + tail);
  }

  lemma {:induction false} NumbersIsDotted(s: string, i: nat, n: nat)
    requires i <= |s| && Numbers(s[i..], n)
    ensures DottedRest(s, i, n)
    decreases n
  {
    hide ShortNumber, OctetEnd;
    if n > 0 {
      hide DottedRest;
      var x, tail :| ShortNumber(x) && s[i..] == "." + (x + tail) && Numbers(tail, n - 1);
      OneNumber(s, i, x, tail);
      NumbersIsDotted(s, i + 1 + |x|, n - 1);
      DottedBack(s, i, x, n - 1);
    }
  }

  lemma DottedBack(s: string, i: nat, x: string, n: nat)
    requires i + 1 + |x| <= |s| && s[i] == '.' && ShortNumber(x) && forall k | 0 <= k < |x| :: s[i + 1 + k] == x[k]
    requires DottedRest(s, i + 1 + |x|, n)
    ensures DottedRest(s, i, n + 1)
  {
    StartsWithDot(s, i + 1 + |x|, n);
    DigitsOf(s, i + 1, x);
    OctetStops(s, i + 1, i + 1 + |x|, 3);
  }

  lemma StartsWithDot(s: string, i: nat, n: nat)
    requires i <= |s| && DottedRest(s, i, n)
    ensures i < |s| ==> s[i] == '.'
  {
  }

  lemma DigitsOf(s: string, i: nat, x: string)
    requires i + |x| <= |s| && ShortNumber(x) && forall k | 0 <= k < |x| :: s[i + k] == x[k]
    ensures forall k | i <= k < i + |x| :: '0' <= s[k] <= '9'
  {
    forall k | i <= k < i + |x|
      ensures '0' <= s[k] <= '9'
    {
      assert s[i + (k - i)] == x[k - i];
    }
  }

  lemma OneNumber(s: string, i: nat, x: string, tail: string)
    requires i <= |s| && s[i..] == "." + (x + tail)
    ensures i + 1 + |x| <= |s| && s[i] == '.' && s[i + 1 + |x|..] == tail
    ensures forall k | 0 <= k < |x| :: s[i + 1 + k] == x[k]
  {
    var rest := s[i..];
    assert forall k | 0 <= k < |x| :: rest[1 + k] == x[k] && rest[1 + k] == s[i + 1 + k];
    assert rest[1 + |x|..] == tail && rest[1 + |x|..] == s[i + 1 + |x|..];
  }

  /** Which texts are loopback addresses, once trimmed and lowered: localhost, ::1, 127 with three more
      short numbers, and each of them behind the prefix of a mapped address. */
  lemma LoopbackExactly(address: string)
    ensures var a := Lower(Trim(address));
            IsLoopback(address) <==> LoopbackText(a) || ("::ffff:" <= a && IsLoopback(a[7..]))
  {
    hide DottedRest, Numbers, Lower, Trim;
    var a := Lower(Trim(address));
    assert ("127" <= a ==> a[0] == '1') && ("::ffff:" <= a ==> a[0] == ':');
    if "127" <= a && DottedRest(a, 3, 3) {
      DottedIsNumbers(a, 3, 3);
    }
    if "127" <= a && Numbers(a[3..], 3) {
      NumbersIsDotted(a, 3, 3);
    }
  }

  lemma LowerTwice(s: string, t: string)
    ensures Lower(Lower(s)) == Lower(s) && Lower(s + t) == Lower(s) + Lower(t)
  {
  }

  lemma {:induction false} LowerTrimStart(s: string)
    ensures Lower(TrimStart(s)) == TrimStart(Lower(s))
    decreases |s|
  {
    if s != "" && IsSpace(s[0]) {
      LowerTrimStart(s[1..]);
      assert Lower(s)[1..] == Lower(s[1..]);
    }
  }

  lemma {:induction false} LowerTrimEnd(s: string)
    ensures Lower(TrimEnd(s)) == TrimEnd(Lower(s))
    decreases |s|
  {
    if s != "" && IsSpace(s[|s| - 1]) {
      LowerTrimEnd(s[..|s| - 1]);
      assert Lower(s)[..|s| - 1] == Lower(s[..|s| - 1]);
    }
  }

  /** Case does not matter, nor does white space around the address. */
  lemma CaseDoesNotMatter(s: string, t: string)
    requires Lower(s) == Lower(t)
    ensures IsLoopback(s) <==> IsLoopback(t)
  {
    LowerTrimStart(s);
    LowerTrimEnd(TrimStart(s));
    LowerTrimStart(t);
    LowerTrimEnd(TrimStart(t));
  }

  lemma SpaceDoesNotMatter(s: string, c: char)
    requires IsSpace(c)
    ensures IsLoopback([c] + s) <==> IsLoopback(s)
    ensures IsLoopback(s + [c]) <==> IsLoopback(s)
  {
    assert ([c] + s)[1..] == s;
    TrimSpaceAfter(s, c);
  }

  lemma {:induction false} SpacesAtTheEnd(s: string)
    ensures IsLoopback(TrimEnd(s)) <==> IsLoopback(s)
    decreases |s|
  {
    if s != "" && IsSpace(s[|s| - 1]) {
      assert s == s[..|s| - 1] + [s[|s| - 1]];
      SpaceDoesNotMatter(s[..|s| - 1], s[|s| - 1]);
      SpacesAtTheEnd(s[..|s| - 1]);
    }
  }

  lemma {:induction false} TrimEndBehind(front: string, s: string)
    requires front != "" && !IsSpace(front[|front| - 1])
    ensures TrimEnd(front + s) == front + TrimEnd(s)
    decreases |s|
  {
    if s == "" {
      assert front + s == front;
    } else if IsSpace(s[|s| - 1]) {
      assert (front + s)[..|front + s| - 1] == front + s[..|s| - 1];
      TrimEndBehind(front, s[..|s| - 1]);
    }
  }

  /** A mapped address counts exactly if the address behind the prefix does. */
  lemma MappedCounts(s: string)
    ensures IsLoopback("::ffff:" + s) <==> IsLoopback(s)
  {
    var front := "::ffff:";
    TrimEndBehind(front, s);
    LowerTwice(front, TrimEnd(s));
    LowerTwice(TrimEnd(s), "");
    assert Lower(front) == front;
    assert (front + Lower(TrimEnd(s)))[7..] == Lower(TrimEnd(s));
    CaseDoesNotMatter(Lower(TrimEnd(s)), TrimEnd(s));
    SpacesAtTheEnd(s);
  }

  lemma TrimShrinks(s: string)
    ensures |Trim(s)| <= |s|
  {
    TrimStartShrinks(s);
  }

  lemma {:induction false} TrimStartShrinks(s: string)
    ensures |TrimStart(s)| <= |s|
    decreases |s|
  {
    if s != "" && IsSpace(s[0]) {
      TrimStartShrinks(s[1..]);
    }
  }

  /** An error object; what is no object, or absent, is null. */
  class ErrorNode {
    var code: Option<string>
    var address: Option<string>
    var port: Option<int>
    var errors: seq<ErrorNode?>
    var cause: ErrorNode?

    predicate Refused()
      reads this
    {
      code == Some("ECONNREFUSED") && address.Some? && IsLoopback(address.value)
    }

    function Connection(): RefusedConnection
      requires Refused()
      reads this
    {
      RefusedConnection(address.value, port)
    }

    function Links(): seq<ErrorNode?>
      reads this
    {
      errors + if cause == null then [] else [cause]
    }
  }

  /** A finite graph: no link leads out of it. */
  ghost predicate Closed(nodes: set<ErrorNode>)
    reads nodes
  {
    forall n <- nodes, m <- n.Links() | m != null :: m in nodes
  }

  /** The nodes at most k links away. */
  ghost function Near(root: ErrorNode?, nodes: set<ErrorNode>, k: nat): (near: set<ErrorNode>)
    requires Closed(nodes) && (root != null ==> root in nodes)
    reads nodes
    ensures near <= nodes
  {
    if k == 0 then (if root == null then {} else {root})
    else
      var closer := Near(root, nodes, k - 1);
      closer + set n, m: ErrorNode | n in closer && m in n.Links() :: m
  }

  ghost predicate NoneRefused(nodes: set<ErrorNode>)
    reads nodes
  {
    forall n <- nodes :: !n.Refused()
  }

  lemma {:induction false} ClosedSetHoldsAll(root: ErrorNode?, nodes: set<ErrorNode>, seen: set<ErrorNode>, k: nat)
    requires Closed(nodes) && (root != null ==> root in nodes && root in seen)
    requires seen <= nodes && forall n <- seen, m <- n.Links() | m != null :: m in seen
    ensures Near(root, nodes, k) <= seen
  {
    if k > 0 {
      ClosedSetHoldsAll(root, nodes, seen, k - 1);
    }
  }

  function Objects(queue: seq<ErrorNode?>): set<ErrorNode> {
    set n: ErrorNode | n in queue
  }

  /** The search: the first `here` entries of the queue are `level` links away, the others one more;
      everything up to `level` has been seen or is at the front; nothing seen is refused. */
  ghost predicate Searching(err: ErrorNode?, nodes: set<ErrorNode>, seen: set<ErrorNode>, queue: seq<ErrorNode?>,
      here: nat, level: nat)
    requires Closed(nodes) && (err != null ==> err in nodes)
    reads nodes
  {
    && here <= |queue| && seen <= Near(err, nodes, level) && NoneRefused(seen)
    && Near(err, nodes, level) <= seen + Objects(queue[..here])
    && Objects(queue[..here]) <= Near(err, nodes, level)
    && Objects(queue) <= Near(err, nodes, level + 1)
    && (forall n <- seen :: Objects(n.Links()) <= seen + Objects(queue))
    && (level > 0 ==> Near(err, nodes, level - 1) <= seen)
    && (err != null ==> err in seen + Objects(queue))
  }

  lemma Deepen(err: ErrorNode?, nodes: set<ErrorNode>, seen: set<ErrorNode>, queue: seq<ErrorNode?>, level: nat)
    requires Closed(nodes) && (err != null ==> err in nodes) && Searching(err, nodes, seen, queue, 0, level)
    ensures Searching(err, nodes, seen, queue, |queue|, level + 1)
  {
    assert queue[..|queue|] == queue && Objects(queue[..0]) == {};
    forall m <- Near(err, nodes, level + 1)
      ensures m in seen + Objects(queue)
    {
      if m !in Near(err, nodes, level) {
        var n :| n in Near(err, nodes, level) && m in n.Links();
        assert m in Objects(n.Links());
      }
    }
  }

  lemma HeadAndTail<T>(s: seq<T>)
    requires s != []
    ensures s == [s[0]] + s[1..]
  {
  }

  lemma Dequeue(current: ErrorNode?, rest: seq<ErrorNode?>, here: nat)
    requires 0 < here <= |rest| + 1
    ensures Objects([current] + rest) == Objects(rest) + Objects([current])
    ensures Objects(([current] + rest)[..here]) == Objects(rest[..here - 1]) + Objects([current])
    ensures Objects([current]) == if current == null then {} else {current}
  {
    assert ([current] + rest)[..here] == [current] + rest[..here - 1];
  }

  lemma Pass(err: ErrorNode?, nodes: set<ErrorNode>, seen: set<ErrorNode>, current: ErrorNode?, rest: seq<ErrorNode?>,
      here: nat, level: nat)
    requires Closed(nodes) && (err != null ==> err in nodes) && here > 0
    requires Searching(err, nodes, seen, [current] + rest, here, level) && (current == null || current in seen)
    ensures Searching(err, nodes, seen, rest, here - 1, level)
  {
    Dequeue(current, rest, here);
  }

  lemma Visit(err: ErrorNode?, nodes: set<ErrorNode>, seen: set<ErrorNode>, current: ErrorNode, rest: seq<ErrorNode?>,
      here: nat, level: nat)
    requires Closed(nodes) && (err != null ==> err in nodes) && here > 0
    requires Searching(err, nodes, seen, [current] + rest, here, level) && current !in seen
    ensures current in Near(err, nodes, level)
    ensures !current.Refused() ==> Searching(err, nodes, seen + {current}, rest + current.Links(), here - 1, level)
  {
    Dequeue(current, rest, here);
    var queue := rest + current.Links();
    assert queue[..here - 1] == rest[..here - 1];
    assert Objects(queue) == Objects(rest) + Objects(current.Links());
    assert Objects(current.Links()) <= Near(err, nodes, level + 1);
  }

  method Enqueue(queue: seq<ErrorNode?>, current: ErrorNode) returns (r: seq<ErrorNode?>)
    ensures r == queue + current.Links()
  {
    r := queue + current.errors;
    if current.cause != null {
      r := r + [current.cause];
    }
  }

  lemma Exhausted(err: ErrorNode?, nodes: set<ErrorNode>, seen: set<ErrorNode>, here: nat, level: nat)
    requires Closed(nodes) && (err != null ==> err in nodes) && Searching(err, nodes, seen, [], here, level)
    ensures forall k: nat :: NoneRefused(Near(err, nodes, k))
  {
    forall n <- seen, m <- n.Links() | m != null
      ensures m in seen
    {
      assert m in Objects(n.Links());
    }
    forall k: nat
      ensures NoneRefused(Near(err, nodes, k))
    {
      ClosedSetHoldsAll(err, nodes, seen, k);
    }
  }

  /** r is a refused loopback connection that no other is closer than. */
  ghost predicate Nearest(err: ErrorNode?, nodes: set<ErrorNode>, r: RefusedConnection, k: nat)
    requires Closed(nodes) && (err != null ==> err in nodes)
    reads nodes
  {
    && (exists n <- Near(err, nodes, k) ::
          n.code == Some("ECONNREFUSED") && n.address == Some(r.address) && IsLoopback(r.address) && n.port == r.port)
    && (k > 0 ==> NoneRefused(Near(err, nodes, k - 1)))
  }

  /** The front of the queue always holds the nearest unseen nodes. */
  lemma Front(err: ErrorNode?, nodes: set<ErrorNode>, seen: set<ErrorNode>, queue: seq<ErrorNode?>, here: nat,
      level: nat)
    returns (h: nat, l: nat)
    requires Closed(nodes) && (err != null ==> err in nodes) && Searching(err, nodes, seen, queue, here, level)
             && queue != []
    ensures h > 0 && Searching(err, nodes, seen, [queue[0]] + queue[1..], h, l)
  {
    HeadAndTail(queue);
    h, l := here, level;
    if here == 0 {
      Deepen(err, nodes, seen, queue, level);
      h, l := |queue|, level + 1;
    }
  }

  lemma Found(err: ErrorNode?, nodes: set<ErrorNode>, seen: set<ErrorNode>, current: ErrorNode, rest: seq<ErrorNode?>,
      here: nat, level: nat)
    requires Closed(nodes) && (err != null ==> err in nodes) && here > 0
    requires Searching(err, nodes, seen, [current] + rest, here, level) && current !in seen && current.Refused()
    ensures Nearest(err, nodes, current.Connection(), level)
  {
    Visit(err, nodes, seen, current, rest, here, level);
  }

  /** The search ends on every finite graph, cyclic ones included. It returns a connection exactly if
      a refused loopback connection is reachable, and then one with the fewest links to it. */
  method FindLoopbackRefusedConnection(err: ErrorNode?, ghost nodes: set<ErrorNode>)
    returns (r: Option<RefusedConnection>)
    requires Closed(nodes) && (err != null ==> err in nodes)
    ensures r.None? ==> forall k: nat :: NoneRefused(Near(err, nodes, k))
    ensures r.Some? ==> exists k: nat :: Nearest(err, nodes, r.value, k)
  {
    var seen: set<ErrorNode> := {};
    var queue := [err];
    ghost var level: nat, here: nat := 0, 1;
    assert queue[..here] == queue;
    while |queue| > 0
      invariant Searching(err, nodes, seen, queue, here, level)
      decreases nodes - seen, |queue|
    {
      here, level := Front(err, nodes, seen, queue, here, level);
      var current := queue[0];
      queue := queue[1..];
      if current == null || current in seen {
        Pass(err, nodes, seen, current, queue, here, level);
      } else if current.Refused() {
        Found(err, nodes, seen, current, queue, here, level);
        return Some(current.Connection());
      } else {
        Visit(err, nodes, seen, current, queue, here, level);
        seen := seen + {current};
        queue := Enqueue(queue, current);
      }
      here := here - 1;
    }
    Exhausted(err, nodes, seen, here, level);
    r := None;
  }
}
