/** The SOCKS5 client of socks5.ts: the socket reader, the handshake as a function of the byte
    stream, and the frames it writes (sections 3, 4 and 6 of RFC 1928, section 2 of RFC 1929). */
module Socks5 {
  import opened Protocol
  import opened Bytes
  import opened Ipv6

  const VERSION: Byte := 0x05
  const AUTH_NONE: Byte := 0x00
  const AUTH_USERPASS: Byte := 0x02
  const AUTH_NONE_ACCEPTABLE: Byte := 0xff
  const USERPASS_SUBNEGOTIATION_VERSION: Byte := 0x01
  const CMD_CONNECT: Byte := 0x01
  const ATYP_IPV4: Byte := 0x01
  const ATYP_DOMAIN: Byte := 0x03
  const ATYP_IPV6: Byte := 0x04
  const REP_SUCCEEDED: Byte := 0x00
  const CREDENTIAL_MAX_BYTES: nat := 255

  // ---- the reader --------------------------------------------------------------------------------

  datatype ReadResult = Resolved(bytes: seq<Byte>) | Suspended | Refused

  class SocketReader {
    var buffered: seq<Byte>
    var waiter: Option<nat>
    var failed: bool
    ghost var received: seq<Byte>
    ghost var delivered: seq<Byte>

    /** Nothing received is lost, repeated or reordered, and nobody waits for bytes that are there. */
    ghost predicate Valid()
      reads this
    {
      received == delivered + buffered && (waiter.Some? ==> |buffered| < waiter.value && !failed)
    }

    constructor ()
      ensures Valid() && received == [] && delivered == [] && waiter.None? && !failed
    {
      buffered, waiter, failed, received, delivered := [], None, false, [], [];
    }

    method SettleIfReady() returns (r: Option<seq<Byte>>)
      requires received == delivered + buffered && !failed
      modifies this`buffered, this`waiter, this`delivered
      ensures Valid()
      ensures match old(waiter)
              case None => r == None && waiter == None
              case Some(need) =>
                if |old(buffered)| < need then r == None && waiter == old(waiter)
                else r.Some? && |r.value| == need && waiter == None
      ensures delivered == old(delivered) + if r.Some? then r.value else []
      ensures old(buffered) == (if r.Some? then r.value else []) + buffered
    {
      if waiter.None? || |buffered| < waiter.value {
        return None;
      }
      var need := waiter.value;
      waiter := None;
      r := Some(buffered[..need]);
      delivered := delivered + buffered[..need];
      buffered := buffered[need..];
    }

    method OnData(chunk: seq<Byte>) returns (r: Option<seq<Byte>>)
      requires Valid() && !failed
      modifies this`buffered, this`waiter, this`received, this`delivered
      ensures Valid() && received == old(received) + chunk
      ensures delivered == old(delivered) + if r.Some? then r.value else []
      ensures old(buffered) + chunk == (if r.Some? then r.value else []) + buffered
      ensures r.Some? ==> old(waiter) == Some(|r.value|) && waiter == None
      ensures r.None? ==> waiter == old(waiter)
    {
      buffered, received := buffered + chunk, received + chunk;
      r := SettleIfReady();
    }

    method Read(n: nat) returns (r: ReadResult)
      requires Valid()
      modifies this`buffered, this`waiter, this`delivered
      ensures Valid()
      ensures r.Refused? <==> failed || old(waiter).Some?
      ensures r.Suspended? <==> !failed && old(waiter).None? && |old(buffered)| < n
      ensures r.Resolved? ==> |r.bytes| == n
      ensures waiter == if r.Suspended? then Some(n) else old(waiter)
      ensures delivered == old(delivered) + if r.Resolved? then r.bytes else []
      ensures old(buffered) == (if r.Resolved? then r.bytes else []) + buffered
    {
      if failed || waiter.Some? {
        return Refused;
      }
      waiter := Some(n);
      var settled := SettleIfReady();
      r := if settled.Some? then Resolved(settled.value) else Suspended;
    }

    /** The first error sticks, and whoever waits is woken with it. */
    method Fail() returns (rejected: bool)
      requires Valid()
      modifies this`waiter, this`failed
      ensures Valid() && failed && waiter == None && rejected == old(waiter).Some?
    {
      rejected := waiter.Some?;
      waiter, failed := None, true;
    }

    /** What `release` puts back on the socket: exactly what no read has delivered. */
    method Release() returns (back: seq<Byte>)
      requires Valid()
      ensures received == delivered + back
    {
      back := buffered;
    }
  }

  // ---- the handshake -------------------------------------------------------------------------------

  /** Credentials as UTF-8 bytes; an empty user name means none are configured. The destination is
      already encoded as ATYP and ADDR. */
  datatype Setup = Setup(user: seq<Byte>, password: seq<Byte>, destination: seq<Byte>, port: nat)

  predicate ValidSetup(s: Setup) {
    s.port < 0x1_0000
  }

  datatype Failure =
    | NotSocks5(version: Byte)
    | NoAcceptableMethod
    | AuthNotConfigured
    | CredentialsTooLong
    | UnexpectedAuthVersion(version: Byte)
    | CredentialsRejected
    | UnsupportedMethod(chosen: Byte)
    | ConnectFailed(reply: Byte)
    | UnsupportedAddressType(atyp: Byte)

  /** Which reply the client waits for. */
  datatype Phase = Greeting | AuthReply | ConnectReply | DomainLength | BoundAddress(length: nat) | Connected
      | Broken(why: Failure)

  /** How many bytes the pending read wants, None when the handshake is over. */
  function Need(p: Phase): Option<nat> {
    match p
    case Greeting => Some(2)
    case AuthReply => Some(2)
    case ConnectReply => Some(4)
    case DomainLength => Some(1)
    case BoundAddress(n) => Some(n + 2)
    case Connected => None
    case Broken(_) => None
  }

  function Left(p: Phase): nat {
    match p
    case Greeting => 5
    case AuthReply => 4
    case ConnectReply => 3
    case DomainLength => 2
    case BoundAddress(_) => 1
    case Connected => 0
    case Broken(_) => 0
  }

  function GreetingFrame(s: Setup): seq<Byte> {
    if s.user == [] then [VERSION, 1, AUTH_NONE] else [VERSION, 2, AUTH_NONE, AUTH_USERPASS]
  }

  function AuthFrame(s: Setup): seq<Byte>
    requires |s.user| <= CREDENTIAL_MAX_BYTES && |s.password| <= CREDENTIAL_MAX_BYTES
  {
    [USERPASS_SUBNEGOTIATION_VERSION, |s.user| as Byte] + s.user + [|s.password| as Byte] + s.password
  }

  function PortBytes(port: nat): seq<Byte>
    requires port < 0x1_0000
  {
    [(port / 256) as Byte, (port % 256) as Byte]
  }

  function ConnectFrame(s: Setup): seq<Byte>
    requires ValidSetup(s)
  {
    [VERSION, CMD_CONNECT, 0x00] + s.destination + PortBytes(s.port)
  }

  /** The client after a read: the next phase and what it writes. */
  function Step(s: Setup, p: Phase, b: seq<Byte>): (r: (Phase, seq<Byte>))
    requires ValidSetup(s) && Need(p) == Some(|b|)
    ensures Left(r.0) < Left(p)
  {
    match p
    case Greeting =>
      var chosen := b[1];
      if b[0] != VERSION then (Broken(NotSocks5(b[0])), [])
      else if chosen == AUTH_NONE_ACCEPTABLE then (Broken(NoAcceptableMethod), [])
      else if chosen == AUTH_USERPASS then
        if s.user == [] then (Broken(AuthNotConfigured), [])
        else if |s.user| > CREDENTIAL_MAX_BYTES || |s.password| > CREDENTIAL_MAX_BYTES then
          (Broken(CredentialsTooLong), [])
        else (AuthReply, AuthFrame(s))
      else if chosen != AUTH_NONE then (Broken(UnsupportedMethod(chosen)), [])
      else (ConnectReply, ConnectFrame(s))
    case AuthReply =>
      if b[0] != USERPASS_SUBNEGOTIATION_VERSION then (Broken(UnexpectedAuthVersion(b[0])), [])
      else if b[1] != 0x00 then (Broken(CredentialsRejected), [])
      else (ConnectReply, ConnectFrame(s))
    case ConnectReply =>
      if b[1] != REP_SUCCEEDED then (Broken(ConnectFailed(b[1])), [])
      else if b[3] == ATYP_DOMAIN then (DomainLength, [])
      else if b[3] == ATYP_IPV4 then (BoundAddress(4), [])
      else if b[3] == ATYP_IPV6 then (BoundAddress(16), [])
      else (Broken(UnsupportedAddressType(b[3])), [])
    case DomainLength => (BoundAddress(b[0] as nat), [])
    case BoundAddress(_) => (Connected, [])
  }

  /** The handshake between two chunks: phase, buffered bytes, and all it has written and consumed. */
  datatype Handshake = Handshake(phase: Phase, buffered: seq<Byte>, written: seq<Byte>, consumed: seq<Byte>)

  /** All reads that the buffered bytes can serve. */
  function Serve(s: Setup, h: Handshake): (r: Handshake)
    requires ValidSetup(s)
    ensures Need(r.phase).Some? ==> |r.buffered| < Need(r.phase).value
    decreases Left(h.phase)
  {
    match Need(h.phase)
    case None => h
    case Some(n) =>
      if |h.buffered| < n then h
      else
        var (next, frame) := Step(s, h.phase, h.buffered[..n]);
        Serve(s, Handshake(next, h.buffered[n..], h.written + frame, h.consumed + h.buffered[..n]))
  }

  function OnChunk(s: Setup, h: Handshake, chunk: seq<Byte>): Handshake
    requires ValidSetup(s)
  {
    Serve(s, h.(buffered := h.buffered + chunk))
  }

  function Begin(s: Setup): Handshake {
    Handshake(Greeting, [], GreetingFrame(s), [])
  }

  function OnChunks(s: Setup, chunks: seq<seq<Byte>>): Handshake
    requires ValidSetup(s)
  {
    if chunks == [] then Begin(s) else OnChunk(s, OnChunks(s, chunks[..|chunks| - 1]), chunks[|chunks| - 1])
  }

  /** The handshake on the whole stream at once. */
  function Whole(s: Setup, stream: seq<Byte>): Handshake
    requires ValidSetup(s)
  {
    OnChunk(s, Begin(s), stream)
  }

  lemma {:induction false} ServeMore(s: Setup, h: Handshake, more: seq<Byte>)
    requires ValidSetup(s)
    ensures OnChunk(s, Serve(s, h), more) == OnChunk(s, h, more)
    decreases Left(h.phase)
  {
    match Need(h.phase)
    case None =>
    case Some(n) =>
      if |h.buffered| >= n {
        var (next, frame) := Step(s, h.phase, h.buffered[..n]);
        var all := h.buffered + more;
        assert all[..n] == h.buffered[..n] && all[n..] == h.buffered[n..] + more;
        ServeMore(s, Handshake(next, h.buffered[n..], h.written + frame, h.consumed + h.buffered[..n]), more);
      }
  }

  lemma {:induction false} ServeKeepsBytes(s: Setup, h: Handshake)
    requires ValidSetup(s)
    ensures var r := Serve(s, h); r.consumed + r.buffered == h.consumed + h.buffered
    decreases Left(h.phase)
  {
    match Need(h.phase)
    case None =>
    case Some(n) =>
      if |h.buffered| >= n {
        var (next, frame) := Step(s, h.phase, h.buffered[..n]);
        var t := Handshake(next, h.buffered[n..], h.written + frame, h.consumed + h.buffered[..n]);
        assert t.consumed + t.buffered == h.consumed + h.buffered;
        ServeKeepsBytes(s, t);
      }
  }

  lemma BeginWaits(s: Setup)
    requires ValidSetup(s)
    ensures Begin(s).buffered == Begin(s).consumed == [] && OnChunk(s, Begin(s), []) == Begin(s)
  {
    assert Begin(s).(buffered := [] + []) == Begin(s);
  }

  /** The handshake is a function of the byte stream alone: for every chunking it is in the same
      phase, has written the same frames, and the bytes its reads took with the bytes it would put
      back are exactly the bytes received. */
  lemma {:induction false} HandshakeIgnoresChunking(s: Setup, chunks: seq<seq<Byte>>)
    requires ValidSetup(s)
    ensures OnChunks(s, chunks) == Whole(s, Concat(chunks))
    ensures OnChunks(s, chunks).consumed + OnChunks(s, chunks).buffered == Concat(chunks)
  {
    hide Serve, Begin;
    var all := Concat(chunks);
    BeginWaits(s);
    ServeKeepsBytes(s, Begin(s).(buffered := [] + all));
    if chunks != [] {
      var before, chunk := chunks[..|chunks| - 1], chunks[|chunks| - 1];
      HandshakeIgnoresChunking(s, before);
      ServeMore(s, Begin(s).(buffered := [] + Concat(before)), chunk);
      assert [] + Concat(before) + chunk == [] + all;
    }
    assert [] + ([] + all) == all;
  }

  // ---- success, exactly ------------------------------------------------------------------------------

  datatype Bound = BoundV4(address: seq<Byte>) | BoundV6(address: seq<Byte>) | BoundDomain(address: seq<Byte>)

  /** What a willing server sends; `auth` says whether it chose username/password. The client looks
      neither at the version nor at the reserved byte of the CONNECT reply. */
  datatype Transcript = Transcript(auth: bool, version: Byte, reserved: Byte, bound: Bound, port: seq<Byte>)

  predicate Willing(s: Setup, t: Transcript) {
    && (t.auth ==> s.user != [] && |s.user| <= CREDENTIAL_MAX_BYTES && |s.password| <= CREDENTIAL_MAX_BYTES)
    && |t.port| == 2
    && (match t.bound
        case BoundV4(a) => |a| == 4
        case BoundV6(a) => |a| == 16
        case BoundDomain(a) => |a| <= 255)
  }

  function BoundBytes(b: Bound): seq<Byte>
    requires b.BoundDomain? ==> |b.address| <= 255
  {
    match b
    case BoundV4(a) => [ATYP_IPV4] + a
    case BoundV6(a) => [ATYP_IPV6] + a
    case BoundDomain(a) => [ATYP_DOMAIN, |a| as Byte] + a
  }

  function ReplyBytes(t: Transcript): seq<Byte>
    requires t.bound.BoundDomain? ==> |t.bound.address| <= 255
  {
    [t.version, REP_SUCCEEDED, t.reserved] + BoundBytes(t.bound) + t.port
  }

  function ServerBytes(t: Transcript): seq<Byte>
    requires t.bound.BoundDomain? ==> |t.bound.address| <= 255
  {
    (if t.auth then [VERSION, AUTH_USERPASS] + [USERPASS_SUBNEGOTIATION_VERSION, 0x00] else [VERSION, AUTH_NONE])
        + ReplyBytes(t)
  }

  function ClientBytes(s: Setup, t: Transcript): seq<Byte>
    requires ValidSetup(s) && Willing(s, t)
  {
    GreetingFrame(s) + (if t.auth then AuthFrame(s) else []) + ConnectFrame(s)
  }

  lemma ServeOne(s: Setup, h: Handshake, b: seq<Byte>, rest: seq<Byte>)
    requires ValidSetup(s) && Need(h.phase) == Some(|b|) && h.buffered == b + rest
    ensures var (next, frame) := Step(s, h.phase, b);
            Serve(s, h) == Serve(s, Handshake(next, rest, h.written + frame, h.consumed + b))
  {
    assert h.buffered[..|b|] == b && h.buffered[|b|..] == rest;
  }

  lemma BoundServed(s: Setup, h: Handshake, address: seq<Byte>, port: seq<Byte>, rest: seq<Byte>)
    requires ValidSetup(s) && h.phase == BoundAddress(|address|) && |port| == 2 && h.buffered == address + port + rest
    ensures Serve(s, h) == Handshake(Connected, rest, h.written, h.consumed + (address + port))
  {
    ServeOne(s, h, address + port, rest);
    assert h.written + [] == h.written;
  }

  lemma PlainReplyServed(s: Setup, h: Handshake, front: seq<Byte>, address: seq<Byte>, port: seq<Byte>, rest: seq<Byte>)
    requires ValidSetup(s) && h.phase == ConnectReply && h.buffered == front + (address + port + rest)
    requires |front| == 4 && front[1] == REP_SUCCEEDED && |port| == 2
    requires (front[3] == ATYP_IPV4 && |address| == 4) || (front[3] == ATYP_IPV6 && |address| == 16)
    ensures Serve(s, h) == Handshake(Connected, rest, h.written, h.consumed + front + (address + port))
  {
    ServeOne(s, h, front, address + port + rest);
    assert h.written + [] == h.written;
    BoundServed(s, Handshake(BoundAddress(|address|), address + port + rest, h.written, h.consumed + front),
                address, port, rest);
  }

  lemma DomainReplyServed(s: Setup, h: Handshake, front: seq<Byte>, length: seq<Byte>, address: seq<Byte>,
      port: seq<Byte>, rest: seq<Byte>)
    requires ValidSetup(s) && h.phase == ConnectReply && h.buffered == front + (length + (address + port + rest))
    requires |front| == 4 && front[1] == REP_SUCCEEDED && front[3] == ATYP_DOMAIN && |port| == 2
    requires |length| == 1 && length[0] as nat == |address|
    ensures Serve(s, h) == Handshake(Connected, rest, h.written, h.consumed + front + length + (address + port))
  {
    ServeOne(s, h, front, length + (address + port + rest));
    assert h.written + [] == h.written;
    var h1 := Handshake(DomainLength, length + (address + port + rest), h.written, h.consumed + front);
    DomainServed(s, h1, length, address, port, rest);
  }

  lemma DomainServed(s: Setup, h: Handshake, length: seq<Byte>, address: seq<Byte>, port: seq<Byte>, rest: seq<Byte>)
    requires ValidSetup(s) && h.phase == DomainLength && h.buffered == length + (address + port + rest)
    requires |length| == 1 && length[0] as nat == |address| && |port| == 2
    ensures Serve(s, h) == Handshake(Connected, rest, h.written, h.consumed + length + (address + port))
  {
    ServeOne(s, h, length, address + port + rest);
    assert h.written + [] == h.written;
    BoundServed(s, Handshake(BoundAddress(|address|), address + port + rest, h.written, h.consumed + length),
                address, port, rest);
  }

  /** The CONNECT reply, cut as the client reads it. */
  lemma PlainShape(version: Byte, reserved: Byte, bound: Bound, port: seq<Byte>, rest: seq<Byte>, front: seq<Byte>)
    requires !bound.BoundDomain?
    requires front == [version, REP_SUCCEEDED, reserved, if bound.BoundV4? then ATYP_IPV4 else ATYP_IPV6]
    ensures [version, REP_SUCCEEDED, reserved] + BoundBytes(bound) + port + rest
            == front + (bound.address + port + rest)
    ensures [version, REP_SUCCEEDED, reserved] + BoundBytes(bound) + port == front + (bound.address + port)
  {
    assert [version, REP_SUCCEEDED, reserved] + BoundBytes(bound) == front + bound.address;
  }

  lemma DomainShape(version: Byte, reserved: Byte, bound: Bound, port: seq<Byte>, rest: seq<Byte>, front: seq<Byte>,
      length: seq<Byte>)
    requires bound.BoundDomain? && |bound.address| <= 255 && length == [|bound.address| as Byte]
    requires front == [version, REP_SUCCEEDED, reserved, ATYP_DOMAIN]
    ensures [version, REP_SUCCEEDED, reserved] + BoundBytes(bound) + port + rest
            == front + (length + (bound.address + port + rest))
    ensures [version, REP_SUCCEEDED, reserved] + BoundBytes(bound) + port == front + length + (bound.address + port)
  {
    assert [version, REP_SUCCEEDED, reserved] + BoundBytes(bound) == front + length + bound.address;
  }

  lemma ReplyServed(s: Setup, h: Handshake, t: Transcript, rest: seq<Byte>)
    requires ValidSetup(s) && Willing(s, t) && h.phase == ConnectReply && h.buffered == ReplyBytes(t) + rest
    ensures Serve(s, h) == Handshake(Connected, rest, h.written, h.consumed + ReplyBytes(t))
  {
    var a := t.bound.address;
    if t.bound.BoundDomain? {
      var front, length := [t.version, REP_SUCCEEDED, t.reserved, ATYP_DOMAIN], [|a| as Byte];
      DomainShape(t.version, t.reserved, t.bound, t.port, rest, front, length);
      DomainReplyServed(s, h, front, length, a, t.port, rest);
      Regroup(h.consumed, front, length);
      Regroup(h.consumed, front + length, a + t.port);
    } else {
      var front := [t.version, REP_SUCCEEDED, t.reserved, if t.bound.BoundV4? then ATYP_IPV4 else ATYP_IPV6];
      PlainShape(t.version, t.reserved, t.bound, t.port, rest, front);
      PlainReplyServed(s, h, front, a, t.port, rest);
      Regroup(h.consumed, front, a + t.port);
    }
  }

  lemma GreetingServed(s: Setup, h: Handshake, greeting: seq<Byte>, t: Transcript, rest: seq<Byte>)
    requires ValidSetup(s) && Willing(s, t) && !t.auth && h.phase == Greeting
    requires greeting == [VERSION, AUTH_NONE] && h.buffered == greeting + (ReplyBytes(t) + rest)
    ensures Serve(s, h)
         == Handshake(Connected, rest, h.written + ConnectFrame(s), h.consumed + greeting + ReplyBytes(t))
  {
    ServeOne(s, h, greeting, ReplyBytes(t) + rest);
    ReplyServed(s, Handshake(ConnectReply, ReplyBytes(t) + rest, h.written + ConnectFrame(s), h.consumed + greeting),
        t, rest);
  }

  lemma AuthServed(s: Setup, h: Handshake, verdict: seq<Byte>, t: Transcript, rest: seq<Byte>)
    requires ValidSetup(s) && Willing(s, t) && t.auth && h.phase == AuthReply
    requires verdict == [USERPASS_SUBNEGOTIATION_VERSION, 0x00] && h.buffered == verdict + (ReplyBytes(t) + rest)
    ensures Serve(s, h) == Handshake(Connected, rest, h.written + ConnectFrame(s), h.consumed + verdict + ReplyBytes(t))
  {
    ServeOne(s, h, verdict, ReplyBytes(t) + rest);
    ReplyServed(s, Handshake(ConnectReply, ReplyBytes(t) + rest, h.written + ConnectFrame(s), h.consumed + verdict),
        t, rest);
  }

  lemma AuthGreetingServed(s: Setup, h: Handshake, greeting: seq<Byte>, verdict: seq<Byte>, t: Transcript,
      rest: seq<Byte>)
    requires ValidSetup(s) && Willing(s, t) && t.auth && h.phase == Greeting
    requires greeting == [VERSION, AUTH_USERPASS] && verdict == [USERPASS_SUBNEGOTIATION_VERSION, 0x00]
    requires h.buffered == greeting + (verdict + (ReplyBytes(t) + rest))
    ensures Serve(s, h)
         == Handshake(Connected, rest, h.written + AuthFrame(s) + ConnectFrame(s),
                      h.consumed + greeting + verdict + ReplyBytes(t))
  {
    ServeOne(s, h, greeting, verdict + (ReplyBytes(t) + rest));
    var written, consumed := h.written + AuthFrame(s), h.consumed + greeting;
    var asked := Handshake(AuthReply, verdict + (ReplyBytes(t) + rest), written, consumed);
    AuthServed(s, asked, verdict, t, rest);
  }

  /** A willing server's replies are consumed exactly, every byte behind them is left to the tunnel,
      and the client has written its greeting, the credentials if asked, and the CONNECT request. */
  lemma WillingServerConnects(s: Setup, t: Transcript, tunnel: seq<Byte>)
    requires ValidSetup(s) && Willing(s, t)
    ensures Whole(s, ServerBytes(t) + tunnel) == Handshake(Connected, tunnel, ClientBytes(s, t), ServerBytes(t))
  {
    hide Serve;
    var reply := ReplyBytes(t);
    var h := Begin(s).(buffered := [] + (ServerBytes(t) + tunnel));
    if t.auth {
      var greeting, verdict := [VERSION, AUTH_USERPASS], [USERPASS_SUBNEGOTIATION_VERSION, 0x00];
      assert h.buffered == greeting + (verdict + (reply + tunnel));
      AuthGreetingServed(s, h, greeting, verdict, t, tunnel);
      assert h.consumed + greeting + verdict + reply == ServerBytes(t);
    } else {
      var greeting := [VERSION, AUTH_NONE];
      assert h.buffered == greeting + (reply + tunnel);
      GreetingServed(s, h, greeting, t, tunnel);
      assert h.consumed + greeting + reply == ServerBytes(t);
      assert GreetingFrame(s) + [] == GreetingFrame(s);
    }
  }

  // ---- and nothing else connects ----------------------------------------------------------------------

  /** A handshake that goes on to succeed has the bytes of its next read, and goes on from there. */
  lemma MustAdvance(s: Setup, h: Handshake) returns (b: seq<Byte>, next: Handshake)
    requires ValidSetup(s) && Need(h.phase).Some? && Serve(s, h).phase == Connected
    ensures Need(h.phase) == Some(|b|) && h.buffered == b + next.buffered
    ensures next.phase == Step(s, h.phase, b).0 && Serve(s, next).phase == Connected
  {
    var n := Need(h.phase).value;
    b := h.buffered[..n];
    var (phase, frame) := Step(s, h.phase, b);
    next := Handshake(phase, h.buffered[n..], h.written + frame, h.consumed + b);
  }

  lemma FailedStays(s: Setup, h: Handshake)
    requires ValidSetup(s) && Serve(s, h).phase == Connected
    ensures !h.phase.Broken?
  {
  }

  lemma ConnectedBound(s: Setup, h: Handshake) returns (address: seq<Byte>, port: seq<Byte>, rest: seq<Byte>)
    requires ValidSetup(s) && h.phase.BoundAddress? && Serve(s, h).phase == Connected
    ensures |port| == 2 && h.phase.length == |address| && h.buffered == address + port + rest
  {
    var b, next := MustAdvance(s, h);
    var n := h.phase.length;
    address, port, rest := b[..n], b[n..], next.buffered;
  }

  lemma ConnectedPlain(s: Setup, h: Handshake, b: seq<Byte>, next: Handshake) returns (t: Transcript, rest: seq<Byte>)
    requires ValidSetup(s) && h.buffered == b + next.buffered && Serve(s, next).phase == Connected
    requires |b| == 4 && b[1] == REP_SUCCEEDED && next.phase == BoundAddress(if b[3] == ATYP_IPV4 then 4 else 16)
    requires b[3] == ATYP_IPV4 || b[3] == ATYP_IPV6
    ensures !t.auth && Willing(s, t) && h.buffered == ReplyBytes(t) + rest
  {
    var address, port, more := ConnectedBound(s, next);
    t := Transcript(false, b[0], b[2], if b[3] == ATYP_IPV4 then BoundV4(address) else BoundV6(address), port);
    rest := more;
    PlainShape(t.version, t.reserved, t.bound, port, rest, b);
  }

  lemma ConnectedDomain(s: Setup, h: Handshake, b: seq<Byte>, next: Handshake) returns (t: Transcript, rest: seq<Byte>)
    requires ValidSetup(s) && h.buffered == b + next.buffered && Serve(s, next).phase == Connected
    requires |b| == 4 && b[1] == REP_SUCCEEDED && next.phase == DomainLength && b[3] == ATYP_DOMAIN
    ensures !t.auth && Willing(s, t) && h.buffered == ReplyBytes(t) + rest
  {
    var length, last := MustAdvance(s, next);
    var address, port, more := ConnectedBound(s, last);
    t := Transcript(false, b[0], b[2], BoundDomain(address), port);
    rest := more;
    assert length == [|address| as Byte];
    DomainShape(t.version, t.reserved, t.bound, port, rest, b, length);
  }

  lemma ConnectedReply(s: Setup, h: Handshake) returns (t: Transcript, rest: seq<Byte>)
    requires ValidSetup(s) && h.phase == ConnectReply && Serve(s, h).phase == Connected
    ensures !t.auth && Willing(s, t) && h.buffered == ReplyBytes(t) + rest
  {
    var b, next := MustAdvance(s, h);
    FailedStays(s, next);
    if b[3] == ATYP_DOMAIN {
      t, rest := ConnectedDomain(s, h, b, next);
    } else {
      t, rest := ConnectedPlain(s, h, b, next);
    }
  }

  lemma ConnectedAuth(s: Setup, h: Handshake) returns (verdict: seq<Byte>, next: Handshake)
    requires ValidSetup(s) && h.phase == AuthReply && Serve(s, h).phase == Connected
    ensures verdict == [USERPASS_SUBNEGOTIATION_VERSION, 0x00] && h.buffered == verdict + next.buffered
    ensures next.phase == ConnectReply && Serve(s, next).phase == Connected
  {
    verdict, next := MustAdvance(s, h);
    FailedStays(s, next);
  }

  /** A stream on which the handshake succeeds starts with the replies of a willing server. */
  lemma OnlyWillingServersConnect(s: Setup, stream: seq<Byte>) returns (t: Transcript, tunnel: seq<Byte>)
    requires ValidSetup(s) && Whole(s, stream).phase == Connected
    ensures Willing(s, t) && stream == ServerBytes(t) + tunnel
  {
    var h := Begin(s).(buffered := [] + stream);
    var greeting, next := MustAdvance(s, h);
    FailedStays(s, next);
    assert stream == greeting + next.buffered && greeting == [VERSION, greeting[1]];
    if greeting[1] == AUTH_USERPASS {
      var verdict, last := ConnectedAuth(s, next);
      t, tunnel := ConnectedReply(s, last);
      t := t.(auth := true);
      Regroup(greeting, verdict, ReplyBytes(t) + tunnel);
      Regroup(greeting + verdict, ReplyBytes(t), tunnel);
    } else {
      t, tunnel := ConnectedReply(s, next);
      Regroup(greeting, ReplyBytes(t), tunnel);
    }
  }

  // ---- the CONNECT frame ------------------------------------------------------------------------------

  /** `isIPv6` of Node, and UTF-8 both ways. */
  datatype Net = Net(isIPv6: string -> bool, utf8: string -> seq<Byte>, text: seq<Byte> -> string)

  /** `stripIpv6Brackets` */
  function StripBrackets(host: string): string {
    if |host| > 1 && host[0] == '[' && host[|host| - 1] == ']' then host[1..|host| - 1] else host
  }

  /** `encodeDestination` */
  function EncodeDestination(net: Net, rawHost: string): Option<seq<Byte>> {
    var host := StripBrackets(rawHost);
    if IsIPv4(host) then Some([ATYP_IPV4] + Octets(host))
    else if net.isIPv6(host) then
      match Ipv6ToBytes(host)
      case None => None
      case Some(bytes) => Some([ATYP_IPV6] + bytes)
    else
      var domain := net.utf8(host);
      if domain == [] || |domain| > 255 then None else Some([ATYP_DOMAIN, |domain| as Byte] + domain)
  }

  /** What a server reads from a request: address type, address, port, and the bytes after it. */
  datatype Request = Request(atyp: Byte, address: seq<Byte>, port: nat, rest: seq<Byte>)

  /** A decoder after section 4 of RFC 1928. */
  function DecodeRequest(f: seq<Byte>): Option<Request> {
    if |f| < 5 || f[0] != VERSION || f[1] != CMD_CONNECT then None
    else
      var length := if f[3] == ATYP_IPV4 then 4 else if f[3] == ATYP_IPV6 then 16 else f[4] as nat;
      var from := if f[3] == ATYP_DOMAIN then 5 else 4;
      if (f[3] != ATYP_IPV4 && f[3] != ATYP_IPV6 && f[3] != ATYP_DOMAIN) || |f| < from + length + 2 then None
      else Some(Request(f[3], f[from..from + length],
                        f[from + length] as nat * 256 + f[from + length + 1] as nat, f[from + length + 2..]))
  }

  /** The host text of a decoded request, as the test server prints it. */
  function HostText(net: Net, r: Request): string {
    if r.atyp == ATYP_IPV4 && |r.address| == 4 then Dotted(r.address)
    else if r.atyp == ATYP_IPV6 && |r.address| == 16 then JoinWith(HexTexts(BytesGroups(r.address)), ':')
    else net.text(r.address)
  }

  function HexTexts(groups: seq<Group>): (texts: seq<string>)
    ensures |texts| == |groups|
  {
    seq(|groups|, i requires 0 <= i < |groups| => Hex(groups[i]))
  }

  /** Every encoded CONNECT frame is decoded to its address and port, and nothing of what follows. */
  lemma FrameDecodes(s: Setup, atyp: Byte, address: seq<Byte>, more: seq<Byte>)
    requires ValidSetup(s)
    requires (atyp == ATYP_IPV4 && |address| == 4) || (atyp == ATYP_IPV6 && |address| == 16)
             || (atyp == ATYP_DOMAIN && 0 < |address| <= 255)
    requires s.destination == if atyp == ATYP_DOMAIN then [atyp, |address| as Byte] + address else [atyp] + address
    ensures DecodeRequest(ConnectFrame(s) + more) == Some(Request(atyp, address, s.port, more))
  {
    hide DecodeRequest;
    var front := [VERSION, CMD_CONNECT, 0x00, atyp] + if atyp == ATYP_DOMAIN then [|address| as Byte] else [];
    assert ConnectFrame(s) + more == front + (address + (PortBytes(s.port) + more));
    PartsDecode(atyp, front, address, s.port, more);
  }

  lemma PartsDecode(atyp: Byte, front: seq<Byte>, address: seq<Byte>, port: nat, more: seq<Byte>)
    requires (atyp == ATYP_IPV4 && |address| == 4) || (atyp == ATYP_IPV6 && |address| == 16)
             || (atyp == ATYP_DOMAIN && 0 < |address| <= 255)
    requires front == [VERSION, CMD_CONNECT, 0x00, atyp] + if atyp == ATYP_DOMAIN then [|address| as Byte] else []
    requires port < 0x1_0000
    ensures DecodeRequest(front + (address + (PortBytes(port) + more))) == Some(Request(atyp, address, port, more))
  {
    var f := front + (address + (PortBytes(port) + more));
    var from := |front|;
    assert f[from..] == address + (PortBytes(port) + more);
    assert f[from..from + |address|] == address;
    assert f[from + |address|..] == PortBytes(port) + more;
    assert f[from + |address|] == PortBytes(port)[0] && f[from + |address| + 1] == PortBytes(port)[1];
    assert f[from + |address| + 2..] == more;
    assert atyp == ATYP_DOMAIN ==> f[4] == front[4];
  }

  /** A decoder recovers the host and the port of every CONNECT frame: IPv4 and domain names as they
      were written, IPv6 as a text of the same address. */
  lemma ConnectRoundTrip(net: Net, host: string, s: Setup, more: seq<Byte>)
    requires ValidSetup(s) && EncodeDestination(net, host) == Some(s.destination)
    requires net.text(net.utf8(StripBrackets(host))) == StripBrackets(host)
    ensures DecodeRequest(ConnectFrame(s) + more).Some?
    ensures var r := DecodeRequest(ConnectFrame(s) + more).value;
            && r.port == s.port && r.rest == more
            && (if r.atyp == ATYP_IPV6
                then net.isIPv6(StripBrackets(host))
                     && Ipv6ToBytes(HostText(net, r)) == Ipv6ToBytes(StripBrackets(host)) == Some(r.address)
                else HostText(net, r) == StripBrackets(host))
  {
    var bare := StripBrackets(host);
    if IsIPv4(bare) {
      FrameDecodes(s, ATYP_IPV4, Octets(bare), more);
      IPv4IsDotted(bare);
    } else if net.isIPv6(bare) {
      var bytes := Ipv6ToBytes(bare).value;
      FrameDecodes(s, ATYP_IPV6, bytes, more);
      HexTextsPrint(bytes);
    } else {
      FrameDecodes(s, ATYP_DOMAIN, net.utf8(bare), more);
    }
  }

  lemma HexTextsPrint(bytes: seq<Byte>)
    requires |bytes| == 16
    ensures Ipv6ToBytes(JoinWith(HexTexts(BytesGroups(bytes)), ':')) == Some(bytes)
  {
    var groups := BytesGroups(bytes);
    var texts := HexTexts(groups);
    GroupBytesRoundTrip(bytes);
    assert |GroupBytes(groups)| == 2 * |groups|;
    forall k | 0 <= k < 8
      ensures IsGroup(texts[k]) && HexValue(texts[k]) == groups[k]
    {
      HexRoundTrip(groups[k]);
    }
    Ipv6RoundTrip(texts, groups, None, false, "");
    assert Print(texts, groups, None, false) + "" == JoinWith(texts, ':');
  }

  /** What a server reads from the greeting (section 3 of RFC 1928): the version, as many methods as it
      is told, and among them username and password exactly if a user is configured. */
  lemma GreetingOffers(s: Setup, chunks: seq<seq<Byte>>)
    requires ValidSetup(s)
    ensures Begin(s).written <= OnChunks(s, chunks).written
    ensures var f := Begin(s).written;
            |f| > 2 && f[0] == 0x05 && f[1] as nat == |f| - 2 && 0x00 in f[2..]
            && (0x02 in f[2..] <==> s.user != []) && forall m <- f[2..] :: m == 0x00 || m == 0x02
  {
    WrittenGrows(s, chunks);
    if s.user != [] {
      assert Begin(s).written[2..][1] == 0x02;
    }
    assert Begin(s).written[2..][0] == 0x00;
  }

  lemma {:induction false} WrittenGrows(s: Setup, chunks: seq<seq<Byte>>)
    requires ValidSetup(s)
    ensures Begin(s).written <= OnChunks(s, chunks).written
  {
    if chunks != [] {
      var before := OnChunks(s, chunks[..|chunks| - 1]);
      WrittenGrows(s, chunks[..|chunks| - 1]);
      ServeWrites(s, before.(buffered := before.buffered + chunks[|chunks| - 1]));
    }
  }

  lemma {:induction false} ServeWrites(s: Setup, h: Handshake)
    requires ValidSetup(s)
    ensures h.written <= Serve(s, h).written
    decreases Left(h.phase)
  {
    if Need(h.phase).Some? && |h.buffered| >= Need(h.phase).value {
      var n := Need(h.phase).value;
      var (next, frame) := Step(s, h.phase, h.buffered[..n]);
      ServeWrites(s, Handshake(next, h.buffered[n..], h.written + frame, h.consumed + h.buffered[..n]));
    }
  }

  /** One pair of brackets comes off an address; what does not stand in a pair stays as it is. */
  lemma BracketsComeOff(host: string)
    ensures StripBrackets("[" + host + "]") == host
    ensures (!("[" <= host) || host[|host| - 1..] != "]" || |host| == 1) ==> StripBrackets(host) == host
  {
    assert ("[" + host + "]")[1..|host| + 1] == host;
  }

  /** Which hosts can be asked for: every IPv4 address, every IPv6 address whose text can be read, and
      every name of 1 to 255 bytes. */
  lemma EncodableExactly(net: Net, rawHost: string)
    ensures var host := StripBrackets(rawHost);
            EncodeDestination(net, rawHost).Some? <==>
              || IsIPv4(host)
              || (net.isIPv6(host) && Ipv6ToBytes(host).Some?)
              || (!net.isIPv6(host) && 1 <= |net.utf8(host)| <= 255)
  {
  }

  /** The credentials a server reads from the subnegotiation frame are those configured. */
  lemma AuthRoundTrip(s: Setup)
    requires |s.user| <= CREDENTIAL_MAX_BYTES && |s.password| <= CREDENTIAL_MAX_BYTES
    ensures var f := AuthFrame(s);
            var n := f[1] as nat;
            |f| > 2 + n && f[2..2 + n] == s.user && f[2 + n] as nat == |s.password| && f[3 + n..] == s.password
  {
    var f, n := AuthFrame(s), |s.user|;
    var front := [USERPASS_SUBNEGOTIATION_VERSION, n as Byte];
    assert f == front + (s.user + ([|s.password| as Byte] + s.password));
    assert f[2..] == s.user + ([|s.password| as Byte] + s.password);
    assert f[2 + n..] == [|s.password| as Byte] + s.password;
  }

  // ---- the client object ---------------------------------------------------------------------------

  class Socks5Client {
    const setup: Setup
    const reader: SocketReader
    var phase: Phase
    var written: seq<Byte>

    ghost predicate Valid()
      reads this, reader
    {
      && reader.Valid() && !reader.failed && ValidSetup(setup) && reader.waiter == Need(phase)
    }

    ghost function Now(): Handshake
      reads this, reader
    {
      Handshake(phase, reader.buffered, written, reader.delivered)
    }

    constructor (setup: Setup)
      requires ValidSetup(setup)
      ensures Valid() && Now() == Begin(setup) && this.setup == setup && fresh(reader)
    {
      this.setup := setup;
      reader := new SocketReader();
      phase, written := Greeting, GreetingFrame(setup);
      new;
      var first := reader.Read(2);
    }

    method OnData(chunk: seq<Byte>)
      requires Valid() && Need(phase).Some?
      modifies this, reader
      ensures Valid() && Now() == OnChunk(setup, old(Now()), chunk)
    {
      ghost var all := Now().(buffered := Now().buffered + chunk);
      var bytes := reader.OnData(chunk);
      while bytes.Some?
        invariant reader.Valid() && !reader.failed
        invariant reader.waiter == if bytes.Some? then None else Need(phase)
        invariant bytes.Some? ==> Delivered(bytes.value) && Need(phase) == Some(|bytes.value|)
        invariant Serve(setup, all) == Serve(setup, if bytes.Some? then Undelivered(bytes.value) else Now())
        decreases Left(phase), bytes.Some?
      {
        bytes := Proceed(bytes.value);
      }
    }

    /** The handshake after one read: the next phase, its frame, and the next read. */
    method Proceed(b: seq<Byte>) returns (more: Option<seq<Byte>>)
      requires reader.Valid() && !reader.failed && ValidSetup(setup) && reader.waiter == None
      requires Delivered(b) && Need(phase) == Some(|b|)
      modifies this, reader
      ensures reader.Valid() && !reader.failed && Left(phase) < old(Left(phase))
      ensures reader.waiter == if more.Some? then None else Need(phase)
      ensures more.Some? ==> Delivered(more.value) && Need(phase) == Some(|more.value|)
      ensures Serve(setup, old(Undelivered(b))) == Serve(setup, if more.Some? then Undelivered(more.value) else Now())
    {
      ServeOne(setup, Undelivered(b), b, reader.buffered);
      assert reader.delivered == reader.delivered[..|reader.delivered| - |b|] + b;
      var (next, frame) := Step(setup, phase, b);
      phase, written := next, written + frame;
      ghost var now := Now();
      more := None;
      if Need(phase).Some? {
        var result := reader.Read(Need(phase).value);
        if result.Resolved? {
          more := Some(result.bytes);
          assert Undelivered(result.bytes) == now;
        }
      }
    }

    ghost predicate Delivered(bytes: seq<Byte>)
      reads reader
    {
      |bytes| <= |reader.delivered| && reader.delivered[|reader.delivered| - |bytes|..] == bytes
    }

    /** The state as if the bytes just delivered were still buffered. */
    ghost function Undelivered(bytes: seq<Byte>): Handshake
      requires |bytes| <= |reader.delivered|
      reads this, reader
    {
      Handshake(phase, bytes + reader.buffered, written, reader.delivered[..|reader.delivered| - |bytes|])
    }
  }
}
