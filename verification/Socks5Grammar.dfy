/** The client against the grammar of RFC 1928 sections 3 to 6 and RFC 1929 section 2. */
module Socks5Grammar {
  import opened Integers
  import opened Socks5

  // ---- Client messages, as a server reads them -----------------------------------------------

  /** VER, NMETHODS, METHODS */
  function DecodeGreeting(b: seq<byte>): Option<(seq<byte>, seq<byte>)> {
    if |b| < 2 || b[0] != 5 || b[1] == 0 || |b| < 2 + b[1] as int then None
    else Some((b[2..2 + b[1] as int], b[2 + b[1] as int..]))
  }

  /** A length octet and that many octets. */
  function DecodeCounted(b: seq<byte>): Option<(seq<byte>, seq<byte>)> {
    if |b| < 1 || |b| < 1 + b[0] as int then None
    else Some((b[1..1 + b[0] as int], b[1 + b[0] as int..]))
  }

  /** VER, ULEN, UNAME, PLEN, PASSWD; both fields have 1 to 255 octets. */
  function DecodeAuth(b: seq<byte>): Option<(seq<byte>, seq<byte>, seq<byte>)> {
    if |b| < 1 || b[0] != 1 then None
    else
      match DecodeCounted(b[1..])
      case None => None
      case Some(u) =>
        match DecodeCounted(u.1)
        case None => None
        case Some(p) => if u.0 == [] || p.0 == [] then None else Some((u.0, p.0, p.1))
  }

  /** ATYP and an address of its length. */
  function DecodeHost(b: seq<byte>): Option<(Host, seq<byte>)> {
    if |b| < 1 then None
    else if b[0] == 1 then (if |b| < 5 then None else Some((V4(b[1..5]), b[5..])))
    else if b[0] == 4 then (if |b| < 17 then None else Some((V6(b[1..17]), b[17..])))
    else if b[0] == 3 then
      match DecodeCounted(b[1..])
      case None => None
      case Some(name) => Some((Domain(name.0), name.1))
    else None
  }

  /** VER, CMD = CONNECT, RSV, ATYP, DST.ADDR, DST.PORT */
  function DecodeConnect(b: seq<byte>): Option<(Destination, seq<byte>)> {
    if |b| < 3 || b[0] != 5 || b[1] != 1 || b[2] != 0 then None
    else
      match DecodeHost(b[3..])
      case None => None
      case Some(h) =>
        if |h.1| < 2 then None
        else Some((Destination(h.0, h.1[0] as int * 256 + h.1[1] as int), h.1[2..]))
  }

  datatype Session = Session(methods: seq<byte>, user: seq<byte>, pass: seq<byte>, to: Destination)

  function DecodeSession(b: seq<byte>): Option<(Session, seq<byte>)> {
    match DecodeGreeting(b)
    case None => None
    case Some(greeting) =>
      match DecodeAuth(greeting.1)
      case None => None
      case Some(auth) =>
        match DecodeConnect(auth.2)
        case None => None
        case Some(connect) => Some((Session(greeting.0, auth.0, auth.1, connect.0), connect.1))
  }

  lemma CountedRoundTrip(s: seq<byte>, rest: seq<byte>)
    requires |s| <= 255
    ensures DecodeCounted([|s|] + s + rest) == Some((s, rest))
  {
    var b: seq<byte> := [|s|] + s + rest;
    assert b[1..1 + |s|] == s && b[1 + |s|..] == rest;
  }

  /** The credentials come back, unless one of them is empty, which the grammar does not allow. */
  lemma AuthRoundTrip(user: seq<byte>, pass: seq<byte>, rest: seq<byte>)
    requires |user| <= 255 && |pass| <= 255
    ensures DecodeAuth(AuthBytes(user, pass) + rest) ==
            if user == [] || pass == [] then None else Some((user, pass, rest))
  {
    var b := AuthBytes(user, pass) + rest;
    var tail: seq<byte> := [|pass|] + pass + rest;
    assert b[1..] == [|user|] + user + tail;
    CountedRoundTrip(user, tail);
    CountedRoundTrip(pass, rest);
  }

  lemma HostRoundTrip(h: Host, rest: seq<byte>)
    requires HostOk(h)
    ensures DecodeHost(HostBytes(h) + rest) == Some((h, rest))
  {
    var b := HostBytes(h) + rest;
    match h
    case V4(ip) => assert b[1..5] == ip && b[5..] == rest;
    case V6(ip) => assert b[1..17] == ip && b[17..] == rest;
    case Domain(name) =>
      assert b[1..] == [|name|] + name + rest;
      CountedRoundTrip(name, rest);
  }

  lemma ConnectRoundTrip(d: Destination, rest: seq<byte>)
    requires HostOk(d.host) && d.port < 65536
    ensures DecodeConnect(ConnectBytes(d) + rest) == Some((d, rest))
  {
    var port := PortBytes(d.port);
    AfterHeader(HostBytes(d.host), port, rest);
    HostRoundTrip(d.host, port + rest);
    assert (port + rest)[2..] == rest;
  }

  lemma AfterHeader(host: seq<byte>, port: seq<byte>, rest: seq<byte>)
    ensures var b := [5, 1, 0] + host + port + rest;
            b[0] == 5 && b[1] == 1 && b[2] == 0 && b[3..] == host + (port + rest)
  {}

  /** What the client sends for a completed handshake is, under the grammar, exactly its credentials
      and destination and nothing more; it is in the grammar exactly when no credential is empty. */
  lemma ClientBytesDecode(user: seq<byte>, pass: seq<byte>, d: Destination, rest: seq<byte>)
    requires |user| <= 255 && |pass| <= 255 && HostOk(d.host) && d.port < 65536
    ensures DecodeSession(GREETING + AuthBytes(user, pass) + ConnectBytes(d) + rest) ==
            if user == [] || pass == [] then None else Some((Session([2], user, pass, d), rest))
  {
    Regroup(GREETING, AuthBytes(user, pass), ConnectBytes(d), rest);
    GreetingRoundTrip(AuthBytes(user, pass) + (ConnectBytes(d) + rest));
    AuthRoundTrip(user, pass, ConnectBytes(d) + rest);
    ConnectRoundTrip(d, rest);
  }

  lemma GreetingRoundTrip(rest: seq<byte>)
    ensures DecodeGreeting(GREETING + rest) == Some(([2], rest))
  {
    var b := GREETING + rest;
    assert b[2..3] == [2] && b[3..] == rest;
  }

  lemma Regroup(a: seq<byte>, b: seq<byte>, c: seq<byte>, d: seq<byte>)
    ensures a + b + c + d == a + (b + (c + d))
  {}

  // ---- The server's side ---------------------------------------------------------------------

  /** A gateway that selects user and password, accepts them, and connects. */
  datatype Replies = Replies(rsv: byte, bound: Host, port: nat)

  predicate RepliesOk(r: Replies) { HostOk(r.bound) && r.port < 65536 }

  function ConnectReply(r: Replies): seq<byte>
    requires RepliesOk(r)
  {
    [5, 0, r.rsv] + HostBytes(r.bound) + PortBytes(r.port)
  }

  /** Method selection, authentication status, and the reply to CONNECT. */
  function ReplyBytes(r: Replies): seq<byte>
    requires RepliesOk(r)
  {
    [5, 2, 1, 0] + ConnectReply(r)
  }

  /** A well-formed success reply is consumed exactly, whatever its reserved byte. */
  lemma ReplyIsConsumed(r: Replies, rest: seq<byte>)
    requires RepliesOk(r)
    ensures ReadReply(ConnectReply(r) + rest) == Result.Ok(rest)
  {
    var b := ConnectReply(r) + rest;
    match r.bound
    case V4(ip) => assert b[4..][6..] == rest;
    case V6(ip) => assert b[4..][18..] == rest;
    case Domain(name) => assert b[5..][|name| + 2..] == rest;
  }

  /** A host between the header and the two octets of the port. */
  lemma ReplyAround(b: seq<byte>, n: nat, host: Host) returns (r: Replies)
    requires HostOk(host) && 3 <= n <= |b| - 2 && b[3..n] == HostBytes(host) && b[0] == 5 && b[1] == 0
    ensures RepliesOk(r) && b == ConnectReply(r) + b[n + 2..]
  {
    r := Replies(b[2], host, b[n] as int * 256 + b[n + 1] as int);
    PortOfBytes(b[n], b[n + 1]);
    Pieces(b, n);
  }

  lemma PortOfBytes(hi: byte, lo: byte)
    ensures var port := hi as int * 256 + lo as int; 0 <= port < 65536 && PortBytes(port) == [hi, lo]
  {}

  lemma Pieces(b: seq<byte>, n: nat)
    requires 3 <= n <= |b| - 2
    ensures b == [b[0], b[1], b[2]] + b[3..n] + [b[n], b[n + 1]] + b[n + 2..]
  {}

  /** The host whose octets the client skips. */
  lemma AcceptedHost(b: seq<byte>) returns (host: Host)
    requires ReadReply(b).Ok?
    ensures var n := |b| - |ReadReply(b).value| - 2;
            HostOk(host) && 3 <= n && b[3..n] == HostBytes(host) && ReadReply(b).value == b[n + 2..]
  {
    var n := |b| - |ReadReply(b).value| - 2;
    if b[3] == 1 {
      host := V4(b[4..8]);
      assert b[3..8] == [b[3]] + b[4..8];
    } else if b[3] == 4 {
      host := V6(b[4..20]);
      assert b[3..20] == [b[3]] + b[4..20];
    } else {
      host := Domain(b[5..n]);
      assert b[3..n] == [b[3], b[4]] + b[5..n];
    }
  }

  /** Whatever the client accepts is such a reply. */
  lemma AcceptedReply(b: seq<byte>) returns (r: Replies)
    requires ReadReply(b).Ok?
    ensures RepliesOk(r) && b == ConnectReply(r) + ReadReply(b).value
  {
    var host := AcceptedHost(b);
    r := ReplyAround(b, |b| - |ReadReply(b).value| - 2, host);
  }

  ghost predicate Greeted(input: seq<byte>) { exists r :: RepliesOk(r) && ReplyBytes(r) <= input }

  /** Only the client's own limits stand between it and a well-formed success reply. */
  predicate Legal(user: seq<byte>, pass: seq<byte>, addr: Option<Destination>) {
    |user| <= 255 && |pass| <= 255 && addr.Some? && HostOk(addr.value.host)
  }

  lemma LongerInput(r: Replies, input: seq<byte>)
    requires RepliesOk(r) && ReplyBytes(r) <= input
    ensures |input| >= 4 && input[..4] == [5, 2, 1, 0]
    ensures ReadReply(input[4..]) == Result.Ok(input[|ReplyBytes(r)|..])
  {
    var rest := input[|ReplyBytes(r)|..];
    assert input == [5, 2, 1, 0] + (ConnectReply(r) + rest);
    assert input[..4] == [5, 2, 1, 0] && input[4..] == ConnectReply(r) + rest;
    ReplyIsConsumed(r, rest);
  }

  /** The handshake succeeds exactly when the gateway's bytes begin with a well-formed success reply
      and the request is legal; then all three messages are out and the next byte is tunnel data. */
  lemma HandshakeSucceeds(user: seq<byte>, pass: seq<byte>, addr: Option<Destination>, input: seq<byte>)
    requires Parsed(addr)
    ensures var o := Handshake(user, pass, addr, input);
            && (o.rest.Ok? <==> Legal(user, pass, addr) && Greeted(input))
            && (o.rest.Ok? ==> o.written == GREETING + AuthBytes(user, pass) + ConnectBytes(addr.value))
            && (o.rest.Ok? ==>
                  forall r :: RepliesOk(r) && ReplyBytes(r) <= input ==> o.rest.value == input[|ReplyBytes(r)|..])
  {
    var o := Handshake(user, pass, addr, input);
    if |input| >= 4 { assert input[2..][2..] == input[4..]; }
    if o.rest.Ok? {
      var r := AcceptedReply(input[4..]);
      assert input == [5, 2, 1, 0] + (ConnectReply(r) + o.rest.value);
      assert ReplyBytes(r) <= input;
    }
    forall r | RepliesOk(r) && ReplyBytes(r) <= input
      ensures |input| >= 4 && input[..4] == [5, 2, 1, 0] && ReadReply(input[4..]) == Result.Ok(input[|ReplyBytes(r)|..])
    {
      LongerInput(r, input);
    }
    if Legal(user, pass, addr) && Greeted(input) {
      var r :| RepliesOk(r) && ReplyBytes(r) <= input;
      assert input[0] == input[..4][0] && input[1] == input[..4][1];
      assert input[2..][0] == input[..4][2] && input[2..][1] == input[..4][3];
    }
  }

  // ---- Refusals ------------------------------------------------------------------------------

  /** The gateway selects user and password, and accepts them. */
  predicate Selects(input: seq<byte>) { |input| >= 2 && input[0] == 5 && input[1] == 2 }
  predicate Accepts(input: seq<byte>) { Selects(input) && |input| >= 4 && input[2] == 1 && input[3] == 0 }

  predicate ShortCredentials(user: seq<byte>, pass: seq<byte>) { |user| <= 255 && |pass| <= 255 }

  /** Credentials go out exactly when the gateway selects them and they fit, the request exactly when it then
      accepts them and the destination is legal: nothing else is ever written. */
  lemma WrittenExactly(user: seq<byte>, pass: seq<byte>, addr: Option<Destination>, input: seq<byte>)
    requires Parsed(addr)
    ensures Handshake(user, pass, addr, input).written ==
            if !Selects(input) || !ShortCredentials(user, pass) then GREETING
            else if !Accepts(input) || !Legal(user, pass, addr) then GREETING + AuthBytes(user, pass)
            else GREETING + AuthBytes(user, pass) + ConnectBytes(addr.value)
  {
    if |input| >= 2 { RestFrom(input, 2); }
  }

  lemma RestFrom(input: seq<byte>, n: nat)
    requires n <= |input|
    ensures |input[n..]| == |input| - n && forall i :: 0 <= i < |input| - n ==> input[n..][i] == input[n + i]
  {}

  /** Octets that the reply to CONNECT needs in all, by its address type. */
  function ReplyLength(input: seq<byte>): nat
    requires |input| >= 9
  {
    if input[7] == 1 then 14 else if input[7] == 4 then 26 else 11 + input[8] as int
  }

  /** Which of the gateway's answers an error reports. */
  lemma ErrorTells(user: seq<byte>, pass: seq<byte>, addr: Option<Destination>, input: seq<byte>)
    requires Parsed(addr)
    ensures match Handshake(user, pass, addr, input).rest
            case Ok(_) => Accepts(input) && Legal(user, pass, addr)
            case Err(BadVersion) => |input| >= 2 && input[0] != 5
            case Err(NoAcceptableMethod) => |input| >= 2 && input[0] == 5 && input[1] == 255
            case Err(UnexpectedMethod) => |input| >= 2 && input[0] == 5 && input[1] != 2 && input[1] != 255
            case Err(CredentialsTooLong) => Selects(input) && !ShortCredentials(user, pass)
            case Err(BadAuthVersion) => Selects(input) && |input| >= 4 && input[2] != 1
            case Err(AuthFailed(status)) =>
              Selects(input) && |input| >= 4 && input[2] == 1 && input[3] == status && status != 0
            case Err(BadDestination) => Accepts(input) && ShortCredentials(user, pass) && addr.None?
            case Err(HostTooLong) => Accepts(input) && addr.Some? && !HostOk(addr.value.host)
            case Err(BadReplyVersion) => Accepts(input) && |input| >= 8 && input[4] != 5
            case Err(Rejected(rep)) =>
              Accepts(input) && |input| >= 8 && input[4] == 5 && input[5] == rep && rep != 0
            case Err(BadAddressType) =>
              Accepts(input) && |input| >= 8 && input[4] == 5 && input[5] == 0 && input[7] !in {1, 3, 4}
            case Err(ShortRead) =>
              |input| < 2 || |input| < 4 || |input| < 8 || |input| < 9 || |input| < ReplyLength(input)
  {
    if |input| >= 2 { RestFrom(input, 2); }
    if |input| >= 4 {
      RestFrom(input, 4);
      assert input[2..][2..] == input[4..];
    }
  }
}
