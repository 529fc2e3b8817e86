/** examples/phase0-vcard-customer/client.go: the SOCKS5 client handshake with user and password
    (RFC 1928 sections 3 to 6, RFC 1929 section 2). */
module Socks5 {
  import opened Integers

  type byte = b: int | 0 <= b < 256

  /** A destination or bound address. */
  datatype Host = V4(ip: seq<byte>) | V6(ip: seq<byte>) | Domain(name: seq<byte>)

  predicate HostOk(h: Host) {
    match h
    case V4(ip) => |ip| == 4
    case V6(ip) => |ip| == 16
    case Domain(name) => |name| <= 255
  }

  /** What splitting "host:port" and parsing both parts gives; a literal address has its fixed length. */
  datatype Destination = Destination(host: Host, port: nat)

  predicate Parsed(addr: Option<Destination>) {
    addr.Some? ==> addr.value.port < 65536 && (!addr.value.host.Domain? ==> HostOk(addr.value.host))
  }

  datatype Error =
    | ShortRead | BadVersion | NoAcceptableMethod | UnexpectedMethod | CredentialsTooLong
    | BadAuthVersion | AuthFailed(status: byte) | BadDestination | HostTooLong
    | BadReplyVersion | Rejected(rep: byte) | BadAddressType

  // ---- What the client writes ----------------------------------------------------------------

  const GREETING: seq<byte> := [5, 1, 2]

  function AuthBytes(user: seq<byte>, pass: seq<byte>): seq<byte>
    requires |user| <= 255 && |pass| <= 255
  {
    [1, |user|] + user + [|pass|] + pass
  }

  /** ATYP and address, and a port in network order. */
  function HostBytes(h: Host): (b: seq<byte>)
    requires HostOk(h)
    ensures |b| >= 2
  {
    match h
    case V4(ip) => [1] + ip
    case V6(ip) => [4] + ip
    case Domain(name) => [3, |name|] + name
  }

  function PortBytes(port: nat): seq<byte>
    requires port < 65536
  {
    [port / 256, port % 256]
  }

  function ConnectBytes(d: Destination): seq<byte>
    requires HostOk(d.host) && d.port < 65536
  {
    [5, 1, 0] + HostBytes(d.host) + PortBytes(d.port)
  }

  // ---- What the client reads -----------------------------------------------------------------

  function ReadSelect(input: seq<byte>): Result<seq<byte>, Error> {
    if |input| < 2 then Err(ShortRead)
    else if input[0] != 5 then Err(BadVersion)
    else if input[1] == 2 then Ok(input[2..])
    else if input[1] == 255 then Err(NoAcceptableMethod)
    else Err(UnexpectedMethod)
  }

  function ReadAuth(input: seq<byte>): Result<seq<byte>, Error> {
    if |input| < 2 then Err(ShortRead)
    else if input[0] != 1 then Err(BadAuthVersion)
    else if input[1] != 0 then Err(AuthFailed(input[1]))
    else Ok(input[2..])
  }

  function Skip(input: seq<byte>, n: nat): Result<seq<byte>, Error> {
    if |input| < n then Err(ShortRead) else Ok(input[n..])
  }

  /** The third byte, reserved, is not looked at. */
  function ReadReply(input: seq<byte>): Result<seq<byte>, Error> {
    if |input| < 4 then Err(ShortRead)
    else if input[0] != 5 then Err(BadReplyVersion)
    else if input[1] != 0 then Err(Rejected(input[1]))
    else if input[3] == 1 then Skip(input[4..], 6)
    else if input[3] == 4 then Skip(input[4..], 18)
    else if input[3] == 3 then (if |input| < 5 then Err(ShortRead) else Skip(input[5..], input[4] as int + 2))
    else Err(BadAddressType)
  }

  /** Everything written, and the error or the input left for the tunnel. */
  datatype Outcome = Outcome(written: seq<byte>, rest: Result<seq<byte>, Error>)

  function Handshake(user: seq<byte>, pass: seq<byte>, addr: Option<Destination>, input: seq<byte>): Outcome
    requires Parsed(addr)
  {
    var select := ReadSelect(input);
    if select.Err? then Outcome(GREETING, select)
    else if |user| > 255 || |pass| > 255 then Outcome(GREETING, Err(CredentialsTooLong))
    else
      var hello := GREETING + AuthBytes(user, pass);
      var auth := ReadAuth(select.value);
      if auth.Err? then Outcome(hello, auth)
      else if addr.None? then Outcome(hello, Err(BadDestination))
      else if !HostOk(addr.value.host) then Outcome(hello, Err(HostTooLong))
      else Outcome(hello + ConnectBytes(addr.value), ReadReply(auth.value))
  }

  /** A connection to the gateway: the bytes still to come and the bytes sent. */
  class Conn {
    var input: seq<byte>
    var output: seq<byte>

    constructor (input: seq<byte>)
      ensures this.input == input && output == []
    {
      this.input, output := input, [];
    }

    method Write(bytes: seq<byte>)
      modifies this`output
      ensures output == old(output) + bytes
    {
      output := output + bytes;
    }

    /** `io.ReadFull` */
    method ReadFull(n: nat) returns (r: Option<seq<byte>>)
      modifies this`input
      ensures r == if n <= |old(input)| then Some(old(input)[..n]) else None
      ensures input == if n <= |old(input)| then old(input)[n..] else []
    {
      if n <= |input| {
        r := Some(input[..n]);
        input := input[n..];
      } else {
        r := None;
        input := [];
      }
    }

    static method AuthRequest(user: seq<byte>, pass: seq<byte>) returns (req: seq<byte>)
      requires |user| <= 255 && |pass| <= 255
      ensures req == AuthBytes(user, pass)
    {
      req := [1];
      req := req + [|user|];
      req := req + user;
      req := req + [|pass|];
      req := req + pass;
    }

    static method ConnectRequest(d: Destination) returns (req: Option<seq<byte>>)
      requires Parsed(Some(d))
      ensures req == if HostOk(d.host) then Some(ConnectBytes(d)) else None
    {
      var bytes: seq<byte> := [5, 1, 0];
      match d.host {
        case V4(ip) =>
          bytes := bytes + [1];
          bytes := bytes + ip;
          assert bytes == [5, 1, 0] + ([1] + ip);
        case V6(ip) =>
          bytes := bytes + [4];
          bytes := bytes + ip;
          assert bytes == [5, 1, 0] + ([4] + ip);
        case Domain(name) =>
          if |name| > 255 { return None; }
          bytes := bytes + [3];
          bytes := bytes + [|name|];
          bytes := bytes + name;
          assert bytes == [5, 1, 0] + ([3, |name|] + name);
      }
      req := Some(bytes + PortBytes(d.port));
    }

    method ReadBoundAddress(atyp: byte) returns (error: Option<Error>)
      modifies this`input
      ensures var bound := if atyp == 1 then Skip(old(input), 6)
                           else if atyp == 4 then Skip(old(input), 18)
                           else if atyp != 3 then Err(BadAddressType)
                           else if |old(input)| < 1 then Err(ShortRead)
                           else Skip(old(input)[1..], old(input)[0] as int + 2);
              match bound
              case Ok(rest) => error == None && input == rest
              case Err(e) => error == Some(e)
    {
      var skip;
      match atyp {
        case 1 => skip := ReadFull(6);
        case 4 => skip := ReadFull(18);
        case 3 =>
          var l := ReadFull(1);
          if l.None? { return Some(ShortRead); }
          skip := ReadFull(l.value[0] as int + 2);
        case _ => return Some(BadAddressType);
      }
      error := if skip.None? then Some(ShortRead) else None;
    }

    method ReadSelection() returns (error: Option<Error>)
      modifies this`input
      ensures match ReadSelect(old(input))
              case Ok(rest) => error == None && input == rest
              case Err(e) => error == Some(e)
    {
      var sel := ReadFull(2);
      if sel.None? { return Some(ShortRead); }
      if sel.value[0] != 5 { return Some(BadVersion); }
      match sel.value[1] {
        case 2 => error := None;
        case 255 => error := Some(NoAcceptableMethod);
        case _ => error := Some(UnexpectedMethod);
      }
    }

    method ReadAuthStatus() returns (error: Option<Error>)
      modifies this`input
      ensures match ReadAuth(old(input))
              case Ok(rest) => error == None && input == rest
              case Err(e) => error == Some(e)
    {
      var authResp := ReadFull(2);
      if authResp.None? { return Some(ShortRead); }
      if authResp.value[0] != 1 { return Some(BadAuthVersion); }
      if authResp.value[1] != 0 { return Some(AuthFailed(authResp.value[1])); }
      error := None;
    }

    method ReadConnectReply() returns (error: Option<Error>)
      modifies this`input
      ensures match ReadReply(old(input))
              case Ok(rest) => error == None && input == rest
              case Err(e) => error == Some(e)
    {
      ghost var reply := input;
      var hdr := ReadFull(4);
      if hdr.None? { return Some(ShortRead); }
      if hdr.value[0] != 5 { return Some(BadReplyVersion); }
      if hdr.value[1] != 0 { return Some(Rejected(hdr.value[1])); }
      error := ReadBoundAddress(hdr.value[3]);
      assert |reply| > 4 ==> reply[4..][1..] == reply[5..];
    }

    method Socks5Handshake(user: seq<byte>, pass: seq<byte>, addr: Option<Destination>) returns (error: Option<Error>)
      requires Parsed(addr)
      modifies this
      ensures var o := Handshake(user, pass, addr, old(input));
              && output == old(output) + o.written
              && match o.rest
                 case Ok(rest) => error == None && input == rest
                 case Err(e) => error == Some(e)
    {
      Write([5, 1, 2]);
      error := ReadSelection();
      if error.Some? { return; }
      if |user| > 255 || |pass| > 255 { return Some(CredentialsTooLong); }
      var req := AuthRequest(user, pass);
      Write(req);
      assert output == old(output) + (GREETING + AuthBytes(user, pass));
      error := ReadAuthStatus();
      if error.Some? { return; }
      if addr.None? { return Some(BadDestination); }
      var connectReq := ConnectRequest(addr.value);
      if connectReq.None? { return Some(HostTooLong); }
      ghost var sent := GREETING + AuthBytes(user, pass);
      Write(connectReq.value);
      assert output == old(output) + (sent + ConnectBytes(addr.value));
      error := ReadConnectReply();
    }
  }
}
