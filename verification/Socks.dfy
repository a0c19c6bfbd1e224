/** The SOCKS5 server side of a connection and the isolation it derives from credentials
    (rust/arti-ffi/src/socks.rs; sections 3 to 6 of RFC 1928, section 2 of RFC 1929). */
module Socks {
  import opened Sequences
  import opened Bits

  const VER5: byte := 0x05
  const AUTH_NONE: byte := 0x00
  const AUTH_USERPASS: byte := 0x02
  const AUTH_NONE_ACCEPTABLE: byte := 0xFF
  const CMD_CONNECT: byte := 0x01
  const ATYP_IPV4: byte := 0x01
  const ATYP_DOMAIN: byte := 0x03
  const ATYP_IPV6: byte := 0x04
  const REP_OK: byte := 0x00
  const REP_GENERAL_FAILURE: byte := 0x01
  const REP_CMD_NOT_SUPPORTED: byte := 0x07
  const REP_ATYP_NOT_SUPPORTED: byte := 0x08

  datatype SocksError = UnexpectedEof | BadVersion | NoAcceptableMethod | BadDomain

  datatype Credentials = Credentials(user: seq<byte>, pass: seq<byte>)

  /** The named target. Rendering an IP address as text is left to the standard library. */
  datatype Host = V4(v4: seq<byte>) | V6(v6: seq<byte>) | Domain(name: seq<byte>)

  datatype Target = Target(host: Host, port: int)

  /** What an exchange does: its result, the input it leaves unread, and the bytes it writes. */
  datatype Outcome<T> = Outcome(result: Result<T, SocksError>, rest: seq<byte>, written: seq<byte>)

  // ----- Reading and writing -----

  /** `read_exact`: a short stream is consumed and fails. */
  function ReadExact(input: seq<byte>, n: nat): (r: (Result<seq<byte>, SocksError>, seq<byte>))
    ensures r.0.Ok? ==> |r.0.value| == n && input == r.0.value + r.1
  {
    if |input| < n then (Err(UnexpectedEof), []) else (Ok(input[..n]), input[n..])
  }

  /** A length byte, then that many bytes. */
  function ReadCounted(input: seq<byte>): (r: (Result<seq<byte>, SocksError>, seq<byte>)) {
    var (len, rest) := ReadExact(input, 1);
    if len.Err? then (Err(len.error), rest) else ReadExact(rest, len.value[0])
  }

  function Reply(code: byte): seq<byte> {
    [VER5, code, 0x00, ATYP_IPV4, 0, 0, 0, 0, 0, 0]
  }

  // ----- Method negotiation -----

  function ReadCredentials(input: seq<byte>, written: seq<byte>): Outcome<Option<Credentials>> {
    var (ver, in1) := ReadExact(input, 1);
    if ver.Err? then Outcome(Err(ver.error), in1, written)
    else
      var (user, in2) := ReadCounted(in1);
      if user.Err? then Outcome(Err(user.error), in2, written)
      else
        var (pass, in3) := ReadCounted(in2);
        if pass.Err? then Outcome(Err(pass.error), in3, written)
        else Outcome(Ok(Some(Credentials(user.value, pass.value))), in3, written + [0x01, 0x00])
  }

  function Negotiate(input: seq<byte>): Outcome<Option<Credentials>> {
    var (hello, in1) := ReadExact(input, 2);
    if hello.Err? then Outcome(Err(hello.error), in1, [])
    else if hello.value[0] != VER5 then Outcome(Err(BadVersion), in1, [])
    else
      var (methods, in2) := ReadExact(in1, hello.value[1]);
      if methods.Err? then Outcome(Err(methods.error), in2, [])
      else if AUTH_NONE in methods.value then Outcome(Ok(None), in2, [VER5, AUTH_NONE])
      else if AUTH_USERPASS !in methods.value
      then Outcome(Err(NoAcceptableMethod), in2, [VER5, AUTH_NONE_ACCEPTABLE])
      else ReadCredentials(in2, [VER5, AUTH_USERPASS])
  }

  // ----- The CONNECT request -----

  /** Big-endian. */
  function PortOf(hi: int, lo: int): int { hi * 256 + lo }

  /** `None` is an address type that is not supported. `utf8` decides what is valid UTF-8. */
  function ReadHost(
    utf8: seq<byte> -> bool, atyp: byte, input: seq<byte>): (Result<Option<Host>, SocksError>, seq<byte>)
  {
    if atyp == ATYP_IPV4 then
      var (b, rest) := ReadExact(input, 4);
      (if b.Err? then Err(b.error) else Ok(Some(V4(b.value))), rest)
    else if atyp == ATYP_IPV6 then
      var (b, rest) := ReadExact(input, 16);
      (if b.Err? then Err(b.error) else Ok(Some(V6(b.value))), rest)
    else if atyp == ATYP_DOMAIN then
      var (b, rest) := ReadCounted(input);
      (if b.Err? then Err(b.error) else if !utf8(b.value) then Err(BadDomain) else Ok(Some(Domain(b.value))), rest)
    else (Ok(None), input)
  }

  /** `Ok(None)` is a request that was refused with an error reply. */
  function ReadConnect(utf8: seq<byte> -> bool, input: seq<byte>): Outcome<Option<Target>> {
    var (head, in1) := ReadExact(input, 4);
    if head.Err? then Outcome(Err(head.error), in1, [])
    else if head.value[0] != VER5 then Outcome(Err(BadVersion), in1, [])
    else if head.value[1] != CMD_CONNECT then Outcome(Ok(None), in1, Reply(REP_CMD_NOT_SUPPORTED))
    else
      var (host, in2) := ReadHost(utf8, head.value[3], in1);
      if host.Err? then Outcome(Err(host.error), in2, [])
      else if host.value.None? then Outcome(Ok(None), in2, Reply(REP_ATYP_NOT_SUPPORTED))
      else
        var (port, in3) := ReadExact(in2, 2);
        if port.Err? then Outcome(Err(port.error), in3, [])
        else Outcome(Ok(Some(Target(host.value.value, PortOf(port.value[0], port.value[1])))), in3, [])
  }

  // ----- The socket form -----

  class Socket {
    var input: seq<byte>
    var output: seq<byte>

    constructor (input: seq<byte>)
      ensures this.input == input && output == []
    {
      this.input, output := input, [];
    }

    method Exactly(n: nat) returns (r: Result<seq<byte>, SocksError>)
      modifies this`input
      ensures (r, input) == ReadExact(old(input), n)
    {
      if |input| < n {
        input := [];
        return Err(UnexpectedEof);
      }
      r := Ok(input[..n]);
      input := input[n..];
    }

    method WriteAll(bytes: seq<byte>)
      modifies this`output
      ensures output == old(output) + bytes
    {
      output := output + bytes;
    }

    method Counted() returns (r: Result<seq<byte>, SocksError>)
      modifies this`input
      ensures (r, input) == ReadCounted(old(input))
    {
      var len := Exactly(1);
      if len.Err? {
        return Err(len.error);
      }
      r := Exactly(len.value[0]);
    }

    /** `negotiate_auth`. */
    method NegotiateAuth() returns (r: Result<Option<Credentials>, SocksError>)
      modifies this
      ensures var o := Negotiate(old(input)); r == o.result && input == o.rest && output == old(output) + o.written
    {
      var hello := Exactly(2);
      if hello.Err? {
        return Err(hello.error);
      }
      if hello.value[0] != VER5 {
        return Err(BadVersion);
      }
      var methods := Exactly(hello.value[1]);
      if methods.Err? {
        return Err(methods.error);
      }
      if AUTH_NONE in methods.value {
        WriteAll([VER5, AUTH_NONE]);
        return Ok(None);
      }
      if AUTH_USERPASS !in methods.value {
        WriteAll([VER5, AUTH_NONE_ACCEPTABLE]);
        return Err(NoAcceptableMethod);
      }
      WriteAll([VER5, AUTH_USERPASS]);
      r := ReadLogin([VER5, AUTH_USERPASS]);
    }

    /** The rest of `negotiate_auth`: the username and password. */
    method ReadLogin(ghost written: seq<byte>) returns (r: Result<Option<Credentials>, SocksError>)
      modifies this
      ensures old(output) <= output
      ensures var o := ReadCredentials(old(input), written);
              r == o.result && input == o.rest && written + output[|old(output)|..] == o.written
    {
      assert written + [] == written;
      var ver := Exactly(1);
      if ver.Err? {
        return Err(ver.error);
      }
      var user := Counted();
      if user.Err? {
        return Err(user.error);
      }
      var pass := Counted();
      if pass.Err? {
        return Err(pass.error);
      }
      WriteAll([0x01, 0x00]);
      r := Ok(Some(Credentials(user.value, pass.value)));
    }

    method HostOf(utf8: seq<byte> -> bool, atyp: byte) returns (r: Result<Option<Host>, SocksError>)
      modifies this`input
      ensures (r, input) == ReadHost(utf8, atyp, old(input))
    {
      if atyp == ATYP_IPV4 {
        var b := Exactly(4);
        return if b.Err? then Err(b.error) else Ok(Some(V4(b.value)));
      }
      if atyp == ATYP_IPV6 {
        var b := Exactly(16);
        return if b.Err? then Err(b.error) else Ok(Some(V6(b.value)));
      }
      if atyp == ATYP_DOMAIN {
        var b := Counted();
        return if b.Err? then Err(b.error) else if !utf8(b.value) then Err(BadDomain) else Ok(Some(Domain(b.value)));
      }
      r := Ok(None);
    }

    /** `read_connect_request`. */
    method ReadConnectRequest(utf8: seq<byte> -> bool) returns (r: Result<Option<Target>, SocksError>)
      modifies this
      ensures var o := ReadConnect(utf8, old(input));
              r == o.result && input == o.rest && output == old(output) + o.written
    {
      var head := Exactly(4);
      if head.Err? {
        return Err(head.error);
      }
      if head.value[0] != VER5 {
        return Err(BadVersion);
      }
      if head.value[1] != CMD_CONNECT {
        WriteAll(Reply(REP_CMD_NOT_SUPPORTED));
        return Ok(None);
      }
      var host := HostOf(utf8, head.value[3]);
      if host.Err? {
        return Err(host.error);
      }
      if host.value.None? {
        WriteAll(Reply(REP_ATYP_NOT_SUPPORTED));
        return Ok(None);
      }
      var port := Exactly(2);
      if port.Err? {
        return Err(port.error);
      }
      r := Ok(Some(Target(host.value.value, PortOf(port.value[0], port.value[1]))));
    }
  }
}
