/** The server parser inverts the client's encoding, and isolation separates credentials. */
module SocksProofs {
  import opened Sequences
  import opened Bits
  import opened Socks

  // ----- What a client sends -----

  type Counted = s: seq<byte> | |s| < 256

  function Greeting(methods: Counted): seq<byte> {
    var n: byte := |methods|;
    [VER5, n] + methods
  }

  function CountedBytes(s: Counted): seq<byte> {
    var n: byte := |s|;
    [n] + s
  }

  /** The version byte of the sub-negotiation is free: the server ignores it. */
  function LoginBytes(ver: byte, c: Credentials): seq<byte>
    requires |c.user| < 256 && |c.pass| < 256
  {
    [ver] + CountedBytes(c.user) + CountedBytes(c.pass)
  }

  predicate ValidHost(utf8: seq<byte> -> bool, h: Host) {
    match h
    case V4(b) => |b| == 4
    case V6(b) => |b| == 16
    case Domain(b) => |b| < 256 && utf8(b)
  }

  predicate ValidTarget(utf8: seq<byte> -> bool, t: Target) {
    ValidHost(utf8, t.host) && 0 <= t.port < 65536
  }

  function HostType(h: Host): byte {
    match h
    case V4(_) => ATYP_IPV4
    case V6(_) => ATYP_IPV6
    case Domain(_) => ATYP_DOMAIN
  }

  function HostBytes(h: Host): seq<byte>
    requires h.Domain? ==> |h.name| < 256
  {
    match h
    case V4(b) => b
    case V6(b) => b
    case Domain(b) => CountedBytes(b)
  }

  function PortBytes(port: int): seq<byte>
    requires 0 <= port < 65536
  {
    var hi: byte := port / 256;
    var lo: byte := port % 256;
    [hi, lo]
  }

  /** The reserved byte is free: the server ignores it. */
  function RequestBytes(utf8: seq<byte> -> bool, rsv: byte, t: Target): seq<byte>
    requires ValidTarget(utf8, t)
  {
    [VER5, CMD_CONNECT, rsv, HostType(t.host)] + HostBytes(t.host) + PortBytes(t.port)
  }

  /** The messages byte by byte, as sections 3 to 5 of RFC 1928 and section 2 of RFC 1929 lay them out. */
  lemma WireFormat(utf8: seq<byte> -> bool, methods: Counted, ver: byte, c: Credentials, rsv: byte, t: Target)
    requires |c.user| < 256 && |c.pass| < 256 && ValidTarget(utf8, t)
    ensures Greeting(methods) == [5, |methods|] + methods
    ensures LoginBytes(ver, c) == [ver, |c.user|] + c.user + [|c.pass|] + c.pass
    ensures RequestBytes(utf8, rsv, t) ==
            [5, 1, rsv]
            + (match t.host case V4(b) => [1] + b case V6(b) => [4] + b case Domain(b) => [3, |b|] + b)
            + [t.port / 256, t.port % 256]
  {
    ConcatAssoc([5, 1, rsv], [HostType(t.host)], HostBytes(t.host));
  }

  // ----- Round trips -----

  lemma ReadsCounted(s: Counted, tail: seq<byte>)
    ensures ReadCounted(CountedBytes(s) + tail) == (Ok(s), tail)
  {
    var input := CountedBytes(s) + tail;
    assert input[..1] == [input[0]] && input[1..] == s + tail;
    assert (s + tail)[..|s|] == s && (s + tail)[|s|..] == tail;
  }

  lemma ReadsExactly(s: seq<byte>, tail: seq<byte>)
    ensures ReadExact(s + tail, |s|) == (Ok(s), tail)
  {
  }

  lemma ReadsHello(methods: Counted, tail: seq<byte>)
    ensures ReadExact(Greeting(methods) + tail, 2) == (Ok([VER5, |methods|]), methods + tail)
  {
    var n: byte := |methods|;
    assert Greeting(methods) + tail == [VER5, n] + (methods + tail);
    ReadsExactly([VER5, n], methods + tail);
  }

  /** Without credentials to offer or to ask for, the greeting alone decides. */
  lemma GreetingDecides(methods: Counted, tail: seq<byte>)
    ensures 0 in methods ==> Negotiate(Greeting(methods) + tail) == Outcome(Ok(None), tail, [5, 0])
    ensures 0 !in methods && 2 !in methods ==>
              Negotiate(Greeting(methods) + tail) == Outcome(Err(NoAcceptableMethod), tail, [5, 0xFF])
    ensures 0 !in methods && 2 in methods ==>
              Negotiate(Greeting(methods) + tail) == ReadCredentials(tail, [5, 2])
  {
    ReadsHello(methods, tail);
    ReadsExactly(methods, tail);
  }

  lemma LoginRead(ver: byte, c: Credentials, tail: seq<byte>, written: seq<byte>)
    requires |c.user| < 256 && |c.pass| < 256
    ensures ReadCredentials(LoginBytes(ver, c) + tail, written) ==
            Outcome(Ok(Some(c)), tail, written + [0x01, 0x00])
  {
    var user, pass := CountedBytes(c.user), CountedBytes(c.pass);
    assert LoginBytes(ver, c) + tail == [ver] + (user + (pass + tail));
    ReadsExactly([ver], user + (pass + tail));
    ReadsCounted(c.user, pass + tail);
    ReadsCounted(c.pass, tail);
  }

  /** Credentials come out exactly as sent, up to 255 bytes each, and nothing after them is touched. */
  lemma NegotiateInvertsLogin(methods: Counted, ver: byte, c: Credentials, tail: seq<byte>)
    requires AUTH_NONE !in methods && AUTH_USERPASS in methods
    requires |c.user| < 256 && |c.pass| < 256
    ensures Negotiate(Greeting(methods) + LoginBytes(ver, c) + tail) ==
            Outcome(Ok(Some(c)), tail, [VER5, AUTH_USERPASS, 0x01, 0x00])
  {
    var login := LoginBytes(ver, c);
    ConcatAssoc(Greeting(methods), login, tail);
    GreetingDecides(methods, login + tail);
    LoginRead(ver, c, tail, [VER5, AUTH_USERPASS]);
    assert [VER5, AUTH_USERPASS] + [0x01, 0x00] == [VER5, AUTH_USERPASS, 0x01, 0x00];
  }

  lemma ReadsHost(utf8: seq<byte> -> bool, h: Host, tail: seq<byte>)
    requires ValidHost(utf8, h)
    ensures ReadHost(utf8, HostType(h), HostBytes(h) + tail) == (Ok(Some(h)), tail)
  {
    match h {
      case V4(b) => ReadsExactly(b, tail);
      case V6(b) => ReadsExactly(b, tail);
      case Domain(b) => ReadsCounted(b, tail);
    }
  }

  /** Every target comes out exactly as sent, and nothing after the request is touched. */
  lemma ConnectInvertsRequest(utf8: seq<byte> -> bool, rsv: byte, t: Target, tail: seq<byte>)
    requires ValidTarget(utf8, t)
    ensures ReadConnect(utf8, RequestBytes(utf8, rsv, t) + tail) == Outcome(Ok(Some(t)), tail, [])
  {
    var head := [VER5, CMD_CONNECT, rsv, HostType(t.host)];
    var host, port := HostBytes(t.host), PortBytes(t.port);
    assert RequestBytes(utf8, rsv, t) + tail == head + (host + (port + tail));
    ReadsExactly(head, host + (port + tail));
    ReadsHost(utf8, t.host, port + tail);
    ReadsExactly(port, tail);
    assert PortOf(port[0], port[1]) == t.port;
  }

  // ----- Replies -----

  /** A client's reading of a reply: code, bound address and port, and what follows. */
  function ParseReply(utf8: seq<byte> -> bool, input: seq<byte>): Option<(byte, Target, seq<byte>)> {
    var (head, in1) := ReadExact(input, 4);
    if head.Err? || head.value[0] != VER5 || head.value[2] != 0 then None
    else
      var (host, in2) := ReadHost(utf8, head.value[3], in1);
      if host.Err? || host.value.None? then None
      else
        var (port, in3) := ReadExact(in2, 2);
        if port.Err? then None
        else Some((head.value[1], Target(host.value.value, PortOf(port.value[0], port.value[1])), in3))
  }

  /** A client reads a reply as its code and an all-zero address, and finds what follows it. */
  lemma ReplyIsRead(utf8: seq<byte> -> bool, code: byte, tail: seq<byte>)
    ensures ParseReply(utf8, Reply(code) + tail) == Some((code, Target(V4([0, 0, 0, 0]), 0), tail))
  {
    var head, zeros: seq<byte>, port: seq<byte> := [VER5, code, 0x00, ATYP_IPV4], [0, 0, 0, 0], [0, 0];
    assert Reply(code) + tail == head + (zeros + (port + tail));
    ReadsExactly(head, zeros + (port + tail));
    ReadsExactly(zeros, port + tail);
    ReadsExactly(port, tail);
  }

  /** A request is refused exactly when its head is whole and asks for another command or address
      type; the refusal says which, and only the head has been consumed. */
  lemma RefusedRequest(utf8: seq<byte> -> bool, input: seq<byte>)
    ensures var o := ReadConnect(utf8, input);
            var supported: set<int> := {ATYP_IPV4, ATYP_DOMAIN, ATYP_IPV6};
            && (o.result == Ok(None) <==>
                  |input| >= 4 && input[0] == VER5 && (input[1] != CMD_CONNECT || input[3] !in supported))
            && (o.result == Ok(None) ==>
                  o.rest == input[4..] && o.written == Reply(if input[1] != CMD_CONNECT then 7 else 8))
            && (o.result != Ok(None) ==> o.written == [])
  {
  }

  // ----- Only encodings are accepted -----

  lemma CountedOnly(input: seq<byte>)
    requires ReadCounted(input).0.Ok?
    ensures var (s, rest) := ReadCounted(input); |s.value| < 256 && input == CountedBytes(s.value) + rest
  {
  }

  lemma LoginOnly(input: seq<byte>, written: seq<byte>)
    requires ReadCredentials(input, written).result.Ok?
    ensures var o := ReadCredentials(input, written);
            && o.result.value.Some?
            && var c := o.result.value.value;
            |c.user| < 256 && |c.pass| < 256 && input != [] && input == LoginBytes(input[0], c) + o.rest
  {
    var in1 := input[1..];
    assert input == [input[0]] + in1;
    CountedOnly(in1);
    CountedOnly(ReadCounted(in1).1);
    var (user, in2) := ReadCounted(in1);
    var (pass, in3) := ReadCounted(in2);
    ConcatAssoc(CountedBytes(user.value), CountedBytes(pass.value), in3);
    ConcatAssoc([input[0]], CountedBytes(user.value) + CountedBytes(pass.value), in3);
    ConcatAssoc([input[0]], CountedBytes(user.value), CountedBytes(pass.value));
  }

  /** A negotiation that succeeds was a greeting that offers no-auth, or one that offers
      username/password but not no-auth, followed by a login. */
  lemma AcceptedNegotiation(input: seq<byte>) returns (methods: Counted, ver: byte)
    requires Negotiate(input).result.Ok?
    ensures var o := Negotiate(input);
            match o.result.value
            case None => AUTH_NONE in methods && input == Greeting(methods) + o.rest
            case Some(c) =>
              && AUTH_NONE !in methods && AUTH_USERPASS in methods
              && |c.user| < 256 && |c.pass| < 256
              && input == Greeting(methods) + LoginBytes(ver, c) + o.rest
  {
    var (hello, in1) := ReadExact(input, 2);
    var (list, in2) := ReadExact(in1, hello.value[1]);
    methods, ver := list.value, 0;
    GreetingOnly(input);
    if AUTH_NONE !in methods {
      LoginOnly(in2, [VER5, AUTH_USERPASS]);
      ver := in2[0];
      var o := ReadCredentials(in2, [VER5, AUTH_USERPASS]);
      ConcatAssoc(Greeting(methods), LoginBytes(ver, o.result.value.value), o.rest);
    }
  }

  lemma GreetingOnly(input: seq<byte>)
    requires Negotiate(input).result.Ok?
    ensures var (hello, in1) := ReadExact(input, 2);
            && hello.Ok?
            && var (list, in2) := ReadExact(in1, hello.value[1]);
            && list.Ok? && |list.value| < 256 && input == Greeting(list.value) + in2
            && (AUTH_NONE in list.value ==> Negotiate(input).result.value.None? && Negotiate(input).rest == in2)
            && (AUTH_NONE !in list.value ==>
                  AUTH_USERPASS in list.value && Negotiate(input) == ReadCredentials(in2, [VER5, AUTH_USERPASS]))
  {
    var (hello, in1) := ReadExact(input, 2);
    var (list, in2) := ReadExact(in1, hello.value[1]);
    assert hello.value == [VER5, |list.value| as byte];
    assert input == hello.value + in1 && in1 == list.value + in2;
    ConcatAssoc(hello.value, list.value, in2);
  }

  lemma HostOnly(utf8: seq<byte> -> bool, atyp: byte, input: seq<byte>)
    requires var h := ReadHost(utf8, atyp, input).0; h.Ok? && h.value.Some?
    ensures var (r, rest) := ReadHost(utf8, atyp, input);
            var h := r.value.value;
            ValidHost(utf8, h) && HostType(h) == atyp && input == HostBytes(h) + rest
  {
  }

  lemma PortOnly(p: seq<byte>)
    requires |p| == 2
    ensures 0 <= PortOf(p[0], p[1]) < 65536 && PortBytes(PortOf(p[0], p[1])) == p
  {
  }

  /** A request that is accepted is the encoding of the target it yields. */
  lemma AcceptedRequest(utf8: seq<byte> -> bool, input: seq<byte>)
    requires var r := ReadConnect(utf8, input).result; r.Ok? && r.value.Some?
    ensures var o := ReadConnect(utf8, input);
            var t := o.result.value.value;
            ValidTarget(utf8, t) && |input| > 2 && input == RequestBytes(utf8, input[2], t) + o.rest
  {
    var (head, in1) := ReadExact(input, 4);
    var (host, in2) := ReadHost(utf8, head.value[3], in1);
    var (port, in3) := ReadExact(in2, 2);
    HostOnly(utf8, head.value[3], in1);
    PortOnly(port.value);
    assert head.value == [VER5, CMD_CONNECT, input[2], HostType(host.value.value)];
    var h, p := HostBytes(host.value.value), port.value;
    assert head.value + (h + (p + in3)) == (head.value + h + p) + in3;
  }

  // ----- Truncation -----

  lemma ExactGrows(input: seq<byte>, n: nat, more: seq<byte>)
    requires ReadExact(input, n).0.Ok?
    ensures ReadExact(input + more, n) == (ReadExact(input, n).0, ReadExact(input, n).1 + more)
  {
    assert (input + more)[..n] == input[..n] && (input + more)[n..] == input[n..] + more;
  }

  lemma CountedGrows(input: seq<byte>, more: seq<byte>)
    requires ReadCounted(input).0.Ok?
    ensures ReadCounted(input + more) == (ReadCounted(input).0, ReadCounted(input).1 + more)
  {
    ExactGrows(input, 1, more);
    var (len, rest) := ReadExact(input, 1);
    ExactGrows(rest, len.value[0], more);
  }

  /** The outcome with more input behind it. */
  function Behind<T>(o: Outcome<T>, more: seq<byte>): Outcome<T> {
    o.(rest := o.rest + more)
  }

  lemma LoginGrows(input: seq<byte>, written: seq<byte>, more: seq<byte>)
    requires ReadCredentials(input, written).result != Err(UnexpectedEof)
    ensures ReadCredentials(input + more, written) == Behind(ReadCredentials(input, written), more)
  {
    ExactGrows(input, 1, more);
    var in1 := ReadExact(input, 1).1;
    CountedGrows(in1, more);
    CountedGrows(ReadCounted(in1).1, more);
  }

  /** What was decided on some input is decided the same way when more follows. */
  lemma NegotiateGrows(input: seq<byte>, more: seq<byte>)
    requires Negotiate(input).result != Err(UnexpectedEof)
    ensures Negotiate(input + more) == Behind(Negotiate(input), more)
  {
    ExactGrows(input, 2, more);
    var (hello, in1) := ReadExact(input, 2);
    if hello.value[0] == VER5 {
      ExactGrows(in1, hello.value[1], more);
      var (methods, in2) := ReadExact(in1, hello.value[1]);
      if AUTH_NONE !in methods.value && AUTH_USERPASS in methods.value {
        LoginGrows(in2, [VER5, AUTH_USERPASS], more);
      }
    }
  }

  lemma HostGrows(utf8: seq<byte> -> bool, atyp: byte, input: seq<byte>, more: seq<byte>)
    requires ReadHost(utf8, atyp, input).0 != Err(UnexpectedEof)
    ensures ReadHost(utf8, atyp, input + more) ==
            (ReadHost(utf8, atyp, input).0, ReadHost(utf8, atyp, input).1 + more)
  {
    if atyp == ATYP_IPV4 {
      ExactGrows(input, 4, more);
    } else if atyp == ATYP_IPV6 {
      ExactGrows(input, 16, more);
    } else if atyp == ATYP_DOMAIN {
      CountedGrows(input, more);
    }
  }

  lemma ConnectGrows(utf8: seq<byte> -> bool, input: seq<byte>, more: seq<byte>)
    requires ReadConnect(utf8, input).result != Err(UnexpectedEof)
    ensures ReadConnect(utf8, input + more) == Behind(ReadConnect(utf8, input), more)
  {
    ExactGrows(input, 4, more);
    var (head, in1) := ReadExact(input, 4);
    if head.value[0] == VER5 && head.value[1] == CMD_CONNECT {
      HostGrows(utf8, head.value[3], in1, more);
      var (host, in2) := ReadHost(utf8, head.value[3], in1);
      if host.Ok? && host.value.Some? {
        ExactGrows(in2, 2, more);
      }
    }
  }

  /** A message cut short anywhere yields nothing but an end-of-stream error. */
  lemma TruncatedLogin(methods: Counted, ver: byte, c: Credentials, cut: nat)
    requires AUTH_NONE !in methods && AUTH_USERPASS in methods
    requires |c.user| < 256 && |c.pass| < 256
    requires cut < |Greeting(methods) + LoginBytes(ver, c)|
    ensures Negotiate((Greeting(methods) + LoginBytes(ver, c))[..cut]).result == Err(UnexpectedEof)
  {
    var m := Greeting(methods) + LoginBytes(ver, c);
    assert m[..cut] + m[cut..] == m && m + [] == m;
    if Negotiate(m[..cut]).result != Err(UnexpectedEof) {
      NegotiateGrows(m[..cut], m[cut..]);
      NegotiateInvertsLogin(methods, ver, c, []);
    }
  }

  lemma TruncatedGreeting(methods: Counted, cut: nat)
    requires cut < |Greeting(methods)|
    ensures Negotiate(Greeting(methods)[..cut]).result == Err(UnexpectedEof)
  {
  }

  lemma TruncatedRequest(utf8: seq<byte> -> bool, rsv: byte, t: Target, cut: nat)
    requires ValidTarget(utf8, t) && cut < |RequestBytes(utf8, rsv, t)|
    ensures ReadConnect(utf8, RequestBytes(utf8, rsv, t)[..cut]).result == Err(UnexpectedEof)
  {
    var m := RequestBytes(utf8, rsv, t);
    assert m[..cut] + m[cut..] == m && m + [] == m;
    if ReadConnect(utf8, m[..cut]).result != Err(UnexpectedEof) {
      ConnectGrows(utf8, m[..cut], m[cut..]);
      ConnectInvertsRequest(utf8, rsv, t, []);
    }
  }
}
