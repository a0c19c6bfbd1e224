/** One SOCKS connection from accept to relay, and stream isolation over a listener's lifetime
    (rust/arti-ffi/src/socks.rs). */
module SocksServer {
  import opened Sequences
  import opened Bits
  import opened Socks
  import opened SocksProofs

  // ----- Isolation -----

  type Token = nat

  type Tokens = map<Credentials, Token>

  /** `token_for`: `minted` is the token `IsolationToken::new` would return. */
  function TokenFor(tokens: Tokens, c: Credentials, minted: Token): (Token, Tokens) {
    if c in tokens then (tokens[c], tokens) else (minted, tokens[c := minted])
  }

  class Isolation {
    var tokens: Tokens

    constructor ()
      ensures tokens == map[]
    {
      tokens := map[];
    }

    method TokenOf(user: seq<byte>, pass: seq<byte>, minted: Token) returns (t: Token)
      modifies this
      ensures (t, tokens) == TokenFor(old(tokens), Credentials(user, pass), minted)
    {
      var c := Credentials(user, pass);
      if c !in tokens {
        tokens := tokens[c := minted];
      }
      t := tokens[c];
    }
  }

  /** One call: the credentials presented, and the token on offer. */
  datatype Call = Call(creds: Credentials, minted: Token)

  function TokensAfter(calls: seq<Call>): Tokens
    decreases |calls|
  {
    if calls == [] then map[] else TokenFor(TokensAfter(Init(calls)), Last(calls).creds, Last(calls).minted).1
  }

  /** The token returned by call number `i`. */
  function Returned(calls: seq<Call>, i: nat): Token
    requires i < |calls|
  {
    TokenFor(TokensAfter(calls[..i]), calls[i].creds, calls[i].minted).0
  }

  ghost predicate FreshlyMinted(calls: seq<Call>) {
    forall i, j :: 0 <= i < |calls| && 0 <= j < |calls| && i != j ==> calls[i].minted != calls[j].minted
  }

  /** Entries are never replaced, and each holds the token minted for the first such call. */
  lemma {:induction false} TokensStay(calls: seq<Call>, i: nat)
    requires i < |calls|
    ensures calls[i].creds in TokensAfter(calls)
    ensures TokensAfter(calls)[calls[i].creds] == Returned(calls, i)
    decreases |calls|
  {
    if i < |calls| - 1 {
      TokensStay(Init(calls), i);
      assert Init(calls)[..i] == calls[..i];
    } else {
      assert calls[..i] == Init(calls);
    }
  }

  lemma {:induction false} MintedFor(calls: seq<Call>, c: Credentials) returns (k: nat)
    requires c in TokensAfter(calls)
    ensures k < |calls| && calls[k].creds == c && calls[k].minted == TokensAfter(calls)[c]
    decreases |calls|
  {
    if c in TokensAfter(Init(calls)) {
      k := MintedFor(Init(calls), c);
    } else {
      k := |calls| - 1;
    }
  }

  /** Over the listener's whole life, however connections interleave: two streams share an isolation
      token exactly when they presented the same username and the same password. */
  lemma IsolationIsExact(calls: seq<Call>, i: nat, j: nat)
    requires FreshlyMinted(calls) && i < |calls| && j < |calls|
    ensures Returned(calls, i) == Returned(calls, j) <==> calls[i].creds == calls[j].creds
  {
    TokensStay(calls, i);
    TokensStay(calls, j);
    var k := MintedFor(calls, calls[i].creds);
    var l := MintedFor(calls, calls[j].creds);
  }

  /** Splitting the same characters differently between username and password isolates. */
  lemma ResplitCredentialsIsolate(calls: seq<Call>, i: nat, j: nat)
    requires FreshlyMinted(calls) && i < |calls| && j < |calls|
    requires calls[i].creds.user + calls[i].creds.pass == calls[j].creds.user + calls[j].creds.pass
    requires |calls[i].creds.user| != |calls[j].creds.user|
    ensures Returned(calls, i) != Returned(calls, j)
  {
    IsolationIsExact(calls, i, j);
  }

  // ----- One connection -----

  /** What a connection asked Arti for. */
  datatype Dial = Dial(target: Target, token: Option<Token>)

  /** `greeting` is what the negotiation wrote, `answer` what came after it. */
  datatype Served = Served(
    error: Option<SocksError>, dialled: Option<Dial>, greeting: seq<byte>, answer: seq<byte>,
    rest: seq<byte>, tokens: Tokens)

  /** The dial for a parsed request: credentials select a token, their absence selects none. */
  function DialFor(creds: Option<Credentials>, t: Target, tokens: Tokens, minted: Token): (Dial, Tokens) {
    if creds.None? then (Dial(t, None), tokens)
    else
      var (token, after) := TokenFor(tokens, creds.value, minted);
      (Dial(t, Some(token)), after)
  }

  function FinalReply(connected: bool): seq<byte> {
    Reply(if connected then REP_OK else REP_GENERAL_FAILURE)
  }

  /** What follows a successful negotiation that wrote `greeting`. */
  function Answer(
    creds: Option<Credentials>, greeting: seq<byte>, request: Outcome<Option<Target>>,
    tokens: Tokens, minted: Token, connected: bool): Served
  {
    if request.result.Err? then
      Served(Some(request.result.error), None, greeting, request.written, request.rest, tokens)
    else if request.result.value.None? then
      Served(None, None, greeting, request.written, request.rest, tokens)
    else
      var (dial, after) := DialFor(creds, request.result.value.value, tokens, minted);
      Served(None, Some(dial), greeting, request.written + FinalReply(connected), request.rest, after)
  }

  /** `serve_one` up to the relay: `connected` is whether Arti reaches the target. */
  function Serve(utf8: seq<byte> -> bool, input: seq<byte>, tokens: Tokens, minted: Token, connected: bool): Served {
    var auth := Negotiate(input);
    if auth.result.Err? then Served(Some(auth.result.error), None, auth.written, [], auth.rest, tokens)
    else Answer(auth.result.value, auth.written, ReadConnect(utf8, auth.rest), tokens, minted, connected)
  }

  method DialAndReply(
    sock: Socket, isolation: Isolation, creds: Option<Credentials>, t: Target, minted: Token, connected: bool)
    returns (dial: Dial)
    modifies sock`output, isolation
    ensures (dial, isolation.tokens) == DialFor(creds, t, old(isolation.tokens), minted)
    ensures sock.output == old(sock.output) + FinalReply(connected)
  {
    var token: Option<Token> := None;
    if creds.Some? {
      var x := isolation.TokenOf(creds.value.user, creds.value.pass, minted);
      token := Some(x);
    }
    dial := Dial(t, token);
    sock.WriteAll(Reply(if connected then REP_OK else REP_GENERAL_FAILURE));
  }

  method AnswerRequest(
    sock: Socket, isolation: Isolation, creds: Option<Credentials>, ghost greeting: seq<byte>,
    utf8: seq<byte> -> bool, minted: Token, connected: bool)
    returns (error: Option<SocksError>, dialled: Option<Dial>)
    modifies sock, isolation
    ensures var request := ReadConnect(utf8, old(sock.input));
            var s := Answer(creds, greeting, request, old(isolation.tokens), minted, connected);
            && error == s.error && dialled == s.dialled && isolation.tokens == s.tokens
            && sock.output == old(sock.output) + s.answer && sock.input == s.rest
  {
    ghost var request := ReadConnect(utf8, sock.input);
    error, dialled := None, None;
    var target := sock.ReadConnectRequest(utf8);
    if target.Err? {
      error := Some(target.error);
    } else if target.value.Some? {
      var dial := DialAndReply(sock, isolation, creds, target.value.value, minted, connected);
      dialled := Some(dial);
    }
  }

  method ServeOne(sock: Socket, isolation: Isolation, utf8: seq<byte> -> bool, minted: Token, connected: bool)
    returns (error: Option<SocksError>, dialled: Option<Dial>)
    modifies sock, isolation
    ensures var s := Serve(utf8, old(sock.input), old(isolation.tokens), minted, connected);
            && error == s.error && dialled == s.dialled && isolation.tokens == s.tokens
            && sock.output == old(sock.output) + s.greeting + s.answer && sock.input == s.rest
  {
    ghost var auth := Negotiate(sock.input);
    var creds := sock.NegotiateAuth();
    if creds.Err? {
      assert sock.output + [] == sock.output;
      return Some(creds.error), None;
    }
    error, dialled := AnswerRequest(sock, isolation, creds.value, auth.written, utf8, minted, connected);
  }

  /** Whatever arrives: a connection that dials is answered with code 0 exactly when its target was reached
      and with code 1 otherwise; one that does not dial is answered with a refusal, or not at all. */
  lemma AnswerOnTheWire(utf8: seq<byte> -> bool, input: seq<byte>, tokens: Tokens, minted: Token, connected: bool)
    ensures var s := Serve(utf8, input, tokens, minted, connected);
            && (s.dialled.Some? ==> s.answer == [5, if connected then 0 else 1, 0, 1, 0, 0, 0, 0, 0, 0])
            && (s.dialled.None? ==>
                  || s.answer == []
                  || s.answer == [5, 7, 0, 1, 0, 0, 0, 0, 0, 0]
                  || s.answer == [5, 8, 0, 1, 0, 0, 0, 0, 0, 0])
  {
    RefusedRequest(utf8, Negotiate(input).rest);
  }

  /** A whole login session: the target is dialled under the token of exactly these credentials, the
      client sees the method choice, the login reply and one final reply, and what it sends next is
      left for the relay. */
  lemma LoginSession(
    utf8: seq<byte> -> bool, methods: Counted, ver: byte, c: Credentials, rsv: byte, t: Target,
    payload: seq<byte>, tokens: Tokens, minted: Token, connected: bool)
    requires AUTH_NONE !in methods && AUTH_USERPASS in methods
    requires |c.user| < 256 && |c.pass| < 256 && ValidTarget(utf8, t)
    ensures var input := Greeting(methods) + LoginBytes(ver, c) + (RequestBytes(utf8, rsv, t) + payload);
            var (token, after) := TokenFor(tokens, c, minted);
            Serve(utf8, input, tokens, minted, connected) ==
            Served(None, Some(Dial(t, Some(token))),
                   [5, 2, 1, 0], [5, if connected then 0 else 1, 0, 1, 0, 0, 0, 0, 0, 0], payload, after)
  {
    NegotiateInvertsLogin(methods, ver, c, RequestBytes(utf8, rsv, t) + payload);
    ConnectInvertsRequest(utf8, rsv, t, payload);
    assert [] + FinalReply(connected) == [5, if connected then 0 else 1, 0, 1, 0, 0, 0, 0, 0, 0];
  }

  // ----- Isolation of whole connections -----

  /** What arrives on a connection, the token on offer to it, and whether its target is reached. */
  datatype Connection = Connection(input: seq<byte>, minted: Token, connected: bool)

  /** The credentials under which a connection asks for a token, if it gets that far. */
  function Presents(utf8: seq<byte> -> bool, input: seq<byte>): Option<Credentials> {
    var auth := Negotiate(input);
    if auth.result.Err? then None
    else
      var request := ReadConnect(utf8, auth.rest);
      if request.result.Err? || request.result.value.None? then None else auth.result.value
  }

  /** The tokens after connections, in the order in which they ask for theirs. */
  function TokensServed(utf8: seq<byte> -> bool, conns: seq<Connection>): Tokens
    decreases |conns|
  {
    if conns == [] then map[]
    else
      var c := Last(conns);
      Serve(utf8, c.input, TokensServed(utf8, Init(conns)), c.minted, c.connected).tokens
  }

  function ServedAt(utf8: seq<byte> -> bool, conns: seq<Connection>, i: nat): Served
    requires i < |conns|
  {
    Serve(utf8, conns[i].input, TokensServed(utf8, conns[..i]), conns[i].minted, conns[i].connected)
  }

  /** The calls of `token_for` that the connections make. */
  function CallsOf(utf8: seq<byte> -> bool, conns: seq<Connection>): seq<Call>
    decreases |conns|
  {
    if conns == [] then []
    else
      var creds := Presents(utf8, Last(conns).input);
      CallsOf(utf8, Init(conns)) + if creds.None? then [] else [Call(creds.value, Last(conns).minted)]
  }

  lemma ServeTokens(utf8: seq<byte> -> bool, input: seq<byte>, tokens: Tokens, minted: Token, connected: bool)
    ensures var s, creds := Serve(utf8, input, tokens, minted, connected), Presents(utf8, input);
            && s.tokens == (if creds.None? then tokens else TokenFor(tokens, creds.value, minted).1)
            && (creds.Some? ==>
                  s.dialled.Some? && s.dialled.value.token == Some(TokenFor(tokens, creds.value, minted).0))
  {
  }

  lemma {:induction false} TokensOfCalls(utf8: seq<byte> -> bool, conns: seq<Connection>)
    ensures TokensServed(utf8, conns) == TokensAfter(CallsOf(utf8, conns))
    decreases |conns|
  {
    if conns != [] {
      var c, before := Last(conns), CallsOf(utf8, Init(conns));
      TokensOfCalls(utf8, Init(conns));
      ServeTokens(utf8, c.input, TokensServed(utf8, Init(conns)), c.minted, c.connected);
      var creds := Presents(utf8, c.input);
      if creds.Some? {
        assert Init(before + [Call(creds.value, c.minted)]) == before;
      } else {
        assert before + [] == before;
      }
    }
  }

  /** Every call has some connection's token on offer. */
  lemma {:induction false} MintedAmong(utf8: seq<byte> -> bool, conns: seq<Connection>, k: nat) returns (i: nat)
    requires k < |CallsOf(utf8, conns)|
    ensures i < |conns| && conns[i].minted == CallsOf(utf8, conns)[k].minted
    decreases |conns|
  {
    if k < |CallsOf(utf8, Init(conns))| {
      i := MintedAmong(utf8, Init(conns), k);
    } else {
      i := |conns| - 1;
    }
  }

  lemma {:induction false} CallsAreFresh(utf8: seq<byte> -> bool, conns: seq<Connection>)
    requires FreshTokens(conns)
    ensures FreshlyMinted(CallsOf(utf8, conns))
    decreases |conns|
  {
    if conns != [] {
      var before := CallsOf(utf8, Init(conns));
      CallsAreFresh(utf8, Init(conns));
      forall k | 0 <= k < |before| ensures before[k].minted != Last(conns).minted {
        var i := MintedAmong(utf8, Init(conns), k);
        assert Init(conns)[i] == conns[i];
      }
    }
  }

  /** Connection `i` makes the call that follows those of the connections before it. */
  lemma {:induction false} CallOfConnection(utf8: seq<byte> -> bool, conns: seq<Connection>, i: nat)
    requires i < |conns| && Presents(utf8, conns[i].input).Some?
    ensures var k, calls := |CallsOf(utf8, conns[..i])|, CallsOf(utf8, conns);
            && k < |calls| && calls[..k] == CallsOf(utf8, conns[..i])
            && calls[k] == Call(Presents(utf8, conns[i].input).value, conns[i].minted)
    decreases |conns|
  {
    if i == |conns| - 1 {
      assert conns[..i] == Init(conns);
    } else {
      CallOfConnection(utf8, Init(conns), i);
      assert Init(conns)[..i] == conns[..i];
    }
  }

  ghost predicate FreshTokens(conns: seq<Connection>) {
    forall i, j :: 0 <= i < j < |conns| ==> conns[i].minted != conns[j].minted
  }

  /** Over the listener's life, whatever arrives on the other connections: two connections that log in
      and get as far as dialling do so under the same token exactly when their credentials are equal. */
  lemma ConnectionsAreIsolated(utf8: seq<byte> -> bool, conns: seq<Connection>, i: nat, j: nat)
    requires FreshTokens(conns) && i < |conns| && j < |conns|
    requires Presents(utf8, conns[i].input).Some? && Presents(utf8, conns[j].input).Some?
    ensures var a, b := ServedAt(utf8, conns, i).dialled, ServedAt(utf8, conns, j).dialled;
            && a.Some? && b.Some? && a.value.token.Some? && b.value.token.Some?
            && (a.value.token == b.value.token <==>
                Presents(utf8, conns[i].input) == Presents(utf8, conns[j].input))
  {
    var calls := CallsOf(utf8, conns);
    CallsAreFresh(utf8, conns);
    CallOfConnection(utf8, conns, i);
    CallOfConnection(utf8, conns, j);
    TokensOfCalls(utf8, conns[..i]);
    TokensOfCalls(utf8, conns[..j]);
    ServeTokens(utf8, conns[i].input, TokensServed(utf8, conns[..i]), conns[i].minted, conns[i].connected);
    ServeTokens(utf8, conns[j].input, TokensServed(utf8, conns[..j]), conns[j].minted, conns[j].connected);
    IsolationIsExact(calls, |CallsOf(utf8, conns[..i])|, |CallsOf(utf8, conns[..j])|);
  }

  /** An encoded login session presents exactly its credentials. */
  lemma LoginPresents(
    utf8: seq<byte> -> bool, methods: Counted, ver: byte, c: Credentials, rsv: byte, t: Target, payload: seq<byte>)
    requires AUTH_NONE !in methods && AUTH_USERPASS in methods
    requires |c.user| < 256 && |c.pass| < 256 && ValidTarget(utf8, t)
    ensures Presents(utf8, Greeting(methods) + LoginBytes(ver, c) + (RequestBytes(utf8, rsv, t) + payload)) == Some(c)
  {
    NegotiateInvertsLogin(methods, ver, c, RequestBytes(utf8, rsv, t) + payload);
    ConnectInvertsRequest(utf8, rsv, t, payload);
  }

  // ----- Sessions without credentials -----

  /** A session without credentials is dialled without a token and leaves the tokens alone. */
  lemma AnonymousSession(
    utf8: seq<byte> -> bool, methods: Counted, rsv: byte, t: Target,
    payload: seq<byte>, tokens: Tokens, minted: Token, connected: bool)
    requires AUTH_NONE in methods && ValidTarget(utf8, t)
    ensures var input := Greeting(methods) + (RequestBytes(utf8, rsv, t) + payload);
            Serve(utf8, input, tokens, minted, connected) ==
            Served(None, Some(Dial(t, None)),
                   [5, 0], [5, if connected then 0 else 1, 0, 1, 0, 0, 0, 0, 0, 0], payload, tokens)
  {
    GreetingDecides(methods, RequestBytes(utf8, rsv, t) + payload);
    ConnectInvertsRequest(utf8, rsv, t, payload);
    assert [] + FinalReply(connected) == [5, if connected then 0 else 1, 0, 1, 0, 0, 0, 0, 0, 0];
  }
}
