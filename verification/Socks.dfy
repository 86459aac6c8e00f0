/** The SOCKS5 handshake of browser.go up to the start of relaying, against RFC 1928 sections 3 to 6. */
module Socks {
  import opened Text

  type Byte = n: nat | n < 256

  /** An IPv4 address, or a domain name taken as its bytes. */
  datatype Host = Address(octets: seq<Byte>) | Domain(name: seq<Byte>)

  datatype Outcome =
    | Closed
    | NoMethod
    | Unsupported
    | PortRefused(host: Host, port: nat)
    | Unreachable(host: Host, port: nat)
    | Relay(host: Host, port: nat, start: nat)

  /** How the handshake ended and what the server wrote; relaying starts at `start` of the client's bytes. */
  datatype Session = Session(outcome: Outcome, written: seq<Byte>)

  // ---------------------------------------------------------------- the client's side: encoding

  predicate ValidHost(h: Host) {
    if h.Address? then |h.octets| == 4 else |h.name| <= 255
  }

  /** Section 3: version, number of methods, methods. */
  function Hello(methods: seq<Byte>): seq<Byte>
    requires |methods| <= 255
  {
    [5, |methods|] + methods
  }

  /** Section 5: address type and address. */
  function EncodeHost(h: Host): seq<Byte>
    requires ValidHost(h)
  {
    if h.Address? then [1] + h.octets else [3, |h.name|] + h.name
  }

  function EncodePort(port: nat): seq<Byte>
    requires port < 65536
  {
    [port / 256, port % 256]
  }

  function Number(high: nat, low: nat): nat {
    high * 256 + low
  }

  /** Section 4: version, CONNECT, a reserved byte, destination address and port. */
  function Request(reserved: Byte, h: Host, port: nat): seq<Byte>
    requires ValidHost(h) && port < 65536
  {
    [5, 1, reserved] + EncodeHost(h) + EncodePort(port)
  }

  function Reply(code: Byte): seq<Byte> {
    [5, code, 0, 1, 0, 0, 0, 0, 0, 0]
  }

  // ---------------------------------------------------------------- the server's side

  /** The bytes from `at`, if there are `n` of them: a full read. */
  function Read(input: seq<Byte>, at: nat, n: nat): Option<seq<Byte>> {
    if at + n <= |input| then Some(input[at..at + n]) else None
  }

  datatype Offer = Offer(methods: seq<Byte>, next: nat)

  function ReadHello(input: seq<Byte>): (r: Option<Offer>)
    ensures r.Some? ==> |r.value.methods| <= 255 && r.value.next <= |input|
    ensures r.Some? ==> input[..r.value.next] == Hello(r.value.methods)
  {
    match Read(input, 0, 2)
    case None => None
    case Some(greeting) =>
      if greeting[0] != 5 then None
      else
        match Read(input, 2, greeting[1])
        case None => None
        case Some(methods) => Some(Offer(methods, 2 + |methods|))
  }

  datatype Destination = Destination(host: Host, next: nat)

  function ReadHost(input: seq<Byte>, at: nat, kind: Byte): Option<Destination> {
    if kind == 1 then
      match Read(input, at, 4)
      case None => None
      case Some(b) => Some(Destination(Address(b), at + 4))
    else if kind == 3 then
      match Read(input, at, 1)
      case None => None
      case Some(n) =>
        match Read(input, at + 1, n[0])
        case None => None
        case Some(b) => Some(Destination(Domain(b), at + 1 + n[0]))
    else None
  }

  datatype Target = Target(host: Host, port: nat, next: nat)

  function ReadRequest(input: seq<Byte>, at: nat): Option<Target> {
    match Read(input, at, 4)
    case None => None
    case Some(header) =>
      if header[0] != 5 || header[1] != 1 then None
      else
        match ReadHost(input, at + 4, header[3])
        case None => None
        case Some(d) =>
          match Read(input, d.next, 2)
          case None => None
          case Some(p) => Some(Target(d.host, Number(p[0], p[1]), d.next + 2))
  }

  /** The handshake; `dial` says which destinations can be reached. */
  function Handshake(input: seq<Byte>, dial: (Host, nat) -> bool): Session {
    match ReadHello(input)
    case None => Session(Closed, [])
    case Some(offer) =>
      if 0 !in offer.methods then Session(NoMethod, [5, 255])
      else
        match ReadRequest(input, offer.next)
        case None => Session(Unsupported, [5, 0])
        case Some(t) =>
          if t.port != 80 && t.port != 443 then Session(PortRefused(t.host, t.port), [5, 0] + Reply(2))
          else if !dial(t.host, t.port) then Session(Unreachable(t.host, t.port), [5, 0] + Reply(4))
          else Session(Relay(t.host, t.port, t.next), [5, 0] + Reply(0))
  }

  // ---------------------------------------------------------------- parsing inverts encoding

  lemma ReadHelloBack(methods: seq<Byte>, rest: seq<Byte>)
    requires |methods| <= 255
    ensures ReadHello(Hello(methods) + rest) == Some(Offer(methods, |Hello(methods)|))
  {
    var input := Hello(methods) + rest;
    assert input[0..2] == [5, |methods|];
    assert input[2..2 + |methods|] == methods;
  }

  lemma ReadHostBack(before: seq<Byte>, h: Host, after: seq<Byte>)
    requires ValidHost(h)
    ensures
      var input := before + EncodeHost(h) + after;
      ReadHost(input, |before| + 1, EncodeHost(h)[0]) == Some(Destination(h, |before| + |EncodeHost(h)|))
  {
    var e := EncodeHost(h);
    var input := before + e + after;
    if h.Address? {
      assert input[|before| + 1..|before| + 5] == e[1..] == h.octets;
    } else {
      assert input[|before| + 1..|before| + 2] == [|h.name|];
      assert input[|before| + 2..|before| + 2 + |h.name|] == e[2..] == h.name;
    }
  }

  lemma ReadRequestBack(before: seq<Byte>, reserved: Byte, h: Host, port: nat, rest: seq<Byte>)
    requires ValidHost(h) && port < 65536
    ensures ReadRequest(before + Request(reserved, h, port) + rest, |before|)
            == Some(Target(h, port, |before| + |Request(reserved, h, port)|))
  {
    var request, e := Request(reserved, h, port), EncodeHost(h);
    var input := before + request + rest;
    var start := before + [5, 1, reserved];
    assert input == start + e + (EncodePort(port) + rest);
    assert input[|before|..|before| + 4] == [5, 1, reserved, e[0]];
    ReadHostBack(start, h, EncodePort(port) + rest);
    var next := |start| + |e|;
    assert input[next..next + 2] == EncodePort(port);
  }

  lemma Joined(a: seq<Byte>, b: seq<Byte>)
    ensures (a + b)[|a|..] == b
  {
  }

  lemma Accepted(input: seq<Byte>, o: Offer, t: Target, dial: (Host, nat) -> bool)
    requires ReadHello(input) == Some(o) && 0 in o.methods && ReadRequest(input, o.next) == Some(t)
    requires (t.port == 80 || t.port == 443) && dial(t.host, t.port)
    ensures Handshake(input, dial) == Session(Relay(t.host, t.port, t.next), [5, 0] + Reply(0))
  {
  }

  /** A well-formed connect request without authentication parses back to its host and port, consuming exactly its own
      bytes, whatever follows. */
  lemma ConnectRoundTrip(
    methods: seq<Byte>, reserved: Byte, h: Host, port: nat, rest: seq<Byte>, dial: (Host, nat) -> bool)
    requires |methods| <= 255 && 0 in methods && ValidHost(h) && (port == 80 || port == 443) && dial(h, port)
    ensures
      var sent := Hello(methods) + Request(reserved, h, port);
      && Handshake(sent + rest, dial) == Session(Relay(h, port, |sent|), [5, 0] + Reply(0))
      && (sent + rest)[|sent|..] == rest
  {
    var hello, request := Hello(methods), Request(reserved, h, port);
    Associate(hello, request, rest);
    ReadHelloBack(methods, request + rest);
    ReadRequestBack(hello, reserved, h, port, rest);
    Accepted(hello + request + rest, Offer(methods, |hello|), Target(h, port, |hello| + |request|), dial);
    Joined(hello + request, rest);
  }

  // ---------------------------------------------------------------- nothing else is accepted

  lemma HostRead(input: seq<Byte>, at: nat, kind: Byte)
    requires at >= 1 && at <= |input| && input[at - 1] == kind && ReadHost(input, at, kind).Some?
    ensures
      var d := ReadHost(input, at, kind).value;
      ValidHost(d.host) && at <= d.next <= |input| && input[at - 1..d.next] == EncodeHost(d.host)
  {
  }

  lemma RequestRead(input: seq<Byte>, at: nat) returns (reserved: Byte)
    requires ReadRequest(input, at).Some?
    ensures
      var t := ReadRequest(input, at).value;
      && ValidHost(t.host) && t.port < 65536 && at <= t.next <= |input|
      && input[at..t.next] == Request(reserved, t.host, t.port)
  {
    reserved := input[at + 2];
    var t := ReadRequest(input, at).value;
    HostRead(input, at + 4, input[at + 3]);
    var d := ReadHost(input, at + 4, input[at + 3]).value;
    assert input[at..t.next] == input[at..at + 3] + input[at + 3..d.next] + input[d.next..t.next];
    assert input[at..at + 3] == [5, 1, reserved];
    assert input[d.next..t.next] == EncodePort(t.port);
  }

  lemma Split(input: seq<Byte>, a: nat, b: nat)
    requires a <= b <= |input|
    ensures input[..b] == input[..a] + input[a..b]
  {
  }

  /** Relaying only ever starts after the encoding of exactly the destination that was dialled. */
  lemma RelayOnlyAfterRequest(input: seq<Byte>, dial: (Host, nat) -> bool) returns (methods: seq<Byte>, reserved: Byte)
    requires Handshake(input, dial).outcome.Relay?
    ensures
      var o := Handshake(input, dial).outcome;
      && |methods| <= 255 && 0 in methods
      && ValidHost(o.host) && (o.port == 80 || o.port == 443) && dial(o.host, o.port)
      && o.start <= |input| && input[..o.start] == Hello(methods) + Request(reserved, o.host, o.port)
  {
    var offer := ReadHello(input).value;
    methods := offer.methods;
    reserved := RequestRead(input, offer.next);
    var o := Handshake(input, dial).outcome;
    Split(input, offer.next, o.start);
  }

  // ---------------------------------------------------------------- what a reply says

  /** Section 6: version, reply code, a zero byte, then address type, bound address and port. */
  datatype Answer = Answer(code: Byte, bound: Host, port: nat, next: nat)

  function ReadReply(bytes: seq<Byte>): Option<Answer> {
    match Read(bytes, 0, 4)
    case None => None
    case Some(header) =>
      if header[0] != 5 || header[2] != 0 then None
      else
        match ReadHost(bytes, 4, header[3])
        case None => None
        case Some(d) =>
          match Read(bytes, d.next, 2)
          case None => None
          case Some(p) => Some(Answer(header[1], d.host, Number(p[0], p[1]), d.next + 2))
  }

  /** A client reads a reply as ten bytes with its code and the address 0.0.0.0, port 0. */
  lemma ReplyReads(code: Byte)
    ensures |Reply(code)| == 10 && ReadReply(Reply(code)) == Some(Answer(code, Address([0, 0, 0, 0]), 0, 10))
  {
    var r := Reply(code);
    assert r[0..4] == [5, code, 0, 1] && r[4..8] == [0, 0, 0, 0] && r[8..10] == [0, 0];
  }

  // ---------------------------------------------------------------- which requests are answered

  /** The bytes start with a CONNECT request to an IPv4 or domain address. */
  ghost predicate StartsWithRequest(bytes: seq<Byte>) {
    exists reserved: Byte, h: Host, port: nat :: ValidHost(h) && port < 65536 && Request(reserved, h, port) <= bytes
  }

  lemma RequestIsFound(methods: seq<Byte>, reserved: Byte, h: Host, port: nat, rest: seq<Byte>)
    requires |methods| <= 255 && ValidHost(h) && port < 65536 && Request(reserved, h, port) <= rest
    ensures ReadHello(Hello(methods) + rest) == Some(Offer(methods, |Hello(methods)|))
    ensures ReadRequest(Hello(methods) + rest, |Hello(methods)|).Some?
  {
    var hello, request := Hello(methods), Request(reserved, h, port);
    var tail := rest[|request|..];
    assert rest == request + tail;
    ReadHelloBack(methods, rest);
    Associate(hello, request, tail);
    ReadRequestBack(hello, reserved, h, port, tail);
  }

  lemma FoundIsRequest(hello: seq<Byte>, rest: seq<Byte>)
    requires ReadRequest(hello + rest, |hello|).Some?
    ensures StartsWithRequest(rest)
  {
    var t := ReadRequest(hello + rest, |hello|).value;
    var reserved := RequestRead(hello + rest, |hello|);
    assert (hello + rest)[|hello|..t.next] == rest[..t.next - |hello|];
    assert Request(reserved, t.host, t.port) <= rest;
  }

  /** After a greeting that offers no authentication the client gets a reply exactly when a complete CONNECT request to
      an IPv4 or domain address follows; every other request is met by silence. Section 6 asks for a reply to each. */
  lemma AnsweredExactly(methods: seq<Byte>, rest: seq<Byte>, dial: (Host, nat) -> bool)
    requires |methods| <= 255 && 0 in methods
    ensures
      var written := Handshake(Hello(methods) + rest, dial).written;
      (|written| == 12 <==> StartsWithRequest(rest)) && (!StartsWithRequest(rest) ==> written == [5, 0])
  {
    ReadHelloBack(methods, rest);
    if StartsWithRequest(rest) {
      var reserved: Byte, h: Host, port: nat :|
        ValidHost(h) && port < 65536 && Request(reserved, h, port) <= rest;
      RequestIsFound(methods, reserved, h, port, rest);
    } else if ReadRequest(Hello(methods) + rest, |Hello(methods)|).Some? {
      FoundIsRequest(Hello(methods), rest);
    }
  }

  /** A complete request with another command, BIND (2) and UDP ASSOCIATE (3) included. */
  lemma OtherCommandsGetNoReply(
    methods: seq<Byte>, command: Byte, reserved: Byte, h: Host, port: nat, rest: seq<Byte>, dial: (Host, nat) -> bool)
    requires |methods| <= 255 && 0 in methods && command != 1 && ValidHost(h) && port < 65536
    ensures
      var request := [5, command, reserved] + EncodeHost(h) + EncodePort(port);
      Handshake(Hello(methods) + (request + rest), dial) == Session(Unsupported, [5, 0])
  {
    var hello, request := Hello(methods), [5, command, reserved] + EncodeHost(h) + EncodePort(port);
    var input := hello + (request + rest);
    ReadHelloBack(methods, request + rest);
    assert input[|hello| + 1] == (request + rest)[1] == command;
  }

  /** A complete CONNECT request with another type of address, IPv6 (4) included. */
  lemma OtherAddressesGetNoReply(
    methods: seq<Byte>, reserved: Byte, kind: Byte, address: seq<Byte>, port: nat, rest: seq<Byte>,
    dial: (Host, nat) -> bool)
    requires |methods| <= 255 && 0 in methods && kind != 1 && kind != 3 && port < 65536
    ensures
      var request := [5, 1, reserved, kind] + address + EncodePort(port);
      Handshake(Hello(methods) + (request + rest), dial) == Session(Unsupported, [5, 0])
  {
    var hello, request := Hello(methods), [5, 1, reserved, kind] + address + EncodePort(port);
    var input := hello + (request + rest);
    ReadHelloBack(methods, request + rest);
    assert input[|hello|..|hello| + 4] == [5, 1, reserved, kind];
  }

  /** Everything the server can have written before relaying, and when it writes each. */
  lemma PreRelayBytes(input: seq<Byte>, dial: (Host, nat) -> bool)
    ensures
      var s := Handshake(input, dial);
      || (s.written == [] && s.outcome == Closed)
      || (s.written == [5, 255] && s.outcome == NoMethod)
      || (s.written == [5, 0] && s.outcome == Unsupported)
      || (s.written == [5, 0] + Reply(2) && s.outcome.PortRefused? && s.outcome.port !in {80, 443})
      || (s.written == [5, 0] + Reply(4) && s.outcome.Unreachable? && !dial(s.outcome.host, s.outcome.port))
      || (s.written == [5, 0] + Reply(0) && s.outcome.Relay? && dial(s.outcome.host, s.outcome.port))
  {
  }

  lemma ReadLonger(input: seq<Byte>, more: seq<Byte>, at: nat, n: nat)
    requires Read(input, at, n).Some?
    ensures Read(input + more, at, n) == Read(input, at, n)
  {
    assert (input + more)[at..at + n] == input[at..at + n];
  }

  lemma HelloLonger(input: seq<Byte>, more: seq<Byte>)
    requires ReadHello(input).Some?
    ensures ReadHello(input + more) == ReadHello(input)
  {
    ReadLonger(input, more, 0, 2);
    ReadLonger(input, more, 2, input[1]);
    assert Read(input, 0, 2).value[1] == input[1];
  }

  lemma RequestLonger(input: seq<Byte>, more: seq<Byte>, at: nat)
    requires ReadRequest(input, at).Some?
    ensures ReadRequest(input + more, at) == ReadRequest(input, at)
  {
    ReadLonger(input, more, at, 4);
    HostLonger(input, more, at + 4, Read(input, at, 4).value[3]);
    ReadLonger(input, more, ReadHost(input, at + 4, Read(input, at, 4).value[3]).value.next, 2);
  }

  lemma HostLonger(input: seq<Byte>, more: seq<Byte>, at: nat, kind: Byte)
    requires ReadHost(input, at, kind).Some?
    ensures ReadHost(input + more, at, kind) == ReadHost(input, at, kind)
  {
    if kind == 1 {
      ReadLonger(input, more, at, 4);
    } else {
      ReadLonger(input, more, at, 1);
      ReadLonger(input, more, at + 1, Read(input, at, 1).value[0]);
    }
  }

  /** The server never answers too early: with more bytes it writes what it wrote and perhaps more, and every answer
      other than hanging up on a stream that ended stands whatever follows. */
  lemma AnswersStand(input: seq<Byte>, more: seq<Byte>, dial: (Host, nat) -> bool)
    ensures
      var s, t := Handshake(input, dial), Handshake(input + more, dial);
      s.written <= t.written && (s.outcome != Closed && s.outcome != Unsupported ==> t == s)
  {
    if ReadHello(input).Some? {
      HelloLonger(input, more);
      if ReadRequest(input, ReadHello(input).value.next).Some? {
        RequestLonger(input, more, ReadHello(input).value.next);
      }
    }
  }

  // ---------------------------------------------------------------- the server as written

  class Connection {
    const input: seq<Byte>
    var pos: nat
    var written: seq<Byte>

    constructor (input: seq<Byte>)
      ensures this.input == input && pos == 0 && written == []
    {
      this.input := input;
      pos, written := 0, [];
    }

    /** Blocks until the buffer is full; when the stream ends first, what there was is used up. */
    method ReadFull(n: nat) returns (ok: bool, bytes: seq<Byte>)
      requires pos <= |input|
      modifies this`pos
      ensures ok == Read(input, old(pos), n).Some?
      ensures ok ==> bytes == Read(input, old(pos), n).value && |bytes| == n && pos == old(pos) + n
      ensures pos <= |input|
    {
      ok := pos + n <= |input|;
      if ok {
        bytes := input[pos..pos + n];
        pos := pos + n;
      } else {
        bytes := input[pos..];
        pos := |input|;
      }
    }

    method Write(bytes: seq<Byte>)
      modifies this`written
      ensures written == old(written) + bytes
    {
      written := written + bytes;
    }
  }

  method ServeHello(c: Connection) returns (ok: bool, methods: seq<Byte>)
    requires c.pos == 0
    modifies c`pos
    ensures ok == ReadHello(c.input).Some?
    ensures ok ==> Offer(methods, c.pos) == ReadHello(c.input).value
    ensures c.pos <= |c.input|
  {
    methods := [];
    var whole, greeting := c.ReadFull(2);
    if !whole || greeting[0] != 5 { return false, []; }
    ok, methods := c.ReadFull(greeting[1]);
  }

  method ServeHost(c: Connection, kind: Byte) returns (ok: bool, host: Host)
    requires c.pos <= |c.input|
    modifies c`pos
    ensures ok == ReadHost(c.input, old(c.pos), kind).Some?
    ensures ok ==> Destination(host, c.pos) == ReadHost(c.input, old(c.pos), kind).value
    ensures c.pos <= |c.input|
  {
    host := Domain([]);
    if kind == 1 {
      var whole, b := c.ReadFull(4);
      return whole, Address(b);
    } else if kind == 3 {
      var one, n := c.ReadFull(1);
      if !one { return false, host; }
      var whole, b := c.ReadFull(n[0]);
      return whole, Domain(b);
    }
    return false, host;
  }

  method ServeRequest(c: Connection) returns (ok: bool, host: Host, port: nat)
    requires c.pos <= |c.input|
    modifies c`pos
    ensures ok == ReadRequest(c.input, old(c.pos)).Some?
    ensures ok ==> Target(host, port, c.pos) == ReadRequest(c.input, old(c.pos)).value
  {
    host, port := Domain([]), 0;
    var more, header := c.ReadFull(4);
    if !more || header[0] != 5 || header[1] != 1 { return false, host, port; }
    ok, host := ServeHost(c, header[3]);
    if !ok { return; }
    var both, portBytes := c.ReadFull(2);
    if !both { return false, host, port; }
    port := Number(portBytes[0], portBytes[1]);
  }

  /** The server's side of one connection, up to the point where bytes are relayed. */
  method Serve(c: Connection, dial: (Host, nat) -> bool) returns (outcome: Outcome)
    requires c.pos == 0 && c.written == []
    modifies c
    ensures Session(outcome, c.written) == Handshake(c.input, dial)
    ensures outcome.Relay? ==> c.pos == outcome.start
  {
    var ok, methods := ServeHello(c);
    if !ok { return Closed; }
    var noAuth := false;
    for i := 0 to |methods|
      invariant noAuth <==> 0 in methods[..i]
    {
      if methods[i] == 0 { noAuth := true; }
    }
    assert methods[..|methods|] == methods;
    if !noAuth {
      c.Write([5, 255]);
      return NoMethod;
    }
    c.Write([5, 0]);
    var asked, host, port := ServeRequest(c);
    if !asked { return Unsupported; }
    if port != 80 && port != 443 {
      c.Write(Reply(2));
      return PortRefused(host, port);
    }
    if !dial(host, port) {
      c.Write(Reply(4));
      return Unreachable(host, port);
    }
    c.Write(Reply(0));
    outcome := Relay(host, port, c.pos);
  }
}
