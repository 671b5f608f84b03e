/** The laws of the codec: the exact round-trip domain, what comes back outside it, injectivity,
    and what survives a hop through the server. */
module Codec {
  import opened Bytes
  import opened Messages
  import opened Parser
  import Utf8

  /** A text the one-byte character count describes correctly. */
  predicate Short(s: string) {
    Utf8.Ascii(s) && |s| < 256
  }

  predicate PortNumber(n: int) {
    0 <= n < 0x1_0000
  }

  predicate ShortOrAbsent(s: Option<string>) {
    s.Some? ==> s.value != "" && Short(s.value)
  }

  predicate Endpoint(address: Option<string>, port: Option<int>) {
    address.Some? && Short(address.value) && port.Some? && PortNumber(port.value)
  }

  /** The messages that survive being written and read. */
  predicate WellFormed(f: Foreign, m: Message) {
    match m
    case Auth(token, _, _) => Short(token)
    case AuthResponse(success, error) => if success then error.None? else ShortOrAbsent(error)
    case Connect(protocol, _, address, port) =>
      if protocol == "tcp" then Endpoint(address, port)
      else protocol in {"udp", ""} && address.None? && port.None?
    case Data(protocol, _, _, compression, address, port, targetAddr, targetPort) =>
      && 0 <= compression < 256
      && |WireData(f, m)| < 0x1_0000_0000
      && if protocol == "udp" then Endpoint(address, port) && Endpoint(targetAddr, targetPort)
         else protocol in {"tcp", ""} && address.None? && port.None? && targetAddr.None? && targetPort.None?
    case ConnectResponse(success, _, error) =>
      if success then error.None? else error.Some? && Short(error.value)
    case Disconnect(_, error) => ShortOrAbsent(error)
    case Connector(_, token, operation) => Short(token) && operation in {"add", "remove"}
    case ConnectorResponse(success, _, error, newToken) =>
      if success then error.None? && ShortOrAbsent(newToken)
      else error.Some? && ShortOrAbsent(error) && newToken.None?
    case Log(level, text) => |f.dumpLog(level, text)| < 0x1_0000_0000
    case Partners(count) => |f.dumpCount(count)| < 0x1_0000_0000
  }

  ghost predicate RoundTrips(f: Foreign, m: Message) {
    Pack(f, m).Success? && Parse(f, Pack(f, m).value) == Success(m)
  }

  // ---------------------------------------------------------------- one text field

  /** Reading back the text field `s` written between `pre` and `post`. */
  lemma FieldRead(pre: seq<Byte>, s: string, post: seq<Byte>)
    requires |s| < 256
    ensures var p := pre + Prefixed(s).value + post;
            && |p| == |pre| + 1 + |Utf8.Encode(s)| + |post|
            && p[|pre|] == |s|
            && (Text(p, |pre| + 1, |s|) == Success(s) <==> Utf8.Ascii(s))
            && (Utf8.Ascii(s) ==> From(p, |pre| + 1 + |s|) == post)
  {
    var e := Utf8.Encode(s);
    var head := pre + [|s| as Byte];
    Grow2(pre, [|s| as Byte], e);
    Grow2(head, e, post);
    SliceAfter(head, e + post, |s|);
    Utf8.CharCountedPrefix(s, post);
    if Utf8.Ascii(s) {
      assert (e + post)[|e|..] == post;
    }
  }

  // ---------------------------------------------------------------- kind by kind

  lemma AuthExactly(f: Foreign, m: Message)
    requires m.Auth? && Body(f, m).Success?
    ensures ParseAuth(Body(f, m).value) == Success(m) <==> WellFormed(f, m)
  {
    var p := Body(f, m).value;
    var post := [Flag(m.reverse)] + m.inst;
    assert p == [] + Prefixed(m.token).value + post;
    FieldRead([], m.token, post);
    if Utf8.Ascii(m.token) {
      assert From(p, 1 + |m.token|) == post;
      assert p[1 + |m.token|] == post[0];
      assert Clip(p, 1 + |m.token| + 1, 1 + |m.token| + 1 + 16) == m.inst;
    }
  }

  lemma AuthResponseExactly(f: Foreign, m: Message)
    requires m.AuthResponse? && Body(f, m).Success?
    ensures ParseAuthResponse(Body(f, m).value) == Success(m) <==> WellFormed(f, m)
  {
    if !m.success && NonEmpty(m.error) {
      assert Body(f, m).value == [0] + Prefixed(m.error.value).value + [];
      FieldRead([0], m.error.value, []);
    }
  }

  lemma TcpTargetRead(address: string, port: int)
    requires |address| < 256 && PortNumber(port)
    ensures var rest := Prefixed(address).value + Be16(port).value;
            && |rest| >= 1 + |address| + 2 && rest[0] == |address|
            && (Text(rest, 1, |address|) == Success(address) <==> Utf8.Ascii(address))
            && (Utf8.Ascii(address) ==> U16(Clip(rest, 1 + |address|, 1 + |address| + 2)) == Success(port))
  {
    var number := Be16(port).value;
    assert Prefixed(address).value + number == [] + Prefixed(address).value + number;
    FieldRead([], address, number);
    if Utf8.Ascii(address) {
      assert number + [] == number;
      AfterField(Prefixed(address).value + number, 1 + |address|, number, []);
    }
  }

  lemma ConnectExactly(f: Foreign, m: Message)
    requires m.Connect? && Body(f, m).Success?
    ensures ParseConnect(Body(f, m).value) == Success(m) <==> WellFormed(f, m)
  {
    var p := Body(f, m).value;
    var head := [ProtocolToByte(m.protocol)] + m.channel;
    if m.protocol == "tcp" {
      var rest := Prefixed(m.address.value).value + Be16(m.port.value).value;
      Grow2(head, Prefixed(m.address.value).value, Be16(m.port.value).value);
      assert From(head + rest, 17) == rest;
      TcpTargetRead(m.address.value, m.port.value);
      ClipOfPrefix(head, rest, 1, 17);
    }
    assert Clip(head, 1, 17) == m.channel;
  }

  lemma ConnectResponseExactly(f: Foreign, m: Message)
    requires m.ConnectResponse? && Body(f, m).Success?
    ensures ParseConnectResponse(Body(f, m).value) == Success(m) <==> WellFormed(f, m)
  {
    var p := Body(f, m).value;
    var head := [Flag(m.success)] + m.channel;
    if !m.success && m.error.Some? {
      assert p == head + Prefixed(m.error.value).value + [];
      FieldRead(head, m.error.value, []);
    }
    assert Clip(p, 1, 17) == m.channel;
  }

  lemma DisconnectExactly(f: Foreign, m: Message)
    requires m.Disconnect? && Body(f, m).Success?
    ensures ParseDisconnect(Body(f, m).value) == Success(m) <==> WellFormed(f, m)
  {
    var p := Body(f, m).value;
    if NonEmpty(m.error) {
      assert p == m.channel + Prefixed(m.error.value).value + [];
      FieldRead(m.channel, m.error.value, []);
    }
    assert Clip(p, 0, 16) == m.channel;
  }

  lemma ConnectorExactly(f: Foreign, m: Message)
    requires m.Connector? && Body(f, m).Success?
    ensures ParseConnector(Body(f, m).value) == Success(m) <==> WellFormed(f, m)
  {
    var p := Body(f, m).value;
    var post := [OperationToByte(m.operation)];
    assert From(p, 16) == [] + Prefixed(m.token).value + post;
    FieldRead([], m.token, post);
    assert Clip(p, 0, 16) == m.channel;
    if Utf8.Ascii(m.token) {
      assert From(p, 16)[1 + |m.token|] == post[0];
    }
  }

  lemma ConnectorResponseExactly(f: Foreign, m: Message)
    requires m.ConnectorResponse? && Body(f, m).Success?
    ensures ParseConnectorResponse(Body(f, m).value) == Success(m) <==> WellFormed(f, m)
  {
    var p := Body(f, m).value;
    var head := m.channel + [Flag(m.success)];
    if !m.success && NonEmpty(m.error) {
      assert p == head + Prefixed(m.error.value).value + [];
      FieldRead(head, m.error.value, []);
    } else if m.success && NonEmpty(m.newToken) {
      assert p == head + Prefixed(m.newToken.value).value + [];
      FieldRead(head, m.newToken.value, []);
    }
    assert Clip(p, 0, 16) == m.channel;
  }

  lemma CountedRead(bytes: seq<Byte>)
    requires Counted(bytes).Success?
    ensures ParseCounted(Counted(bytes).value) == Success(bytes)
  {
    var n := Be32(|bytes|).value;
    ClipMiddle([], n, bytes);
    ClipMiddle(n, bytes, []);
    assert n + bytes == [] + n + bytes == n + bytes + [];
  }

  lemma AfterField(p: seq<Byte>, k: nat, number: seq<Byte>, post: seq<Byte>)
    requires |p| >= k && From(p, k) == number + post && |number| == 2
    ensures Clip(p, k, k + 2) == number && From(p, k + 2) == post && |p| == k + 2 + |post|
  {
    assert p[k..] == number + post;
    assert number == (number + post)[..2] == p[k..k + 2];
    assert post == (number + post)[2..] == p[k + 2..];
  }

  lemma EmptyField()
    ensures Prefixed("") == Success([0])
  {
    assert [0] + Utf8.Encode("") == [0];
  }

  function TextOrEmpty(s: Option<string>): string {
    if s.Some? then s.value else ""
  }

  lemma AddressPortLayout(address: Option<string>, port: Option<int>)
    requires AddressPort(address, port).Success?
    ensures |TextOrEmpty(address)| < 256
    ensures AddressPort(address, port).value
            == Prefixed(TextOrEmpty(address)).value + Be16(PortOrZero(port)).value
  {
    if address.None? {
      EmptyField();
      assert TextOrEmpty(address) == "";
    } else {
      assert TextOrEmpty(address) == address.value;
    }
  }

  /** One address and port pair, with more bytes behind it. */
  lemma AddressPortRead(s: string, port: int, post: seq<Byte>)
    requires |s| < 256 && PortNumber(port)
    ensures var p := Prefixed(s).value + Be16(port).value + post;
            && |p| >= 1 + |s| + 2 + |post|
            && p[0] == |s|
            && (Text(p, 1, |s|) == Success(s) <==> Utf8.Ascii(s))
            && (Utf8.Ascii(s) ==>
                 && U16(Clip(p, 1 + |s|, 1 + |s| + 2)) == Success(port)
                 && From(p, 1 + |s| + 2) == post)
  {
    var number := Be16(port).value;
    var field := Prefixed(s).value;
    var p := field + number + post;
    Grow2(field, number, post);
    assert [] + field == field;
    FieldRead([], s, number + post);
    if Utf8.Ascii(s) {
      AfterField(p, 1 + |s|, number, post);
    }
  }

  lemma UdpTailExactly(address: Option<string>, port: Option<int>, targetAddr: Option<string>, targetPort: Option<int>)
    requires UdpTail(address, port, targetAddr, targetPort).Success?
    requires address.Some? && port.Some? && targetAddr.Some? && targetPort.Some?
    ensures ParseUdpTail(UdpTail(address, port, targetAddr, targetPort).value)
            == Success((address.value, port.value, targetAddr.value, targetPort.value))
            <==> Utf8.Ascii(address.value) && Utf8.Ascii(targetAddr.value)
  {
    var target := AddressPort(targetAddr, targetPort).value;
    AddressPortLayout(address, port);
    AddressPortLayout(targetAddr, targetPort);
    AddressPortRead(address.value, port.value, target);
    AddressPortRead(targetAddr.value, targetPort.value, []);
    assert target + [] == target;
    if Utf8.Ascii(address.value) {
      var p := UdpTail(address, port, targetAddr, targetPort).value;
      assert From(p, 1 + |address.value| + 2) == target;
    }
  }

  lemma DataHead(f: Foreign, m: Message)
    requires m.Data? && Body(f, m).Success?
    ensures var p := Body(f, m).value;
            var wire := WireData(f, m);
            var tail := if m.protocol == "udp"
                        then UdpTail(m.address, m.port, m.targetAddr, m.targetPort).value else [];
            && |p| >= 22 + |wire|
            && p[0] == ProtocolToByte(m.protocol) && Clip(p, 1, 17) == m.channel
            && p[17] == m.compression && U32(Clip(p, 18, 22)) == Success(|wire|)
            && Clip(p, 22, 22 + |wire|) == wire && From(p, 22 + |wire|) == tail
  {
    var wire := WireData(f, m);
    var protocol := [ProtocolToByte(m.protocol)];
    var head := protocol + m.channel + [m.compression as Byte];
    var n := Be32(|wire|).value;
    var tail := if m.protocol == "udp" then UdpTail(m.address, m.port, m.targetAddr, m.targetPort).value else [];
    Layout(protocol, m.channel, [m.compression as Byte], n, wire, tail);
  }

  lemma Layout(protocol: seq<Byte>, channel: Uuid, c: seq<Byte>, n: seq<Byte>, wire: seq<Byte>, tail: seq<Byte>)
    requires |protocol| == 1 && |c| == 1 && |n| == 4
    ensures var p := protocol + channel + c + (n + wire) + tail;
            && |p| == 22 + |wire| + |tail|
            && p[0] == protocol[0] && Clip(p, 1, 17) == channel && p[17] == c[0]
            && Clip(p, 18, 22) == n && Clip(p, 22, 22 + |wire|) == wire && From(p, 22 + |wire|) == tail
  {
    var head := protocol + channel + c;
    var p := head + (n + wire) + tail;
    Grow3(head, n, wire, tail);
    Grow2(head, n + wire, tail);
    Grow2(n, wire, tail);
    Grow2(head, n, wire + tail);
    SliceAfter(head, n + (wire + tail), 4);
    SliceAfter(head + n, wire + tail, |wire|);
    assert (n + (wire + tail))[..4] == n;
    assert (wire + tail)[..|wire|] == wire && (wire + tail)[|wire|..] == tail;
    ClipMiddle(protocol, channel, c);
    ClipOfPrefix(head, n + wire + tail, 1, 17);
  }

  /** What the reader makes of a written data message, before its address pairs are read. */
  lemma DataRead(f: Foreign, m: Message)
    requires Inverse(f) && m.Data? && Body(f, m).Success?
    ensures var r := ParseData(f, Body(f, m).value);
            if m.protocol == "udp" then
              var tail := ParseUdpTail(UdpTail(m.address, m.port, m.targetAddr, m.targetPort).value);
              && (tail.Failure? ==> r.Failure?)
              && (tail.Success? ==>
                    r == Success(Data("udp", m.channel, m.data, m.compression, Some(tail.value.0), Some(tail.value.1),
                                      Some(tail.value.2), Some(tail.value.3))))
            else
              r == Success(Data(if m.protocol == "tcp" then "tcp" else "", m.channel, m.data, m.compression,
                                None, None, None, None))
  {
    DataHead(f, m);
  }

  lemma UdpDataExactly(f: Foreign, m: Message)
    requires Inverse(f) && m.Data? && Body(f, m).Success? && m.protocol == "udp"
    ensures ParseData(f, Body(f, m).value) == Success(m)
            <==> Endpoint(m.address, m.port) && Endpoint(m.targetAddr, m.targetPort)
  {
    DataRead(f, m);
    if m.address.Some? && m.port.Some? && m.targetAddr.Some? && m.targetPort.Some? {
      UdpTailExactly(m.address, m.port, m.targetAddr, m.targetPort);
    }
  }

  lemma DataExactly(f: Foreign, m: Message)
    requires Inverse(f) && m.Data? && Body(f, m).Success?
    ensures ParseData(f, Body(f, m).value) == Success(m) <==> WellFormed(f, m)
  {
    if m.protocol == "udp" {
      UdpDataExactly(f, m);
    } else {
      DataRead(f, m);
    }
  }

  // ---------------------------------------------------------------- main laws

  lemma ParseOfPack(f: Foreign, m: Message)
    requires Pack(f, m).Success?
    ensures Parse(f, Pack(f, m).value) == ParseBody(f, Kind(m), Body(f, m).value)
  {
    assert From(Pack(f, m).value, 2) == Body(f, m).value;
  }

  lemma ParseOfData(f: Foreign, m: Message)
    requires m.Data? && Pack(f, m).Success?
    ensures Body(f, m).Success? && Parse(f, Pack(f, m).value) == ParseData(f, Body(f, m).value)
  {
    ParseOfPack(f, m);
  }

  /** The target a datagram is read back with comes from its address tail. */
  lemma TargetRead(f: Foreign, m: Message)
    requires Inverse(f) && m.Data? && m.protocol == "udp" && Pack(f, m).Success?
    ensures UdpTail(m.address, m.port, m.targetAddr, m.targetPort).Success?
    ensures var r := Parse(f, Pack(f, m).value);
            var tail := ParseUdpTail(UdpTail(m.address, m.port, m.targetAddr, m.targetPort).value);
            r.Success? ==> tail.Success? && r.value.Data? && r.value.targetAddr == Some(tail.value.2)
  {
    ParseOfData(f, m);
    DataRead(f, m);
  }

  /** A message comes back from its bytes unchanged exactly when it is well formed. */
  lemma RoundTripExactly(f: Foreign, m: Message)
    requires Inverse(f)
    ensures RoundTrips(f, m) <==> WellFormed(f, m)
  {
    if Pack(f, m).Success? {
      ParseOfPack(f, m);
      match m {
        case Auth(_, _, _) => AuthExactly(f, m);
        case AuthResponse(_, _) => AuthResponseExactly(f, m);
        case Connect(_, _, _, _) => ConnectExactly(f, m);
        case Data(_, _, _, _, _, _, _, _) => DataExactly(f, m);
        case ConnectResponse(_, _, _) => ConnectResponseExactly(f, m);
        case Disconnect(_, _) => DisconnectExactly(f, m);
        case Connector(_, _, _) => ConnectorExactly(f, m);
        case ConnectorResponse(_, _, _, _) => ConnectorResponseExactly(f, m);
        case Log(level, text) => CountedRead(f.dumpLog(level, text));
        case Partners(count) => CountedRead(f.dumpCount(count));
      }
    }
  }

  lemma PackInjective(f: Foreign, m: Message, n: Message)
    requires Inverse(f) && WellFormed(f, m) && WellFormed(f, n)
    requires Pack(f, m) == Pack(f, n)
    ensures m == n
  {
    RoundTripExactly(f, m);
    RoundTripExactly(f, n);
  }

  /** Every text field of the message is ASCII. */
  predicate AsciiText(m: Message) {
    match m
    case Auth(token, _, _) => Utf8.Ascii(token)
    case AuthResponse(_, error) => AsciiOption(error)
    case Connect(_, _, address, _) => AsciiOption(address)
    case Data(_, _, _, _, address, _, targetAddr, _) => AsciiOption(address) && AsciiOption(targetAddr)
    case ConnectResponse(_, _, error) => AsciiOption(error)
    case Disconnect(_, error) => AsciiOption(error)
    case Connector(_, token, _) => Utf8.Ascii(token)
    case ConnectorResponse(_, _, error, newToken) => AsciiOption(error) && AsciiOption(newToken)
    case Log(_, _) => true
    case Partners(_) => true
  }

  predicate AsciiOption(s: Option<string>) {
    s.Some? ==> Utf8.Ascii(s.value)
  }

  /** The messages that can be written and are then refused by the reader. */
  predicate Refused(m: Message) {
    match m
    case ConnectResponse(success, _, error) => !success && error.None?
    case ConnectorResponse(success, _, error, _) => !success && !NonEmpty(error)
    case Connector(_, _, operation) => operation !in {"add", "remove"}
    case _ => false
  }

  function Filled(s: Option<string>): Option<string> {
    Some(if s.Some? then s.value else "")
  }

  function KeptText(s: Option<string>): Option<string> {
    if NonEmpty(s) then s else None
  }

  /** What the bytes of a message remember of it. */
  function Normal(m: Message): Message {
    match m
    case AuthResponse(success, error) => AuthResponse(success, if success then None else KeptText(error))
    case Connect(protocol, channel, address, port) =>
      if protocol == "tcp" then m else Connect(if protocol == "udp" then "udp" else "", channel, None, None)
    case Data(protocol, channel, data, compression, address, port, targetAddr, targetPort) =>
      if protocol == "udp" then
        Data("udp", channel, data, compression,
             Filled(address), Some(PortOrZero(port)), Filled(targetAddr), Some(PortOrZero(targetPort)))
      else
        Data(if protocol == "tcp" then "tcp" else "", channel, data, compression, None, None, None, None)
    case ConnectResponse(success, channel, error) => ConnectResponse(success, channel, if success then None else error)
    case Disconnect(channel, error) => Disconnect(channel, KeptText(error))
    case ConnectorResponse(success, channel, error, newToken) =>
      if success then ConnectorResponse(true, channel, None, KeptText(newToken))
      else ConnectorResponse(false, channel, error, None)
    case _ => m
  }

  lemma SameTail(address: Option<string>, port: Option<int>)
    ensures AddressPort(Filled(address), Some(PortOrZero(port))) == AddressPort(address, port)
  {
    EmptyField();
  }

  lemma SameUdpTail(m: Message)
    requires m.Data? && m.protocol == "udp"
    ensures var n := Normal(m);
            && n.Data?
            && UdpTail(n.address, n.port, n.targetAddr, n.targetPort)
               == UdpTail(m.address, m.port, m.targetAddr, m.targetPort)
  {
    SameTail(m.address, m.port);
    SameTail(m.targetAddr, m.targetPort);
  }

  lemma SameData(f: Foreign, m: Message)
    requires m.Data?
    ensures Body(f, Normal(m)) == Body(f, m)
  {
    assert WireData(f, Normal(m)) == WireData(f, m);
    if m.protocol == "udp" {
      SameUdpTail(m);
    }
  }

  lemma SameReply(f: Foreign, m: Message)
    requires !m.Data? && !m.Connect?
    ensures Body(f, Normal(m)) == Body(f, m)
  {
  }

  lemma SameBytes(f: Foreign, m: Message)
    ensures Body(f, Normal(m)) == Body(f, m)
  {
    if m.Data? {
      SameData(f, m);
    } else if !m.Connect? {
      SameReply(f, m);
    }
  }

  lemma UnknownOperation(f: Foreign, m: Message)
    requires m.Connector? && Body(f, m).Success? && m.operation !in {"add", "remove"} && Utf8.Ascii(m.token)
    ensures ParseConnector(Body(f, m).value) == Failure(Invalid)
  {
    var p := Body(f, m).value;
    var post := [OperationToByte(m.operation)];
    assert From(p, 16) == [] + Prefixed(m.token).value + post;
    FieldRead([], m.token, post);
    assert From(p, 16)[1 + |m.token|] == post[0];
  }

  lemma RefusedOnRead(f: Foreign, m: Message)
    requires Pack(f, m).Success? && Refused(m) && AsciiText(m)
    ensures Parse(f, Pack(f, m).value) == Failure(Invalid)
  {
    ParseOfPack(f, m);
    if m.Connector? {
      UnknownOperation(f, m);
    }
  }

  lemma NormalIsWellFormed(f: Foreign, m: Message)
    requires Pack(f, m).Success? && AsciiText(m) && !Refused(m)
    ensures WellFormed(f, Normal(m))
  {
  }

  /** What comes back for every ASCII message that can be written: its normal form, with absent
      UDP addresses read as empty and 0, or a refusal. */
  lemma ReadBack(f: Foreign, m: Message)
    requires Inverse(f) && Pack(f, m).Success? && AsciiText(m)
    ensures Parse(f, Pack(f, m).value) == if Refused(m) then Failure(Invalid) else Success(Normal(m))
  {
    if Refused(m) {
      RefusedOnRead(f, m);
    } else {
      SameBytes(f, m);
      NormalIsWellFormed(f, m);
      RoundTripExactly(f, Normal(m));
      ParseOfPack(f, m);
      ParseOfPack(f, Normal(m));
    }
  }

  // ---------------------------------------------------------------- hops

  /** The kinds the server passes on between a connector and a reverse client. */
  predicate Forwarded(m: Message) {
    m.Connect? || m.Data? || m.Disconnect? || m.ConnectResponse?
  }

  /** The re-packed payload still fits its four-byte length. */
  predicate Fits(f: Foreign, m: Message) {
    m.Data? ==> |WireData(f, m)| < 0x1_0000_0000
  }

  /** One hop: parse, then pack again. */
  function Hop(f: Foreign, data: seq<Byte>): Result<seq<Byte>> {
    var m :- Parse(f, data);
    Pack(f, m)
  }

  /** A way to compress: gzip puts the time into its header, so each hop has its own. */
  type Zipper = seq<Byte> -> seq<Byte>

  function Hops(f: Foreign, data: seq<Byte>, zippers: seq<Zipper>): Result<seq<Byte>>
    decreases |zippers|
  {
    if zippers == [] then Success(data)
    else
      var next :- Hop(f.(gzip := zippers[0]), data);
      Hops(f, next, zippers[1..])
  }

  lemma AcceptedConnectForm(f: Foreign, p: seq<Byte>)
    requires ParseConnect(p).Success?
    ensures var m := ParseConnect(p).value; WellFormed(f, m) <==> AsciiText(m)
  {
  }

  lemma AcceptedTailForm(p: seq<Byte>)
    requires ParseUdpTail(p).Success?
    ensures var (address, port, targetAddr, targetPort) := ParseUdpTail(p).value;
            |address| < 256 && |targetAddr| < 256 && PortNumber(port) && PortNumber(targetPort)
  {
  }

  lemma AcceptedDataFits(f: Foreign, p: seq<Byte>)
    requires ParseData(f, p).Success?
    ensures p[17] != GZIP ==> Fits(f, ParseData(f, p).value)
    ensures ParseData(f, p).value.Data? && ParseData(f, p).value.compression == p[17] as int
  {
    assert p[17] != GZIP ==> |ParseData(f, p).value.data| == U32(Clip(p, 18, 22)).value;
  }

  lemma AcceptedUdpParts(f: Foreign, p: seq<Byte>, m: Message)
    requires ParseData(f, p) == Success(m) && m.protocol == "udp"
    ensures var tail := ParseUdpTail(From(p, 22 + U32(Clip(p, 18, 22)).value));
            && tail.Success?
            && m.address == Some(tail.value.0) && m.port == Some(tail.value.1)
            && m.targetAddr == Some(tail.value.2) && m.targetPort == Some(tail.value.3)
  {
    var n := U32(Clip(p, 18, 22)).value;
    assert Decompress(f, p[17], Clip(p, 22, 22 + n)).Success? && ByteToProtocol(p[0]) == "udp";
    assert ParseUdpTail(From(p, 22 + n)).Success?;
  }

  lemma AcceptedUdpForm(f: Foreign, p: seq<Byte>, m: Message)
    requires ParseData(f, p) == Success(m) && m.protocol == "udp"
    ensures Endpoint(m.address, m.port) && Endpoint(m.targetAddr, m.targetPort) <==> AsciiText(m)
  {
    AcceptedUdpParts(f, p, m);
    AcceptedTailForm(From(p, 22 + U32(Clip(p, 18, 22)).value));
  }

  lemma AcceptedDataForm(f: Foreign, p: seq<Byte>, m: Message)
    requires ParseData(f, p) == Success(m)
    ensures WellFormed(f, m) <==> AsciiText(m) && Fits(f, m)
  {
    AcceptedDataFits(f, p);
    if m.protocol == "udp" {
      AcceptedUdpForm(f, p, m);
    }
  }

  lemma AcceptedResponseForm(f: Foreign, p: seq<Byte>)
    requires ParseConnectResponse(p).Success?
    ensures WellFormed(f, ParseConnectResponse(p).value) <==> AsciiText(ParseConnectResponse(p).value)
  {
  }

  lemma AcceptedDisconnectForm(f: Foreign, p: seq<Byte>)
    requires ParseDisconnect(p).Success?
    ensures WellFormed(f, ParseDisconnect(p).value) <==> AsciiText(ParseDisconnect(p).value)
  {
    if |p| > 16 && p[16] > 0 {
      assert Clip(p, 17, 17 + p[16] as nat) != [];
    }
  }

  /** What the reader accepts of a forwarded kind is well formed up to its texts and size. */
  lemma AcceptedForm(f: Foreign, data: seq<Byte>, m: Message)
    requires Parse(f, data) == Success(m) && Forwarded(m)
    ensures WellFormed(f, m) <==> AsciiText(m) && Fits(f, m)
  {
    var p := From(data, 2);
    var kind := data[1];
    assert ParseBody(f, kind, p) == Success(m);
    if kind == CONNECT { AcceptedConnectForm(f, p); }
    if kind == DATA { AcceptedDataForm(f, p, m); }
    if kind == CONNECT_RESPONSE { AcceptedResponseForm(f, p); }
    if kind == DISCONNECT { AcceptedDisconnectForm(f, p); }
  }

  /** A forwarded message survives one hop exactly when its texts are ASCII (and, for gzip, the
      payload compresses to something a four-byte length can describe). */
  lemma HopTransparent(f: Foreign, data: seq<Byte>, m: Message)
    requires Inverse(f) && Parse(f, data) == Success(m) && Forwarded(m)
    ensures Hop(f, data).Success? && Parse(f, Hop(f, data).value) == Success(m) <==> AsciiText(m) && Fits(f, m)
  {
    AcceptedForm(f, data, m);
    RoundTripExactly(f, m);
  }

  /** An input that does not: a Disconnect whose error is one accented letter, two bytes long. */
  lemma AccentLost(f: Foreign, channel: Uuid)
    requires Inverse(f)
    ensures var data, m := [VERSION, DISCONNECT] + (channel + [2, 0xC3, 0xA9]), Disconnect(channel, Some("\U{00E9}"));
            && Parse(f, data) == Success(m)
            && !(Hop(f, data).Success? && Parse(f, Hop(f, data).value) == Success(m))
  {
    var p, m := channel + [2, 0xC3, 0xA9], Disconnect(channel, Some("\U{00E9}"));
    var data := [VERSION, DISCONNECT] + p;
    assert From(data, 2) == p && Clip(p, 0, 16) == channel && p[16] == 2 && Clip(p, 17, 19) == [0xC3, 0xA9];
    assert Utf8.Decode([0xC3, 0xA9]) == Success("\U{00E9}") by {
      assert Utf8.EncodeChar('\U{00E9}') == [0xC3, 0xA9] && "\U{00E9}"[1..] == "";
      assert Utf8.Encode("\U{00E9}") == [0xC3, 0xA9] + Utf8.Encode("");
      assert [0xC3, 0xA9] + [] == [0xC3, 0xA9];
      Utf8.DecodeEncode("\U{00E9}");
    }
    assert ParseDisconnect(p) == Success(m);
    assert "\U{00E9}"[0] as int >= 0x80;
    HopTransparent(f, data, m);
  }

  /** Reading does not depend on how payloads are compressed. */
  lemma ReadersAgree(f: Foreign, zip: Zipper, data: seq<Byte>)
    ensures Parse(f.(gzip := zip), data) == Parse(f, data)
  {
  }

  /** ... and then the message survives any number of them, though its bytes may differ from hop to hop. */
  lemma {:induction false} HopsTransparent(f: Foreign, data: seq<Byte>, m: Message, zippers: seq<Zipper>)
    requires Parse(f, data) == Success(m) && Forwarded(m) && AsciiText(m)
    requires forall zip <- zippers :: Inverse(f.(gzip := zip)) && Fits(f.(gzip := zip), m)
    ensures Hops(f, data, zippers).Success? && Parse(f, Hops(f, data, zippers).value) == Success(m)
    decreases |zippers|
  {
    if zippers != [] {
      var g := f.(gzip := zippers[0]);
      assert zippers[0] in zippers && forall zip <- zippers[1..] :: zip in zippers;
      ReadersAgree(f, zippers[0], data);
      HopTransparent(g, data, m);
      ReadersAgree(f, zippers[0], Hop(g, data).value);
      HopsTransparent(f, Hop(g, data).value, m, zippers[1..]);
    }
  }
}
