/** Reading messages back: `parse_message`, branch by branch, over Python's clamping slices. */
module Parser {
  import opened Bytes
  import opened Messages
  import Utf8

  /** Nothing but a deliberate rejection or the failure of a library call is raised. */
  predicate Safe<T>(r: Result<T>) {
    r.Failure? ==> r.error in {Invalid, UnicodeError, ForeignError}
  }

  /** `p[lo:lo+n].decode()` */
  function Text(p: seq<Byte>, lo: nat, n: nat): (r: Result<string>)
    ensures Safe(r)
  {
    Utf8.Decode(Clip(p, lo, lo + n))
  }

  function Truth(b: Byte): bool {
    b != 0
  }

  function ParseAuth(p: seq<Byte>): (r: Result<Message>)
    ensures Safe(r)
  {
    if |p| < 1 then Failure(Invalid) else
    var n :- At(p, 0);
    if |p| < 1 + n + 1 + 16 then Failure(Invalid) else
    var token :- Text(p, 1, n);
    var reverse :- At(p, 1 + n);
    var inst :- ToUuid(Clip(p, 1 + n + 1, 1 + n + 1 + 16));
    Success(Auth(token, Truth(reverse), inst))
  }

  function ParseAuthResponse(p: seq<Byte>): (r: Result<Message>)
    ensures Safe(r)
  {
    if |p| < 1 then Failure(Invalid) else
    var flag :- At(p, 0);
    if !Truth(flag) && |p| > 1 then
      var n :- At(p, 1);
      if |p| < 2 + n then Failure(Invalid) else
      var error :- Text(p, 2, n);
      Success(AuthResponse(false, Some(error)))
    else
      Success(AuthResponse(Truth(flag), None))
  }

  function ParseConnect(p: seq<Byte>): (r: Result<Message>)
    ensures Safe(r)
  {
    if |p| < 17 then Failure(Invalid) else
    var protocol :- At(p, 0);
    var channel :- ToUuid(Clip(p, 1, 17));
    if ByteToProtocol(protocol) == "tcp" then
      var rest := From(p, 17);
      if |rest| < 1 then Failure(Invalid) else
      var n :- At(rest, 0);
      if |rest| < 1 + n + 2 then Failure(Invalid) else
      var address :- Text(rest, 1, n);
      var port :- U16(Clip(rest, 1 + n, 1 + n + 2));
      Success(Connect("tcp", channel, Some(address), Some(port)))
    else
      Success(Connect(ByteToProtocol(protocol), channel, None, None))
  }

  function ParseConnectResponse(p: seq<Byte>): (r: Result<Message>)
    ensures Safe(r)
  {
    if |p| < 17 then Failure(Invalid) else
    var flag :- At(p, 0);
    var channel :- ToUuid(Clip(p, 1, 17));
    if !Truth(flag) then
      if |p| < 18 then Failure(Invalid) else
      var n :- At(p, 17);
      if |p| < 18 + n then Failure(Invalid) else
      var error :- Text(p, 18, n);
      Success(ConnectResponse(false, channel, Some(error)))
    else
      Success(ConnectResponse(true, channel, None))
  }

  /** The address pairs behind a UDP payload: the payload is re-sliced between the two. */
  function ParseUdpTail(p: seq<Byte>): (r: Result<(string, nat, string, nat)>)
    ensures Safe(r)
  {
    if |p| < 1 then Failure(Invalid) else
    var n :- At(p, 0);
    if |p| < 1 + n + 2 + 1 then Failure(Invalid) else
    var address :- Text(p, 1, n);
    var port :- U16(Clip(p, 1 + n, 1 + n + 2));
    var target :- ParseTarget(From(p, 1 + n + 2));
    Success((address, port, target.0, target.1))
  }

  /** The second pair of address and port. */
  function ParseTarget(p: seq<Byte>): (r: Result<(string, nat)>)
    requires |p| >= 1
    ensures Safe(r)
  {
    var n :- At(p, 0);
    if |p| < 1 + n + 2 then Failure(Invalid) else
    var address :- Text(p, 1, n);
    var port :- U16(Clip(p, 1 + n, 1 + n + 2));
    Success((address, port))
  }

  function Decompress(f: Foreign, compression: Byte, raw: seq<Byte>): (r: Result<seq<Byte>>)
    ensures Safe(r)
  {
    if compression == GZIP then
      match f.gunzip(raw)
      case None => Failure(ForeignError)
      case Some(data) => Success(data)
    else
      Success(raw)
  }

  function ParseData(f: Foreign, p: seq<Byte>): (r: Result<Message>)
    ensures Safe(r)
  {
    if |p| < 22 then Failure(Invalid) else
    var protocol :- At(p, 0);
    var channel :- ToUuid(Clip(p, 1, 17));
    var compression :- At(p, 17);
    var n :- U32(Clip(p, 18, 22));
    if |p| < 22 + n then Failure(Invalid) else
    var data :- Decompress(f, compression, Clip(p, 22, 22 + n));
    if ByteToProtocol(protocol) == "udp" then
      var (address, port, targetAddr, targetPort) :- ParseUdpTail(From(p, 22 + n));
      Success(Data("udp", channel, data, compression, Some(address), Some(port), Some(targetAddr), Some(targetPort)))
    else
      Success(Data(ByteToProtocol(protocol), channel, data, compression, None, None, None, None))
  }

  function ParseDisconnect(p: seq<Byte>): (r: Result<Message>)
    ensures Safe(r)
  {
    if |p| < 16 then Failure(Invalid) else
    var channel :- ToUuid(Clip(p, 0, 16));
    if |p| > 16 then
      var n :- At(p, 16);
      if |p| < 17 + n then Failure(Invalid) else
      if n > 0 then
        var error :- Text(p, 17, n);
        Success(Disconnect(channel, Some(error)))
      else
        Success(Disconnect(channel, None))
    else
      Success(Disconnect(channel, None))
  }

  function ParseConnector(p: seq<Byte>): (r: Result<Message>)
    ensures Safe(r)
  {
    if |p| < 16 then Failure(Invalid) else
    var channel :- ToUuid(Clip(p, 0, 16));
    var rest := From(p, 16);
    if |rest| < 1 then Failure(Invalid) else
    var n :- At(rest, 0);
    if |rest| < 1 + n + 1 then Failure(Invalid) else
    var token :- Text(rest, 1, n);
    var op :- At(rest, 1 + n);
    if ByteToOperation(op) == "" then Failure(Invalid) else
    Success(Connector(channel, token, ByteToOperation(op)))
  }

  function ParseConnectorResponse(p: seq<Byte>): (r: Result<Message>)
    ensures Safe(r)
  {
    if |p| < 17 then Failure(Invalid) else
    var channel :- ToUuid(Clip(p, 0, 16));
    var flag :- At(p, 16);
    if !Truth(flag) then
      if |p| < 18 then Failure(Invalid) else
      var n :- At(p, 17);
      if |p| < 18 + n then Failure(Invalid) else
      var error :- Text(p, 18, n);
      Success(ConnectorResponse(false, channel, Some(error), None))
    else if |p| > 17 then
      var n :- At(p, 17);
      if |p| < 18 + n then Failure(Invalid) else
      var token :- Text(p, 18, n);
      Success(ConnectorResponse(true, channel, None, Some(token)))
    else
      Success(ConnectorResponse(true, channel, None, None))
  }

  /** The counted JSON text of a log or partners message. */
  function ParseCounted(p: seq<Byte>): (r: Result<seq<Byte>>)
    ensures Safe(r)
  {
    if |p| < 4 then Failure(Invalid) else
    var n :- U32(Clip(p, 0, 4));
    if |p| < 4 + n then Failure(Invalid) else
    Success(Clip(p, 4, 4 + n))
  }

  function ParseLog(f: Foreign, p: seq<Byte>): (r: Result<Message>)
    ensures Safe(r)
  {
    var json :- ParseCounted(p);
    match f.loadLog(json)
    case None => Failure(ForeignError)
    case Some((level, text)) => Success(Log(level, text))
  }

  function ParsePartners(f: Foreign, p: seq<Byte>): (r: Result<Message>)
    ensures Safe(r)
  {
    var json :- ParseCounted(p);
    match f.loadCount(json)
    case None => Failure(ForeignError)
    case Some(count) => Success(Partners(count))
  }

  function ParseBody(f: Foreign, kind: Byte, p: seq<Byte>): (r: Result<Message>)
    ensures Safe(r)
    ensures r.Success? ==> Kind(r.value) == kind
  {
    if kind == AUTH then ParseAuth(p)
    else if kind == AUTH_RESPONSE then ParseAuthResponse(p)
    else if kind == CONNECT then ParseConnect(p)
    else if kind == CONNECT_RESPONSE then ParseConnectResponse(p)
    else if kind == DATA then ParseData(f, p)
    else if kind == DISCONNECT then ParseDisconnect(p)
    else if kind == CONNECTOR then ParseConnector(p)
    else if kind == CONNECTOR_RESPONSE then ParseConnectorResponse(p)
    else if kind == LOG then ParseLog(f, p)
    else if kind == PARTNERS then ParsePartners(f, p)
    else Failure(Invalid)
  }

  /** On every byte string the length checks come first: no index is out of bounds and every
      fixed-width slice has its width.  What can still be raised is an explicit rejection, a
      text that is not UTF-8, or a payload gzip or JSON refuses. */
  function Parse(f: Foreign, data: seq<Byte>): (r: Result<Message>)
    ensures Safe(r)
  {
    if |data| < 2 then Failure(Invalid) else
    var version :- At(data, 0);
    if version != VERSION then Failure(Invalid) else
    var kind :- At(data, 1);
    ParseBody(f, kind, From(data, 2))
  }

  // ---------------------------------------------------------------- trailing bytes

  /** The accepted byte strings that end where an optional field could still begin. */
  predicate Open(f: Foreign, data: seq<Byte>) {
    match Parse(f, data)
    case Success(AuthResponse(success, _)) => !success && |data| == 3
    case Success(Disconnect(_, _)) => |data| == 18
    case Success(ConnectorResponse(success, _, _, _)) => success && |data| == 19
    case _ => false
  }

  lemma AcceptedTarget(p: seq<Byte>, tail: seq<Byte>)
    requires |p| >= 1 && ParseTarget(p).Success?
    ensures ParseTarget(p + tail) == ParseTarget(p)
  {
    var n := p[0] as nat;
    ClipOfPrefix(p, tail, 1, 1 + n);
    ClipOfPrefix(p, tail, 1 + n, 1 + n + 2);
  }

  lemma AcceptedTail(p: seq<Byte>, tail: seq<Byte>)
    requires ParseUdpTail(p).Success?
    ensures ParseUdpTail(p + tail) == ParseUdpTail(p)
  {
    var n := p[0] as nat;
    ClipOfPrefix(p, tail, 1, 1 + n);
    ClipOfPrefix(p, tail, 1 + n, 1 + n + 2);
    FromOfPrefix(p, tail, 1 + n + 2);
    AcceptedTarget(From(p, 1 + n + 2), tail);
  }

  lemma AcceptedData(f: Foreign, p: seq<Byte>, tail: seq<Byte>)
    requires ParseData(f, p).Success?
    ensures ParseData(f, p + tail) == ParseData(f, p)
  {
    var n := U32(Clip(p, 18, 22)).value;
    ClipOfPrefix(p, tail, 1, 17);
    ClipOfPrefix(p, tail, 18, 22);
    ClipOfPrefix(p, tail, 22, 22 + n);
    FromOfPrefix(p, tail, 22 + n);
    if ByteToProtocol(p[0]) == "udp" {
      AcceptedTail(From(p, 22 + n), tail);
    }
  }

  lemma AcceptedConnect(p: seq<Byte>, tail: seq<Byte>)
    requires ParseConnect(p).Success?
    ensures ParseConnect(p + tail) == ParseConnect(p)
  {
    ClipOfPrefix(p, tail, 1, 17);
    FromOfPrefix(p, tail, 17);
    if ByteToProtocol(p[0]) == "tcp" {
      var rest := From(p, 17);
      ClipOfPrefix(rest, tail, 1, 1 + rest[0] as nat);
      ClipOfPrefix(rest, tail, 1 + rest[0] as nat, 1 + rest[0] as nat + 2);
    }
  }

  lemma AcceptedConnector(p: seq<Byte>, tail: seq<Byte>)
    requires ParseConnector(p).Success?
    ensures ParseConnector(p + tail) == ParseConnector(p)
  {
    ClipOfPrefix(p, tail, 0, 16);
    FromOfPrefix(p, tail, 16);
    var rest := From(p, 16);
    ClipOfPrefix(rest, tail, 1, 1 + rest[0] as nat);
  }

  lemma AcceptedCounted(p: seq<Byte>, tail: seq<Byte>)
    requires ParseCounted(p).Success?
    ensures ParseCounted(p + tail) == ParseCounted(p)
  {
    ClipOfPrefix(p, tail, 0, 4);
    ClipOfPrefix(p, tail, 4, 4 + U32(Clip(p, 0, 4)).value);
  }

  lemma AcceptedAuth(p: seq<Byte>, tail: seq<Byte>)
    requires ParseAuth(p).Success?
    ensures ParseAuth(p + tail) == ParseAuth(p)
  {
    ClipOfPrefix(p, tail, 1, 1 + p[0] as nat);
    ClipOfPrefix(p, tail, 1 + p[0] as nat + 1, 1 + p[0] as nat + 1 + 16);
  }

  /** The four kinds whose last text field starts at a fixed place. */
  lemma AcceptedReplies(p: seq<Byte>, tail: seq<Byte>)
    ensures ParseAuthResponse(p).Success? && (Truth(p[0]) || |p| > 1) ==>
              ParseAuthResponse(p + tail) == ParseAuthResponse(p)
    ensures ParseConnectResponse(p).Success? ==> ParseConnectResponse(p + tail) == ParseConnectResponse(p)
    ensures ParseDisconnect(p).Success? && |p| > 16 ==> ParseDisconnect(p + tail) == ParseDisconnect(p)
    ensures ParseConnectorResponse(p).Success? && (!Truth(p[16]) || |p| > 17) ==>
              ParseConnectorResponse(p + tail) == ParseConnectorResponse(p)
  {
    if |p| > 1 && |p| >= 2 + p[1] as nat { ClipOfPrefix(p, tail, 2, 2 + p[1] as nat); }
    if |p| >= 16 { ClipOfPrefix(p, tail, 0, 16); }
    if |p| > 16 {
      ClipOfPrefix(p, tail, 1, 17);
      if |p| >= 17 + p[16] as nat { ClipOfPrefix(p, tail, 17, 17 + p[16] as nat); }
    }
    if |p| > 17 && |p| >= 18 + p[17] as nat { ClipOfPrefix(p, tail, 18, 18 + p[17] as nat); }
  }

  /** Self-delimiting, exactly: an accepted message is immune to whatever follows it unless it
      is one of the three open forms, and each of those can be spoiled by a single byte. */
  lemma SelfDelimiting(f: Foreign, data: seq<Byte>)
    requires Parse(f, data).Success?
    ensures !Open(f, data) <==> forall tail :: Parse(f, data + tail) == Parse(f, data)
  {
    var p := From(data, 2);
    if Open(f, data) {
      FromOfPrefix(data, [1], 2);
      assert From(data + [1], 2) == p + [1];
      assert Parse(f, data + [1]).Failure?;
    } else {
      forall tail ensures Parse(f, data + tail) == Parse(f, data) {
        FromOfPrefix(data, tail, 2);
        assert (data + tail)[0] == data[0] && (data + tail)[1] == data[1];
        BodyAccepted(f, data[1], p, tail);
      }
    }
  }

  lemma BodyAccepted(f: Foreign, kind: Byte, p: seq<Byte>, tail: seq<Byte>)
    requires ParseBody(f, kind, p).Success?
    requires kind == AUTH_RESPONSE ==> Truth(p[0]) || |p| > 1
    requires kind == DISCONNECT ==> |p| > 16
    requires kind == CONNECTOR_RESPONSE ==> !Truth(p[16]) || |p| > 17
    ensures ParseBody(f, kind, p + tail) == ParseBody(f, kind, p)
  {
    AcceptedReplies(p, tail);
    if kind == AUTH { AcceptedAuth(p, tail); }
    if kind == CONNECT { AcceptedConnect(p, tail); }
    if kind == DATA { AcceptedData(f, p, tail); }
    if kind == CONNECTOR { AcceptedConnector(p, tail); }
    if kind == LOG || kind == PARTNERS { AcceptedCounted(p, tail); }
  }
}
