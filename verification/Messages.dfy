/** The ten WebSocket messages and their binary form. */
module Messages {
  import opened Bytes
  import opened Utf8

  datatype Message =
    | Auth(token: string, reverse: bool, inst: Uuid)
    | AuthResponse(success: bool, error: Option<string>)
    | Connect(protocol: string, channel: Uuid, address: Option<string>, port: Option<int>)
    | Data(protocol: string, channel: Uuid, data: seq<Byte>, compression: int,
           address: Option<string>, port: Option<int>,
           targetAddr: Option<string>, targetPort: Option<int>)
    | ConnectResponse(success: bool, channel: Uuid, error: Option<string>)
    | Disconnect(channel: Uuid, error: Option<string>)
    | Connector(channel: Uuid, token: string, operation: string)
    | ConnectorResponse(success: bool, channel: Uuid, error: Option<string>, newToken: Option<string>)
    | Log(level: string, text: string)
    | Partners(count: int)

  /** The library calls the codec makes: gzip, and JSON for the two message kinds that use it. */
  datatype Foreign = Foreign(
    gzip: seq<Byte> -> seq<Byte>,
    gunzip: seq<Byte> -> Option<seq<Byte>>,
    dumpLog: (string, string) -> seq<Byte>,
    loadLog: seq<Byte> -> Option<(string, string)>,
    dumpCount: int -> seq<Byte>,
    loadCount: seq<Byte> -> Option<int>)

  /** What is assumed of them: reading undoes writing. */
  ghost predicate Inverse(f: Foreign) {
    && (forall d :: f.gunzip(f.gzip(d)) == Some(d))
    && (forall level, text :: f.loadLog(f.dumpLog(level, text)) == Some((level, text)))
    && (forall n :: f.loadCount(f.dumpCount(n)) == Some(n))
  }

  const VERSION: Byte := 1
  const AUTH: Byte := 1
  const AUTH_RESPONSE: Byte := 2
  const CONNECT: Byte := 3
  const DATA: Byte := 4
  const CONNECT_RESPONSE: Byte := 5
  const DISCONNECT: Byte := 6
  const CONNECTOR: Byte := 7
  const CONNECTOR_RESPONSE: Byte := 8
  const LOG: Byte := 9
  const PARTNERS: Byte := 10
  const GZIP: Byte := 1

  function ProtocolToByte(protocol: string): Byte {
    if protocol == "tcp" then 1 else if protocol == "udp" then 2 else 0
  }

  function ByteToProtocol(b: Byte): string {
    if b == 1 then "tcp" else if b == 2 then "udp" else ""
  }

  function OperationToByte(operation: string): Byte {
    if operation == "add" then 1 else if operation == "remove" then 2 else 0
  }

  function ByteToOperation(b: Byte): string {
    if b == 1 then "add" else if b == 2 then "remove" else ""
  }

  function Flag(b: bool): Byte {
    if b then 1 else 0
  }

  // ---------------------------------------------------------------- writing

  /** A single byte, as `bytearray.append` accepts it. */
  function OneByte(n: int): (r: Result<seq<Byte>>) {
    if 0 <= n < 256 then Success([n as Byte]) else Failure(RangeError)
  }

  /** A text with its length in CHARACTERS in front, as every text field is written. */
  function Prefixed(s: string): Result<seq<Byte>> {
    if |s| < 256 then Success([|s| as Byte] + Encode(s)) else Failure(RangeError)
  }

  /** A text field that may be absent: absent and empty are written the same way. */
  function PrefixedOrEmpty(s: Option<string>): Result<seq<Byte>> {
    if s.Some? then Prefixed(s.value) else Success([0])
  }

  function PortOrZero(p: Option<int>): int {
    if p.Some? then p.value else 0
  }

  predicate NonEmpty(s: Option<string>) {
    s.Some? && s.value != ""
  }

  /** The bytes of a data message's payload as they travel. */
  function WireData(f: Foreign, m: Message): seq<Byte>
    requires m.Data?
  {
    if m.compression == GZIP as int then f.gzip(m.data) else m.data
  }

  function AddressPort(address: Option<string>, port: Option<int>): Result<seq<Byte>> {
    var a :- PrefixedOrEmpty(address);
    var p :- Be16(PortOrZero(port));
    Success(a + p)
  }

  /** The two address and port pairs at the end of a UDP data message. */
  function UdpTail(address: Option<string>, port: Option<int>, targetAddr: Option<string>, targetPort: Option<int>)
    : Result<seq<Byte>>
  {
    var source :- AddressPort(address, port);
    var target :- AddressPort(targetAddr, targetPort);
    Success(source + target)
  }

  function Counted(bytes: seq<Byte>): Result<seq<Byte>> {
    var n :- Be32(|bytes|);
    Success(n + bytes)
  }

  function Kind(m: Message): Byte {
    match m
    case Auth(_, _, _) => AUTH
    case AuthResponse(_, _) => AUTH_RESPONSE
    case Connect(_, _, _, _) => CONNECT
    case Data(_, _, _, _, _, _, _, _) => DATA
    case ConnectResponse(_, _, _) => CONNECT_RESPONSE
    case Disconnect(_, _) => DISCONNECT
    case Connector(_, _, _) => CONNECTOR
    case ConnectorResponse(_, _, _, _) => CONNECTOR_RESPONSE
    case Log(_, _) => LOG
    case Partners(_) => PARTNERS
  }

  /** The layout of the bytes after version and type. */
  function Body(f: Foreign, m: Message): Result<seq<Byte>> {
    match m
    case Auth(token, reverse, inst) =>
      var t :- Prefixed(token);
      Success(t + [Flag(reverse)] + inst)
    case AuthResponse(success, error) =>
      var e :- if !success && NonEmpty(error) then Prefixed(error.value) else Success([]);
      Success([Flag(success)] + e)
    case Connect(protocol, channel, address, port) =>
      var head := [ProtocolToByte(protocol)] + channel;
      if protocol != "tcp" then
        Success(head)
      else if address.None? || port.None? then
        Failure(Invalid)
      else
        var a :- Prefixed(address.value);
        var p :- Be16(port.value);
        Success(head + a + p)
    case Data(protocol, channel, data, compression, address, port, targetAddr, targetPort) =>
      var c :- OneByte(compression);
      var d :- Counted(WireData(f, m));
      var tail :- if protocol == "udp" then UdpTail(address, port, targetAddr, targetPort) else Success([]);
      Success([ProtocolToByte(protocol)] + channel + c + d + tail)
    case ConnectResponse(success, channel, error) =>
      var e :- if !success && error.Some? then Prefixed(error.value) else Success([]);
      Success([Flag(success)] + channel + e)
    case Disconnect(channel, error) =>
      var e :- if NonEmpty(error) then Prefixed(error.value) else Success([]);
      Success(channel + e)
    case Connector(channel, token, operation) =>
      var t :- Prefixed(token);
      Success(channel + t + [OperationToByte(operation)])
    case ConnectorResponse(success, channel, error, newToken) =>
      var e :- if !success && NonEmpty(error) then Prefixed(error.value)
               else if success && NonEmpty(newToken) then Prefixed(newToken.value)
               else Success([]);
      Success(channel + [Flag(success)] + e)
    case Log(level, text) =>
      Counted(f.dumpLog(level, text))
    case Partners(count) =>
      Counted(f.dumpCount(count))
  }

  function Pack(f: Foreign, m: Message): Result<seq<Byte>> {
    var body :- Body(f, m);
    Success([VERSION, Kind(m)] + body)
  }

  function Appended(buffer: seq<Byte>, field: Result<seq<Byte>>): Result<seq<Byte>> {
    var bytes :- field;
    Success(buffer + bytes)
  }

  /** Append a text field to the growing buffer. */
  method ExtendText(buffer: seq<Byte>, s: string) returns (r: Result<seq<Byte>>)
    ensures r == Appended(buffer, Prefixed(s))
  {
    if |s| >= 256 {
      return Failure(RangeError);
    }
    var result := buffer + [|s| as Byte];
    result := result + Encode(s);
    assert result == buffer + ([|s| as Byte] + Encode(s));
    return Success(result);
  }

  /** Append an optional text field: one zero byte when it is absent or empty. */
  method ExtendOptional(buffer: seq<Byte>, s: Option<string>) returns (r: Result<seq<Byte>>)
    ensures r == Appended(buffer, PrefixedOrEmpty(s))
  {
    if NonEmpty(s) {
      r := ExtendText(buffer, s.value);
    } else {
      assert [0] + Encode("") == [0];
      r := Success(buffer + [0]);
    }
  }

  method ExtendAddressPort(buffer: seq<Byte>, address: Option<string>, port: Option<int>)
    returns (r: Result<seq<Byte>>)
    ensures r == Appended(buffer, AddressPort(address, port))
  {
    var result :- ExtendOptional(buffer, address);
    var p :- Be16(PortOrZero(port));
    result := result + p;
    Grow2(buffer, PrefixedOrEmpty(address).value, p);
    return Success(result);
  }

  /** `pack_message` as it runs: one buffer, grown field by field in program order. */
  method PackMessage(f: Foreign, m: Message) returns (r: Result<seq<Byte>>)
    ensures r == Pack(f, m)
  {
    var result: seq<Byte> := [VERSION];
    result := result + [Kind(m)];
    ghost var start := [VERSION, Kind(m)];
    assert result == start;
    match m {
      case Auth(token, reverse, inst) =>
        result :- ExtendText(result, token);
        result := result + [Flag(reverse)];
        result := result + inst;
        Grow3(start, Prefixed(token).value, [Flag(reverse)], inst);
      case AuthResponse(success, error) =>
        result := result + [Flag(success)];
        if !success && NonEmpty(error) {
          result :- ExtendText(result, error.value);
          Grow2(start, [Flag(success)], Prefixed(error.value).value);
        }
        assert [Flag(success)] + [] == [Flag(success)];
      case Connect(protocol, channel, address, port) =>
        result := result + [ProtocolToByte(protocol)];
        result := result + channel;
        Grow2(start, [ProtocolToByte(protocol)], channel);
        if protocol == "tcp" {
          if address.None? || port.None? {
            return Failure(Invalid);
          }
          result :- ExtendText(result, address.value);
          var p :- Be16(port.value);
          result := result + p;
          Grow3(start, [ProtocolToByte(protocol)] + channel, Prefixed(address.value).value, p);
        }
      case Data(protocol, channel, data, compression, address, port, targetAddr, targetPort) =>
        result := result + [ProtocolToByte(protocol)];
        result := result + channel;
        var compressed := data;
        if compression == GZIP as int {
          compressed := f.gzip(data);
        }
        if !(0 <= compression < 256) {
          return Failure(RangeError);
        }
        result := result + [compression as Byte];
        var n :- Be32(|compressed|);
        result := result + n;
        result := result + compressed;
        ghost var head := [ProtocolToByte(protocol)] + channel + [compression as Byte];
        Grow3(start, [ProtocolToByte(protocol)], channel, [compression as Byte]);
        Grow2(start + head, n, compressed);
        if protocol == "udp" {
          result :- ExtendAddressPort(result, address, port);
          result :- ExtendAddressPort(result, targetAddr, targetPort);
          Grow4(start, head, n + compressed, AddressPort(address, port).value,
              AddressPort(targetAddr, targetPort).value);
          Grow2(head + (n + compressed), AddressPort(address, port).value, AddressPort(targetAddr, targetPort).value);
        } else {
          Grow3(start, head, n + compressed, []);
          assert result + [] == result;
        }
      case ConnectResponse(success, channel, error) =>
        result := result + [Flag(success)];
        result := result + channel;
        if !success && error.Some? {
          result :- ExtendText(result, error.value);
          Grow3(start, [Flag(success)], channel, Prefixed(error.value).value);
        } else {
          Grow3(start, [Flag(success)], channel, []);
          assert result + [] == result;
        }
      case Disconnect(channel, error) =>
        result := result + channel;
        if NonEmpty(error) {
          result :- ExtendText(result, error.value);
          Grow2(start, channel, Prefixed(error.value).value);
        } else {
          assert channel + [] == channel;
        }
      case Connector(channel, token, operation) =>
        result := result + channel;
        result :- ExtendText(result, token);
        result := result + [OperationToByte(operation)];
        Grow3(start, channel, Prefixed(token).value, [OperationToByte(operation)]);
      case ConnectorResponse(success, channel, error, newToken) =>
        result := result + channel;
        result := result + [Flag(success)];
        if !success && NonEmpty(error) {
          result :- ExtendText(result, error.value);
          Grow3(start, channel, [Flag(success)], Prefixed(error.value).value);
        } else if success && NonEmpty(newToken) {
          result :- ExtendText(result, newToken.value);
          Grow3(start, channel, [Flag(success)], Prefixed(newToken.value).value);
        } else {
          Grow3(start, channel, [Flag(success)], []);
          assert result + [] == result;
        }
      case Log(level, text) =>
        var json := f.dumpLog(level, text);
        var n :- Be32(|json|);
        result := result + n;
        result := result + json;
        Grow2(start, n, json);
      case Partners(count) =>
        var json := f.dumpCount(count);
        var n :- Be32(|json|);
        result := result + n;
        result := result + json;
        Grow2(start, n, json);
    }
    return Success(result);
  }
}
