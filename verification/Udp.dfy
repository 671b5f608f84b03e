/** UDP association: the SOCKS UDP header (section 7 of RFC 1928) read and written by the SOCKS
    side, and the datagram's way through the codec to the network side and back. */
module Udp {
  import opened Bytes
  import opened Inet
  import opened Messages
  import Utf8
  import Parser
  import Codec

  /** What the forwarder does with a datagram from the SOCKS client.  `Crashed` is an exception,
      which ends the forwarding task. */
  datatype Reading = Understood(addr: string, port: nat, payload: seq<Byte>) | Ignored | Crashed

  /** `int.from_bytes(b, "big")` of at most two bytes. */
  function Number(b: seq<Byte>): nat
    requires |b| <= 2
  {
    if |b| == 0 then 0 else if |b| == 1 then b[0] else Join(b[0], b[1])
  }

  /** The header parser: it looks at ATYP and never at RSV or FRAG, and its slices clamp, so a
      datagram cut short after the address is read with whatever is left. */
  function ReadHeader(lib: Library, d: seq<Byte>): Reading {
    if |d| <= 3 then Ignored
    else if d[3] == 1 then
      var quad := Clip(d, 4, 8);
      if |quad| != 4 then Crashed
      else Understood(lib.ntoa(quad), Number(Clip(d, 8, 10)), From(d, 10))
    else if d[3] == 3 then
      if |d| <= 4 then Crashed else
      var n := d[4] as nat;
      match Utf8.Decode(Clip(d, 5, 5 + n))
      case Failure(_) => Crashed
      case Success(name) => Understood(name, Number(Clip(d, 5 + n, 7 + n)), From(d, 7 + n))
    else Ignored
  }

  /** The header the forwarder puts in front of a reply, as one value. */
  function Header(lib: Library, addr: string, port: nat): Result<seq<Byte>> {
    var rsv: seq<Byte> := [0, 0, 0];
    var number :- Be16(port);
    match lib.aton(addr)
    case Some(quad) => Success(rsv + [1] + quad + number)
    case None =>
      var name := Utf8.Encode(addr);
      if |name| < 256 then Success(rsv + [3, |name| as Byte] + name + number) else Failure(RangeError)
  }

  /** The reply datagram, its header extended step by step. */
  method BuildReply(lib: Library, addr: string, port: nat, data: seq<Byte>) returns (r: Result<seq<Byte>>)
    ensures r.Success? <==> Header(lib, addr, port).Success?
    ensures r.Success? ==> r.value == Header(lib, addr, port).value + data
  {
    var header: seq<Byte> := [0, 0, 0];
    match lib.aton(addr) {
      case Some(quad) =>
        header := header + [1];
        header := header + quad;
      case None =>
        var name := Utf8.Encode(addr);
        header := header + [3];
        if |name| >= 256 {
          return Failure(RangeError);
        }
        header := header + [|name| as Byte];
        header := header + name;
        assert [0, 0, 0] + [3] + [|name| as Byte] == [0, 0, 0] + [3, |name| as Byte];
    }
    var number :- Be16(port);
    header := header + number;
    header := header + data;
    return Success(header);
  }

  // ---------------------------------------------------------------- RFC 1928, section 7

  /** A destination a SOCKS client can name in a datagram. */
  datatype Destination = Quad(bytes: seq<Byte>) | Domain(name: seq<Byte>)

  predicate Nameable(d: Destination) {
    match d
    case Quad(bytes) => |bytes| == 4
    case Domain(name) => |name| < 256
  }

  /** RSV RSV FRAG ATYP DST.ADDR DST.PORT DATA, for an unfragmented datagram. */
  function Datagram(d: Destination, port: nat, data: seq<Byte>): seq<Byte>
    requires Nameable(d) && port < 0x1_0000
  {
    var rsv: seq<Byte> := [0, 0, 0];
    var rest := Be16(port).value + data;
    match d
    case Quad(bytes) => rsv + [1] + (bytes + rest)
    case Domain(name) => rsv + [3, |name| as Byte] + (name + rest)
  }

  lemma ReadQuad(lib: Library, bytes: seq<Byte>, port: nat, data: seq<Byte>)
    requires |bytes| == 4 && port < 0x1_0000
    ensures ReadHeader(lib, Datagram(Quad(bytes), port, data)) == Understood(lib.ntoa(bytes), port, data)
  {
    var number := Be16(port).value;
    SliceAfter([0, 0, 0] + [1], bytes + (number + data), 4);
    assert (bytes + (number + data))[..4] == bytes;
    assert (bytes + (number + data))[4..] == number + data;
    TailRead(Datagram(Quad(bytes), port, data), 8, number, data);
  }

  lemma DomainParts(name: seq<Byte>, port: nat, data: seq<Byte>)
    requires |name| < 256 && port < 0x1_0000
    ensures var d := Datagram(Domain(name), port, data);
            && |d| == 7 + |name| + |data| && d[3] == 3 && d[4] == |name|
            && Clip(d, 5, 5 + |name|) == name
            && Clip(d, 5 + |name|, 7 + |name|) == Be16(port).value && From(d, 7 + |name|) == data
  {
    var number := Be16(port).value;
    var head: seq<Byte> := [0, 0, 0] + [3, |name| as Byte];
    SliceAfter(head, name + (number + data), |name|);
    assert (name + (number + data))[..|name|] == name;
    assert (name + (number + data))[|name|..] == number + data;
    TailRead(head + (name + (number + data)), 5 + |name|, number, data);
  }

  /** Reading any datagram with a name in it. */
  lemma ReadName(lib: Library, d: seq<Byte>, name: seq<Byte>, port: nat, data: seq<Byte>)
    requires |name| < 256 && port < 0x1_0000 && |d| == 7 + |name| + |data| && d[3] == 3 && d[4] == |name|
    requires Clip(d, 5, 5 + |name|) == name
    requires Clip(d, 5 + |name|, 7 + |name|) == Be16(port).value && From(d, 7 + |name|) == data
    ensures ReadHeader(lib, d) ==
            if Utf8.Decode(name).Success? then Understood(Utf8.Decode(name).value, port, data) else Crashed
  {
  }

  lemma ReadDomain(lib: Library, name: seq<Byte>, port: nat, data: seq<Byte>)
    requires |name| < 256 && port < 0x1_0000
    ensures ReadHeader(lib, Datagram(Domain(name), port, data)) ==
            if Utf8.Decode(name).Success? then Understood(Utf8.Decode(name).value, port, data) else Crashed
  {
    DomainParts(name, port, data);
    ReadName(lib, Datagram(Domain(name), port, data), name, port, data);
  }

  /** Reading a complete datagram gives back what the client wrote; a domain name that is not
      UTF-8 ends the forwarder. */
  lemma ReadComplete(lib: Library, d: Destination, port: nat, data: seq<Byte>)
    requires Nameable(d) && port < 0x1_0000
    ensures ReadHeader(lib, Datagram(d, port, data)) ==
            match d
            case Quad(bytes) => Understood(lib.ntoa(bytes), port, data)
            case Domain(name) =>
              if Utf8.Decode(name).Success? then Understood(Utf8.Decode(name).value, port, data) else Crashed
  {
    match d {
      case Quad(bytes) => ReadQuad(lib, bytes, port, data);
      case Domain(name) => ReadDomain(lib, name, port, data);
    }
  }

  lemma TailRead(g: seq<Byte>, k: nat, number: seq<Byte>, data: seq<Byte>)
    requires |g| >= k && From(g, k) == number + data && |number| == 2
    ensures Clip(g, k, k + 2) == number && From(g, k + 2) == data
  {
    Codec.AfterField(g, k, number, data);
  }

  // ---------------------------------------------------------------- to the network

  /** The message the SOCKS side sends for an understood datagram. */
  function Outgoing(channel: Uuid, r: Reading): Message
    requires r.Understood?
  {
    Data("udp", channel, r.payload, GZIP as int, None, None, Some(r.addr), Some(r.port as int))
  }

  /** What the network side sends on for a message it has read, and where to. */
  function Sent(r: Result<Message>): Option<(string, int, seq<Byte>)> {
    if r.Success? && r.value.Data? && r.value.targetAddr.Some? && r.value.targetPort.Some? then
      Some((r.value.targetAddr.value, r.value.targetPort.value, r.value.data))
    else
      None
  }

  /** A datagram's whole way out: header, codec, link, codec, socket. */
  function Out(f: Foreign, lib: Library, channel: Uuid, datagram: seq<Byte>): Option<(string, int, seq<Byte>)> {
    var r := ReadHeader(lib, datagram);
    if !r.Understood? then None else
    match Pack(f, Outgoing(channel, r))
    case Failure(_) => None
    case Success(wire) => Sent(Parser.Parse(f, wire))
  }

  predicate SmallEnough(f: Foreign, data: seq<Byte>) {
    |f.gzip(data)| < 0x1_0000_0000
  }

  /** The text under which a destination is dialled. */
  function Named(lib: Library, d: Destination): Option<string> {
    match d
    case Quad(bytes) => Some(lib.ntoa(bytes))
    case Domain(name) => if Utf8.Decode(name).Success? then Some(Utf8.Decode(name).value) else None
  }

  lemma OutgoingFits(f: Foreign, m: Message)
    requires m.Data? && m.protocol == "udp" && m.compression == GZIP as int && Pack(f, m).Success?
    ensures SmallEnough(f, m.data)
  {
  }

  lemma UdpPacks(f: Foreign, m: Message)
    requires m.Data? && m.protocol == "udp" && 0 <= m.compression < 256 && |WireData(f, m)| < 0x1_0000_0000
    requires AddressPort(m.address, m.port).Success? && AddressPort(m.targetAddr, m.targetPort).Success?
    ensures Pack(f, m).Success?
  {
  }

  lemma OutgoingPacks(f: Foreign, channel: Uuid, addr: string, port: nat, data: seq<Byte>)
    requires port < 0x1_0000 && |addr| < 256 && SmallEnough(f, data)
    ensures Pack(f, Outgoing(channel, Understood(addr, port, data))).Success?
  {
    assert AddressPort(None, None).Success? && AddressPort(Some(addr), Some(port as int)).Success?;
    UdpPacks(f, Outgoing(channel, Understood(addr, port, data)));
  }

  lemma AsciiGetsThrough(f: Foreign, channel: Uuid, addr: string, port: nat, data: seq<Byte>)
    requires Inverse(f) && port < 0x1_0000 && |addr| < 256 && Utf8.Ascii(addr) && SmallEnough(f, data)
    ensures var m := Outgoing(channel, Understood(addr, port, data));
            Pack(f, m).Success? && Sent(Parser.Parse(f, Pack(f, m).value)) == Some((addr, port as int, data))
  {
    var m := Outgoing(channel, Understood(addr, port, data));
    OutgoingPacks(f, channel, addr, port, data);
    Codec.ReadBack(f, m);
    assert Codec.Normal(m)
        == Data("udp", channel, data, GZIP as int, Some(""), Some(0), Some(addr), Some(port as int));
  }

  /** When the first name is ASCII, the second is what the bytes behind its own count decode to. */
  lemma SecondName(s: string, n: int, t: string, k: int)
    requires |s| < 256 && |t| < 256 && Codec.PortNumber(n) && Codec.PortNumber(k) && Utf8.Ascii(s)
    ensures var first := Prefixed(s).value + Be16(n).value;
            var second := Prefixed(t).value + Be16(k).value;
            var r := Parser.ParseUdpTail(first + second);
            r.Success? ==> Parser.Text(second, 1, |t|) == Success(r.value.2)
  {
    var second := Prefixed(t).value + Be16(k).value;
    Codec.AddressPortRead(s, n, second);
  }

  lemma TargetMisread(addr: string, port: nat)
    requires |addr| < 256 && port < 0x1_0000 && !Utf8.Ascii(addr)
    requires UdpTail(None, None, Some(addr), Some(port as int)).Success?
    ensures var r := Parser.ParseUdpTail(UdpTail(None, None, Some(addr), Some(port as int)).value);
            r.Success? ==> r.value.2 != addr
  {
    Codec.AddressPortLayout(None, None);
    Codec.AddressPortLayout(Some(addr), Some(port as int));
    SecondName("", 0, addr, port);
    TextMisread(addr, port);
  }

  lemma TextMisread(addr: string, port: nat)
    requires |addr| < 256 && port < 0x1_0000 && !Utf8.Ascii(addr)
    ensures Parser.Text(Prefixed(addr).value + Be16(port).value, 1, |addr|) != Success(addr)
  {
    var second := Prefixed(addr).value + Be16(port).value;
    Codec.AddressPortRead(addr, port, []);
    assert second + [] == second;
  }

  lemma OutgoingRead(f: Foreign, channel: Uuid, addr: string, port: nat, data: seq<Byte>)
    requires Inverse(f)
    requires Pack(f, Outgoing(channel, Understood(addr, port, data))).Success?
    ensures UdpTail(None, None, Some(addr), Some(port as int)).Success?
    ensures var r := Parser.Parse(f, Pack(f, Outgoing(channel, Understood(addr, port, data))).value);
            var tail := Parser.ParseUdpTail(UdpTail(None, None, Some(addr), Some(port as int)).value);
            r.Success? ==> tail.Success? && r.value.Data? && r.value.targetAddr == Some(tail.value.2)
  {
    Codec.TargetRead(f, Outgoing(channel, Understood(addr, port, data)));
  }

  lemma OtherGetsLost(f: Foreign, channel: Uuid, addr: string, port: nat, data: seq<Byte>)
    requires Inverse(f) && port < 0x1_0000 && |addr| < 256 && !Utf8.Ascii(addr)
    requires Pack(f, Outgoing(channel, Understood(addr, port, data))).Success?
    ensures var m := Outgoing(channel, Understood(addr, port, data));
            Sent(Parser.Parse(f, Pack(f, m).value)) != Some((addr, port as int, data))
  {
    OutgoingRead(f, channel, addr, port, data);
    TargetMisread(addr, port);
  }

  /** UDP end to end, outwards: a complete datagram is sent, unchanged, to exactly the address and
      port it names if and only if that name is ASCII text (IPv4 always is) and its compressed
      payload fits a message. */
  lemma DatagramDelivered(f: Foreign, lib: Library, channel: Uuid, d: Destination, port: nat, data: seq<Byte>)
    requires Inverse(f) && Lawful(lib) && Nameable(d) && port < 0x1_0000
    ensures (&& Named(lib, d).Some?
             && Out(f, lib, channel, Datagram(d, port, data)) == Some((Named(lib, d).value, port as int, data)))
            <==> Named(lib, d).Some? && Utf8.Ascii(Named(lib, d).value) && SmallEnough(f, data)
  {
    ReadComplete(lib, d, port, data);
    if Named(lib, d).Some? {
      var addr := Named(lib, d).value;
      var m := Outgoing(channel, Understood(addr, port, data));
      if Utf8.Ascii(addr) && SmallEnough(f, data) {
        AsciiGetsThrough(f, channel, addr, port, data);
      } else if Pack(f, m).Success? {
        OutgoingFits(f, m);
        OtherGetsLost(f, channel, addr, port, data);
      }
    }
  }

  // ---------------------------------------------------------------- back to the client

  /** The message the network side sends for a datagram from `addr`. */
  function Incoming(channel: Uuid, addr: string, port: nat, data: seq<Byte>): Message {
    Data("udp", channel, data, 0, Some(addr), Some(port as int), None, None)
  }

  /** The datagram the SOCKS client gets for what came over the link. */
  function Handed(f: Foreign, lib: Library, wire: seq<Byte>): Option<seq<Byte>> {
    match Parser.Parse(f, wire)
    case Success(Data(_, _, data, _, Some(addr), Some(port), _, _)) =>
      if port < 0 then None
      else if Header(lib, addr, port).Success? then Some(Header(lib, addr, port).value + data) else None
    case _ => None
  }

  lemma HeaderIsDatagram(lib: Library, addr: string, port: nat, data: seq<Byte>)
    requires Lawful(lib) && port < 0x1_0000 && |Utf8.Encode(addr)| < 256
    ensures Header(lib, addr, port).Success?
    ensures Header(lib, addr, port).value + data
            == Datagram(if lib.aton(addr).Some? then Quad(lib.aton(addr).value) else Domain(Utf8.Encode(addr)),
                        port, data)
  {
    var number := Be16(port).value;
    var rsv: seq<Byte> := [0, 0, 0];
    if lib.aton(addr).Some? {
      var quad := lib.aton(addr).value;
      Grow3(rsv + [1], quad, number, data);
      Grow2(quad, number, data);
    } else {
      var name := Utf8.Encode(addr);
      Grow3(rsv + [3, |name| as Byte], name, number, data);
      Grow2(name, number, data);
    }
  }

  /** UDP end to end, inwards: a reply from any IPv4 source reaches the SOCKS client as a datagram
      whose header reads back as that very source, with the same payload. */
  lemma ReplyDelivered(f: Foreign, lib: Library, channel: Uuid, quad: seq<Byte>, port: nat, data: seq<Byte>)
    requires Inverse(f) && Lawful(lib) && |quad| == 4 && port < 0x1_0000 && |data| < 0x1_0000_0000
    ensures var m := Incoming(channel, lib.ntoa(quad), port, data);
            && Pack(f, m).Success?
            && Handed(f, lib, Pack(f, m).value) == Some(Datagram(Quad(quad), port, data))
            && ReadHeader(lib, Datagram(Quad(quad), port, data)) == Understood(lib.ntoa(quad), port, data)
  {
    var addr := lib.ntoa(quad);
    var m := Incoming(channel, addr, port, data);
    IncomingReadBack(f, channel, addr, port, data);
    HeaderIsDatagram(lib, addr, port, data);
    ReadComplete(lib, Quad(quad), port, data);
  }

  lemma IncomingReadBack(f: Foreign, channel: Uuid, addr: string, port: nat, data: seq<Byte>)
    requires Inverse(f) && Utf8.Ascii(addr) && |addr| < 256 && port < 0x1_0000 && |data| < 0x1_0000_0000
    ensures var m := Incoming(channel, addr, port, data);
            && Pack(f, m).Success?
            && Parser.Parse(f, Pack(f, m).value)
               == Success(Data("udp", channel, data, 0, Some(addr), Some(port as int), Some(""), Some(0)))
  {
    var m := Incoming(channel, addr, port, data);
    assert PrefixedOrEmpty(Some(addr)).Success?;
    assert WireData(f, m) == data;
    assert Pack(f, m).Success?;
    Codec.ReadBack(f, m);
  }
}
