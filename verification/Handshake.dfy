/** The SOCKS5 handshake of RFC 1928 and RFC 1929 with both of the relay's roles at the two ends
    of one connection: the client role that dials an upstream proxy, and the server role that
    serves a SOCKS client.  A party is where it waits for its next bytes; reads are full reads. */
module Handshake {
  import opened Bytes
  import opened Inet
  import Utf8

  datatype Remote = Accepted | Refused | TimedOut

  /** `user` and `pass` belong to the client role, `wantUser` and `wantPass` to the server role;
      an empty text stands for one that is not configured.  `relay` is where the server role would
      take datagrams. */
  datatype Setup = Setup(lib: Library, user: string, pass: string, target: string, port: int,
                         wantUser: string, wantPass: string, remote: Remote, relay: SocketName)

  /** An IPv4 address and a port as they travel. */
  type SocketName = b: seq<Byte> | |b| == 6 witness [127, 0, 0, 1, 0, 0]

  /** What a Connect message asks for. */
  datatype Ask = Tcp(addr: string, port: nat) | Udp

  datatype Client = Dialing | AwaitMethod | AwaitAuth | AwaitReply | SkipBound(n: nat) | SkipName | Connected | Failed

  datatype Server =
    | Hello | Methods(n: nat)
    | AuthVersion | UserLen | User(n: nat) | PassLen(user: string) | Pass(user: string, n: nat)
    | Header | V4 | NameLen | Name(n: nat) | V6 | Port(addr: string) | Asking(udp: bool)
    | Serving | Associated | Closed

  /** `toServer` and `toClient` are the bytes on the way; `asked` the Connect messages emitted. */
  datatype Sys = Sys(client: Client, server: Server, toServer: seq<Byte>, toClient: seq<Byte>, asked: seq<Ask>)

  const Begin := Sys(Dialing, Hello, [], [], [])

  const Bound: seq<Byte> := [0, 0, 0, 0, 0, 0]
  const Granted: seq<Byte> := [5, 0, 0, 1] + Bound
  const Unreachable: seq<Byte> := [5, 4, 0, 1] + Bound
  const Failure: seq<Byte> := [5, 1, 0, 1] + Bound

  // ---------------------------------------------------------------- client role

  predicate Offers(s: Setup) {
    s.user != "" && s.pass != ""
  }

  predicate Demands(s: Setup) {
    s.wantUser != "" && s.wantPass != ""
  }

  function ClientNeed(c: Client): nat {
    match c
    case Dialing => 0
    case AwaitMethod => 2
    case AwaitAuth => 2
    case AwaitReply => 4
    case SkipBound(n) => n
    case SkipName => 1
    case _ => 0
  }

  /** The RFC 1929 request; the lengths are counts of characters. */
  function AuthRequest(s: Setup): Option<seq<Byte>> {
    if |s.user| < 256 && |s.pass| < 256 then
      Some([1, |s.user| as Byte] + Utf8.Encode(s.user) + ([|s.pass| as Byte] + Utf8.Encode(s.pass)))
    else
      None
  }

  /** Address type and address of the request; a name too long for its length byte raises. */
  function Target(s: Setup): Option<(Byte, seq<Byte>)> {
    if s.lib.aton(s.target).Some? then Some((1, s.lib.aton(s.target).value))
    else if s.lib.pton6(s.target).Some? then Some((4, s.lib.pton6(s.target).value))
    else
      var name := Utf8.Encode(s.target);
      if |name| < 256 then Some((3, [|name| as Byte] + name)) else None
  }

  function Request(s: Setup): Option<seq<Byte>> {
    if Target(s).Some? && Be16(s.port).Success? then
      Some([5, 1, 0, Target(s).value.0] + (Target(s).value.1 + Be16(s.port).value))
    else
      None
  }

  /** The authentication request as the client role grows it. */
  method BuildAuth(s: Setup) returns (r: Option<seq<Byte>>)
    ensures r == AuthRequest(s)
  {
    var auth: seq<Byte> := [1];
    if |s.user| >= 256 {
      return None;
    }
    auth := auth + [|s.user| as Byte];
    auth := auth + Utf8.Encode(s.user);
    if |s.pass| >= 256 {
      return None;
    }
    auth := auth + [|s.pass| as Byte];
    auth := auth + Utf8.Encode(s.pass);
    Grow2([1, |s.user| as Byte] + Utf8.Encode(s.user), [|s.pass| as Byte], Utf8.Encode(s.pass));
    assert [1] + [|s.user| as Byte] == [1, |s.user| as Byte];
    return Some(auth);
  }

  /** ... and the connect request. */
  method BuildRequest(s: Setup) returns (r: Option<seq<Byte>>)
    ensures r == Request(s)
  {
    var request: seq<Byte> := [5, 1, 0];
    match s.lib.aton(s.target) {
      case Some(quad) =>
        request := request + [1];
        request := request + quad;
      case None =>
        match s.lib.pton6(s.target) {
          case Some(address) =>
            request := request + [4];
            request := request + address;
          case None =>
            var name := Utf8.Encode(s.target);
            if |name| >= 256 {
              return None;
            }
            request := request + [3];
            request := request + [|name| as Byte];
            request := request + name;
            Grow2([5, 1, 0, 3], [|name| as Byte], name);
        }
    }
    assert request == [5, 1, 0, Target(s).value.0] + Target(s).value.1;
    var port := Be16(s.port);
    if port.Failure? {
      return None;
    }
    Grow2([5, 1, 0, Target(s).value.0], Target(s).value.1, port.value);
    request := request + port.value;
    return Some(request);
  }

  function Dial(s: Setup): (Client, seq<Byte>) {
    if Request(s).Some? then (AwaitReply, Request(s).value) else (Failed, [])
  }

  function ClientStep(s: Setup, c: Client, r: seq<Byte>): (Client, seq<Byte>)
    requires |r| == ClientNeed(c) && c != Connected && c != Failed
  {
    match c
    case Dialing => (AwaitMethod, [5, 1, if Offers(s) then 2 else 0])
    case AwaitMethod =>
      if r[0] != 5 then (Failed, [])
      else if r[1] == 2 then
        if !Offers(s) || AuthRequest(s).None? then (Failed, []) else (AwaitAuth, AuthRequest(s).value)
      else if r[1] == 0 then Dial(s)
      else (Failed, [])
    case AwaitAuth =>
      if r[0] != 1 || r[1] != 0 then (Failed, []) else Dial(s)
    case AwaitReply =>
      if r[0] != 5 || r[1] != 0 then (Failed, [])
      else if r[3] == 1 then (SkipBound(6), [])
      else if r[3] == 3 then (SkipName, [])
      else if r[3] == 4 then (SkipBound(18), [])
      else (Connected, [])
    case SkipBound(_) => (Connected, [])
    case SkipName => (SkipBound(r[0] as nat + 2), [])
  }

  // ---------------------------------------------------------------- server role

  function ServerNeed(v: Server): nat {
    match v
    case Hello => 2
    case Methods(n) => n
    case AuthVersion => 1
    case UserLen => 1
    case User(n) => n
    case PassLen(_) => 1
    case Pass(_, n) => n
    case Header => 4
    case V4 => 4
    case NameLen => 1
    case Name(n) => n
    case V6 => 16
    case Port(_) => 2
    case _ => 0
  }

  predicate ServerOver(v: Server) {
    v in {Serving, Associated, Closed}
  }

  /** The next state, the bytes sent, and the Connect emitted, if any. */
  function ServerStep(s: Setup, v: Server, r: seq<Byte>): (Server, seq<Byte>, seq<Ask>)
    requires |r| == ServerNeed(v) && !ServerOver(v)
  {
    match v
    case Hello => (Methods(r[1]), [], [])
    case Methods(_) =>
      if !Demands(s) then (Header, [5, 0], [])
      else if 2 !in r then (Closed, [5, 255], [])
      else (AuthVersion, [5, 2], [])
    case AuthVersion => if r[0] != 1 then (Closed, [], []) else (UserLen, [], [])
    case UserLen => (User(r[0]), [], [])
    case User(_) =>
      if Utf8.Decode(r).Failure? then (Closed, Failure, []) else (PassLen(Utf8.Decode(r).value), [], [])
    case PassLen(user) => (Pass(user, r[0]), [], [])
    case Pass(user, _) =>
      if Utf8.Decode(r).Failure? then (Closed, Failure, [])
      else if user != s.wantUser || Utf8.Decode(r).value != s.wantPass then (Closed, [1, 1], [])
      else (Header, [1, 0], [])
    case Header =>
      if r[1] == 3 then (Asking(true), [], [Udp])
      else if r[1] != 1 then (Closed, [], [])
      else if r[3] == 1 then (V4, [], [])
      else if r[3] == 3 then (NameLen, [], [])
      else if r[3] == 4 then (V6, [], [])
      else (Closed, [], [])
    case V4 => (Port(s.lib.ntoa(r)), [], [])
    case NameLen => (Name(r[0]), [], [])
    case Name(_) =>
      if Utf8.Decode(r).Failure? then (Closed, Failure, []) else (Port(Utf8.Decode(r).value), [], [])
    case V6 => (Port(s.lib.ntop6(r)), [], [])
    case Port(addr) => (Asking(false), [], [Tcp(addr, U16(r).value)])
    case Asking(udp) =>
      if s.remote != Accepted then (Closed, Unreachable, [])
      else if udp then (Associated, [5, 0, 0, 1] + s.relay, [])
      else (Serving, Granted, [])
  }

  // ---------------------------------------------------------------- both together

  /** Either party acts on a full read, or notices that the other one has hung up. */
  datatype Move = ClientActs | ServerActs | ClientHangsUp | ServerHangsUp

  predicate Enabled(y: Sys, m: Move) {
    match m
    case ClientActs => y.client !in {Connected, Failed} && |y.toClient| >= ClientNeed(y.client)
    case ServerActs => !ServerOver(y.server) && |y.toServer| >= ServerNeed(y.server)
    case ClientHangsUp =>
      y.client !in {Connected, Failed} && |y.toClient| < ClientNeed(y.client) && y.server == Closed
    case ServerHangsUp =>
      !ServerOver(y.server) && |y.toServer| < ServerNeed(y.server) && y.client == Failed
  }

  function Step(s: Setup, y: Sys, m: Move): Sys
    requires Enabled(y, m)
  {
    match m
    case ClientActs =>
      var n := ClientNeed(y.client);
      var (c, out) := ClientStep(s, y.client, y.toClient[..n]);
      y.(client := c, toServer := y.toServer + out, toClient := y.toClient[n..])
    case ServerActs =>
      var n := ServerNeed(y.server);
      var (v, out, ask) := ServerStep(s, y.server, y.toServer[..n]);
      y.(server := v, toClient := y.toClient + out, toServer := y.toServer[n..], asked := y.asked + ask)
    case ClientHangsUp => y.(client := Failed)
    case ServerHangsUp => y.(server := Closed)
  }

  predicate Over(y: Sys) {
    y.client in {Connected, Failed} && ServerOver(y.server)
  }

  predicate Runs(s: Setup, y: Sys, moves: seq<Move>)
    decreases |moves|
  {
    moves != [] ==> Enabled(y, moves[0]) && Runs(s, Step(s, y, moves[0]), moves[1..])
  }

  function Run(s: Setup, y: Sys, moves: seq<Move>): Sys
    requires Runs(s, y, moves)
    decreases |moves|
  {
    if moves == [] then y else Run(s, Step(s, y, moves[0]), moves[1..])
  }

  // ---------------------------------------------------------------- the conversation

  predicate Matches(s: Setup) {
    s.user == s.wantUser && s.pass == s.wantPass
  }

  /** Where the whole system can be.  `Dead` collects the ends in failure. */
  datatype Stage =
    | Starting | Greeted | HelloRead | MethodSent | NoMethod
    | AuthSent | VersionRead | UserLenRead | UserRead | PassLenRead | AuthGranted | AuthDenied | AuthUnsent
    | Requested | HeaderRead | NameLenRead | AddressRead | Asked | Answered | Declined | ReplyRead | Done
    | RequestUnsent | Dead(left: seq<Byte>, asked: seq<Ask>)

  predicate LoggedIn(s: Setup) {
    Demands(s) ==> Offers(s) && AuthRequest(s).Some? && Matches(s)
  }

  /** The handshake reaches the point where the Connect message is emitted. */
  predicate Asks(s: Setup) {
    LoggedIn(s) && Request(s).Some?
  }

  function Question(s: Setup): seq<Ask>
    requires Asks(s)
  {
    [Tcp(Canonical(s.lib, s.target), s.port)]
  }

  function AddressType(s: Setup): Byte
    requires Target(s).Some?
  {
    Target(s).value.0
  }

  /** The stages the setup can be in. */
  predicate Possible(s: Setup, g: Stage) {
    match g
    case Starting => true
    case Greeted => true
    case HelloRead => true
    case MethodSent => Demands(s) ==> Offers(s)
    case NoMethod => Demands(s) && !Offers(s)
    case AuthSent => Demands(s) && Offers(s) && AuthRequest(s).Some?
    case VersionRead => Demands(s) && Offers(s) && AuthRequest(s).Some?
    case UserLenRead => Demands(s) && Offers(s) && AuthRequest(s).Some?
    case UserRead => Demands(s) && Offers(s) && AuthRequest(s).Some?
    case PassLenRead => Demands(s) && Offers(s) && AuthRequest(s).Some?
    case AuthGranted => Demands(s) && LoggedIn(s)
    case AuthDenied => Demands(s) && Offers(s) && !Matches(s)
    case AuthUnsent => Demands(s) && Offers(s) && AuthRequest(s).None?
    case Requested => Asks(s)
    case HeaderRead => Asks(s)
    case NameLenRead => Asks(s) && AddressType(s) == 3
    case AddressRead => Asks(s)
    case Asked => Asks(s)
    case Answered => Asks(s) && s.remote == Accepted
    case Declined => Asks(s) && s.remote != Accepted
    case ReplyRead => Asks(s) && s.remote == Accepted
    case Done => Asks(s) && s.remote == Accepted
    case RequestUnsent => LoggedIn(s) && Request(s).None?
    case Dead(left, asked) =>
      && !(Asks(s) && s.remote == Accepted)
      && asked == if Asks(s) then Question(s) else []
  }

  function AfterHeader(s: Setup): Server
    requires Target(s).Some?
  {
    if AddressType(s) == 1 then V4 else if AddressType(s) == 3 then NameLen else V6
  }

  /** The one configuration that goes with each stage. */
  function At(s: Setup, g: Stage): Sys
    requires Possible(s, g)
  {
    var name := Utf8.Encode(s.user);
    var word := Utf8.Encode(s.pass);
    match g
    case Starting => Begin
    case Greeted => Sys(AwaitMethod, Hello, [5, 1, if Offers(s) then 2 else 0], [], [])
    case HelloRead => Sys(AwaitMethod, Methods(1), [if Offers(s) then 2 else 0], [], [])
    case MethodSent =>
      if Demands(s) then Sys(AwaitMethod, AuthVersion, [], [5, 2], []) else Sys(AwaitMethod, Header, [], [5, 0], [])
    case NoMethod => Sys(AwaitMethod, Closed, [], [5, 255], [])
    case AuthSent => Sys(AwaitAuth, AuthVersion, AuthRequest(s).value, [], [])
    case VersionRead => Sys(AwaitAuth, UserLen, AuthRequest(s).value[1..], [], [])
    case UserLenRead => Sys(AwaitAuth, User(|s.user|), name + ([|s.pass| as Byte] + word), [], [])
    case UserRead => Sys(AwaitAuth, PassLen(s.user), [|s.pass| as Byte] + word, [], [])
    case PassLenRead => Sys(AwaitAuth, Pass(s.user, |s.pass|), word, [], [])
    case AuthGranted => Sys(AwaitAuth, Header, [], [1, 0], [])
    case AuthDenied => Sys(AwaitAuth, Closed, [], [1, 1], [])
    case AuthUnsent => Sys(Failed, AuthVersion, [], [], [])
    case Requested => Sys(AwaitReply, Header, Request(s).value, [], [])
    case HeaderRead => Sys(AwaitReply, AfterHeader(s), Target(s).value.1 + Be16(s.port).value, [], [])
    case NameLenRead =>
      Sys(AwaitReply, Name(|Utf8.Encode(s.target)|), Utf8.Encode(s.target) + Be16(s.port).value, [], [])
    case AddressRead => Sys(AwaitReply, Port(Canonical(s.lib, s.target)), Be16(s.port).value, [], [])
    case Asked => Sys(AwaitReply, Asking(false), [], [], Question(s))
    case Answered => Sys(AwaitReply, Serving, [], Granted, Question(s))
    case Declined => Sys(AwaitReply, Closed, [], Unreachable, Question(s))
    case ReplyRead => Sys(SkipBound(6), Serving, [], Bound, Question(s))
    case Done => Sys(Connected, Serving, [], [], Question(s))
    case RequestUnsent => Sys(Failed, Header, [], [], [])
    case Dead(left, asked) => Sys(Failed, Closed, [], left, asked)
  }

  function NextStage(s: Setup, g: Stage): Stage {
    match g
    case Starting => Greeted
    case Greeted => HelloRead
    case HelloRead => if Demands(s) && !Offers(s) then NoMethod else MethodSent
    case MethodSent =>
      if Demands(s) then if AuthRequest(s).Some? then AuthSent else AuthUnsent
      else if Request(s).Some? then Requested else RequestUnsent
    case NoMethod => Dead([], [])
    case AuthSent => VersionRead
    case VersionRead => UserLenRead
    case UserLenRead => UserRead
    case UserRead => PassLenRead
    case PassLenRead => if Matches(s) then AuthGranted else AuthDenied
    case AuthGranted => if Request(s).Some? then Requested else RequestUnsent
    case AuthDenied => Dead([], [])
    case AuthUnsent => Dead([], [])
    case Requested => HeaderRead
    case HeaderRead => if Target(s).Some? && AddressType(s) == 3 then NameLenRead else AddressRead
    case NameLenRead => AddressRead
    case AddressRead => Asked
    case Asked => if s.remote == Accepted then Answered else Declined
    case Answered => ReplyRead
    case Declined => Dead(Bound, if Asks(s) then Question(s) else [])
    case ReplyRead => Done
    case Done => Done
    case RequestUnsent => Dead([], [])
    case Dead(_, _) => g
  }

  function Rank(g: Stage): nat {
    match g
    case Starting => 17 case Greeted => 16 case HelloRead => 15 case MethodSent => 14 case NoMethod => 1
    case AuthSent => 13 case VersionRead => 12 case UserLenRead => 11 case UserRead => 10 case PassLenRead => 9
    case AuthGranted => 8 case AuthDenied => 1 case AuthUnsent => 1
    case Requested => 7 case HeaderRead => 6 case NameLenRead => 5 case AddressRead => 4 case Asked => 3
    case Answered => 2 case Declined => 1 case ReplyRead => 1 case Done => 0
    case RequestUnsent => 1 case Dead(_, _) => 0
  }

  predicate AsciiCredentials(s: Setup) {
    Utf8.Ascii(s.user) && Utf8.Ascii(s.pass)
  }

  /** Credentials that are sent are ASCII. */
  predicate PlainLogin(s: Setup) {
    Demands(s) && Offers(s) ==> AsciiCredentials(s)
  }

  /** The party whose turn it is. */
  function Turn(s: Setup, g: Stage): Move {
    match g
    case Starting => ClientActs
    case Greeted => ServerActs
    case HelloRead => ServerActs
    case MethodSent => ClientActs
    case NoMethod => ClientActs
    case AuthSent => ServerActs
    case VersionRead => ServerActs
    case UserLenRead => ServerActs
    case UserRead => ServerActs
    case PassLenRead => ServerActs
    case AuthGranted => ClientActs
    case AuthDenied => ClientActs
    case AuthUnsent => ServerHangsUp
    case Requested => ServerActs
    case HeaderRead => ServerActs
    case NameLenRead => ServerActs
    case AddressRead => ServerActs
    case Asked => ServerActs
    case Answered => ClientActs
    case Declined => ClientActs
    case ReplyRead => ClientActs
    case RequestUnsent => ServerHangsUp
    case Done => ClientActs
    case Dead(_, _) => ClientActs
  }

  predicate Final(g: Stage) {
    g.Done? || g.Dead?
  }

  lemma TargetLength(s: Setup)
    requires Lawful(s.lib) && Target(s).Some?
    ensures AddressType(s) in {1, 3, 4}
    ensures AddressType(s) == 1 ==> |Target(s).value.1| == 4
    ensures AddressType(s) == 3 ==> |Target(s).value.1| == 1 + |Utf8.Encode(s.target)|
    ensures AddressType(s) == 4 ==> |Target(s).value.1| == 16
  {
  }

  /** A full read takes exactly the first part. */
  lemma ReadSplits(a: seq<Byte>, b: seq<Byte>)
    ensures (a + b)[..|a|] == a && (a + b)[|a|..] == b
    ensures [] + a == a && a + [] == a && a[..|a|] == a && a[|a|..] == []
  {
  }

  lemma QuietStages(s: Setup, g: Stage, m: Move)
    requires Possible(s, g) && (g.Starting? || g.Greeted? || g.HelloRead? || g.MethodSent? || g.NoMethod? || Final(g))
    ensures Enabled(At(s, g), m) <==> !Final(g) && m == Turn(s, g)
    ensures Over(At(s, g)) <==> Final(g)
  {
  }

  lemma LoginStages(s: Setup, g: Stage, m: Move)
    requires PlainLogin(s) && Possible(s, g)
    requires g.AuthSent? || g.VersionRead? || g.UserLenRead? || g.UserRead? || g.PassLenRead?
             || g.AuthGranted? || g.AuthDenied? || g.AuthUnsent?
    ensures Enabled(At(s, g), m) <==> m == Turn(s, g)
    ensures !Over(At(s, g))
  {
  }

  lemma RequestedStage(s: Setup, m: Move)
    requires Lawful(s.lib) && Possible(s, Requested)
    ensures Enabled(At(s, Requested), m) <==> m == Turn(s, Requested)
    ensures !Over(At(s, Requested))
  {
  }

  lemma NameLenStage(s: Setup, m: Move)
    requires Lawful(s.lib) && Possible(s, NameLenRead)
    ensures Enabled(At(s, NameLenRead), m) <==> m == Turn(s, NameLenRead)
    ensures !Over(At(s, NameLenRead))
  {
  }

  lemma AddressStage(s: Setup, m: Move)
    requires Lawful(s.lib) && Possible(s, AddressRead)
    ensures Enabled(At(s, AddressRead), m) <==> m == Turn(s, AddressRead)
    ensures !Over(At(s, AddressRead))
  {
  }

  lemma RequestStages(s: Setup, g: Stage, m: Move)
    requires Lawful(s.lib) && Possible(s, g)
    requires g.Requested? || g.NameLenRead? || g.AddressRead?
    ensures Enabled(At(s, g), m) <==> m == Turn(s, g)
    ensures !Over(At(s, g))
  {
    if g.Requested? {
      RequestedStage(s, m);
    } else if g.NameLenRead? {
      NameLenStage(s, m);
    } else {
      AddressStage(s, m);
    }
  }

  lemma HeaderStage(s: Setup, m: Move)
    requires Lawful(s.lib) && Possible(s, HeaderRead)
    ensures Enabled(At(s, HeaderRead), m) <==> m == ServerActs
    ensures !Over(At(s, HeaderRead))
  {
    TargetLength(s);
    if AddressType(s) == 1 {
    } else if AddressType(s) == 3 {
    }
  }

  lemma ReplyStages(s: Setup, g: Stage, m: Move)
    requires Possible(s, g)
    requires g.RequestUnsent? || g.Asked? || g.Answered? || g.Declined? || g.ReplyRead?
    ensures Enabled(At(s, g), m) <==> m == Turn(s, g)
    ensures !Over(At(s, g))
  {
  }

  /** The server acts when its full read is the front of its stream. */
  lemma ServerReads(s: Setup, y: Sys, head: seq<Byte>, rest: seq<Byte>)
    requires !ServerOver(y.server) && |head| == ServerNeed(y.server) && y.toServer == head + rest
    ensures Enabled(y, ServerActs)
    ensures var (v, out, ask) := ServerStep(s, y.server, head);
            Step(s, y, ServerActs) == Sys(y.client, v, rest, y.toClient + out, y.asked + ask)
  {
    ReadSplits(head, rest);
  }

  lemma ClientReads(s: Setup, y: Sys, head: seq<Byte>, rest: seq<Byte>)
    requires y.client != Connected && y.client != Failed
    requires |head| == ClientNeed(y.client) && y.toClient == head + rest
    ensures Enabled(y, ClientActs)
    ensures var (c, out) := ClientStep(s, y.client, head);
            Step(s, y, ClientActs) == Sys(c, y.server, y.toServer + out, rest, y.asked)
  {
    ReadSplits(head, rest);
  }

  /** What happens at the stage leads to the next one. */
  ghost predicate Advances(s: Setup, g: Stage)
    requires Possible(s, g)
  {
    && Possible(s, NextStage(s, g))
    && (Enabled(At(s, g), Turn(s, g)) ==> Step(s, At(s, g), Turn(s, g)) == At(s, NextStage(s, g)))
  }

  lemma GreetingStep(s: Setup, g: Stage)
    requires Possible(s, g) && (g.Starting? || g.Greeted? || g.HelloRead? || g.NoMethod?)
    ensures Advances(s, g)
  {
    var offer: seq<Byte> := [if Offers(s) then 2 else 0];
    match g {
      case Starting => ReadSplits([5, 1] + offer, []);
      case Greeted =>
        assert [5, 1] + offer == At(s, g).toServer;
        ServerReads(s, At(s, g), [5, 1], offer);
      case HelloRead =>
        ReadSplits(offer, []);
        ServerReads(s, At(s, g), offer, []);
      case NoMethod => ReadSplits([5, 255], []);
    }
  }

  lemma MethodStep(s: Setup)
    requires Possible(s, MethodSent)
    ensures Advances(s, MethodSent)
  {
    var answer: seq<Byte> := [5, if Demands(s) then 2 else 0];
    ReadSplits(answer, []);
    ClientReads(s, At(s, MethodSent), answer, []);
    ReadSplits(ClientStep(s, AwaitMethod, answer).1, []);
  }

  lemma VersionStep(s: Setup)
    requires Possible(s, AuthSent) && Possible(s, VersionRead)
    ensures Advances(s, AuthSent) && Advances(s, VersionRead)
  {
    var name, rest := Utf8.Encode(s.user), [|s.pass| as Byte] + Utf8.Encode(s.pass);
    var len: seq<Byte> := [|s.user| as Byte];
    var auth := AuthRequest(s).value;
    assert [1, |s.user| as Byte] == [1] + len;
    Grow2([1] + len, name, rest);
    Grow2([1], len, name + rest);
    ReadSplits([1], len + (name + rest));
    ServerReads(s, At(s, AuthSent), [1], len + (name + rest));
    ServerReads(s, At(s, VersionRead), len, name + rest);
  }

  lemma LoginNameRead(s: Setup, name: seq<Byte>)
    requires name == Utf8.Encode(s.user)
    ensures ServerStep(s, User(|name|), name) == (PassLen(s.user), [], [])
  {
    Utf8.DecodeEncode(s.user);
  }

  lemma UserStep(s: Setup)
    requires Utf8.Ascii(s.user) && Possible(s, UserLenRead)
    ensures Advances(s, UserLenRead) && Advances(s, UserRead)
  {
    var name, word := Utf8.Encode(s.user), Utf8.Encode(s.pass);
    LoginNameRead(s, name);
    ServerReads(s, At(s, UserLenRead), name, [|s.pass| as Byte] + word);
    ServerReads(s, At(s, UserRead), [|s.pass| as Byte], word);
  }

  lemma PassRead(s: Setup, user: string, word: seq<Byte>)
    requires word == Utf8.Encode(s.pass)
    ensures ServerStep(s, Pass(user, |word|), word) ==
            if user == s.wantUser && s.pass == s.wantPass then (Header, [1, 0], []) else (Closed, [1, 1], [])
  {
    Utf8.DecodeEncode(s.pass);
  }

  lemma PassStep(s: Setup)
    requires Utf8.Ascii(s.pass) && Possible(s, PassLenRead)
    ensures Advances(s, PassLenRead)
  {
    var word := Utf8.Encode(s.pass);
    PassRead(s, s.user, word);
    ReadSplits(word, []);
    ServerReads(s, At(s, PassLenRead), word, []);
  }

  lemma GrantedStep(s: Setup)
    requires Possible(s, AuthGranted)
    ensures Advances(s, AuthGranted)
  {
    ReadSplits([1, 0], []);
    ClientReads(s, At(s, AuthGranted), [1, 0], []);
    ReadSplits(Dial(s).1, []);
  }

  lemma LoginFails(s: Setup, g: Stage)
    requires Possible(s, g) && (g.AuthDenied? || g.AuthUnsent?)
    ensures Advances(s, g)
  {
    ReadSplits([1, 1], []);
  }

  lemma RequestStep(s: Setup)
    requires Lawful(s.lib) && Possible(s, Requested)
    ensures Advances(s, Requested)
  {
    TargetLength(s);
    ServerReads(s, At(s, Requested), [5, 1, 0, AddressType(s)], Target(s).value.1 + Be16(s.port).value);
  }

  lemma NameLenStep(s: Setup)
    requires Possible(s, HeaderRead) && AddressType(s) == 3
    ensures Advances(s, HeaderRead)
  {
    var name, port := Utf8.Encode(s.target), Be16(s.port).value;
    Grow2([|name| as Byte], name, port);
    ServerReads(s, At(s, HeaderRead), [|name| as Byte], name + port);
  }

  lemma NameRead(s: Setup, name: seq<Byte>)
    requires name == Utf8.Encode(s.target)
    ensures ServerStep(s, Name(|name|), name) == (Port(s.target), [], [])
  {
    Utf8.DecodeEncode(s.target);
  }

  lemma NameStep(s: Setup)
    requires Possible(s, NameLenRead)
    ensures Advances(s, NameLenRead)
  {
    var name, port := Utf8.Encode(s.target), Be16(s.port).value;
    NameRead(s, name);
    ServerReads(s, At(s, NameLenRead), name, port);
  }

  lemma NumberStep(s: Setup)
    requires Lawful(s.lib) && Possible(s, HeaderRead) && AddressType(s) != 3
    ensures Advances(s, HeaderRead)
  {
    TargetLength(s);
    ServerReads(s, At(s, HeaderRead), Target(s).value.1, Be16(s.port).value);
  }

  lemma PortStep(s: Setup)
    requires Possible(s, AddressRead)
    ensures Advances(s, AddressRead)
  {
    var port := Be16(s.port).value;
    ReadSplits(port, []);
    assert ServerStep(s, At(s, AddressRead).server, port) == (Asking(false), [], Question(s));
    ServerReads(s, At(s, AddressRead), port, []);
    assert [] + Question(s) == Question(s);
  }

  lemma AskedStep(s: Setup)
    requires Possible(s, Asked)
    ensures Advances(s, Asked)
  {
    ServerReads(s, At(s, Asked), [], []);
    ReadSplits(ServerStep(s, Asking(false), []).1, []);
    assert Question(s) + [] == Question(s);
  }

  lemma AnsweredStep(s: Setup)
    requires Possible(s, Answered)
    ensures Advances(s, Answered)
  {
    ClientReads(s, At(s, Answered), [5, 0, 0, 1], Bound);
  }

  lemma BoundStep(s: Setup)
    requires Possible(s, ReplyRead)
    ensures Advances(s, ReplyRead)
  {
    ReadSplits(Bound, []);
    ClientReads(s, At(s, ReplyRead), Bound, []);
  }

  lemma DeclinedStep(s: Setup)
    requires Possible(s, Declined)
    ensures Advances(s, Declined)
  {
    ClientReads(s, At(s, Declined), [5, 4, 0, 1], Bound);
  }

  lemma LoginAdvances(s: Setup, g: Stage)
    requires PlainLogin(s) && Possible(s, g)
    requires g.AuthSent? || g.VersionRead? || g.UserLenRead? || g.UserRead? || g.PassLenRead?
             || g.AuthGranted? || g.AuthDenied? || g.AuthUnsent?
    ensures Advances(s, g)
  {
    if g.AuthSent? || g.VersionRead? { VersionStep(s); }
    else if g.UserLenRead? || g.UserRead? { UserStep(s); }
    else if g.PassLenRead? { PassStep(s); }
    else if g.AuthGranted? { GrantedStep(s); }
    else { LoginFails(s, g); }
  }

  lemma RequestAdvances(s: Setup, g: Stage)
    requires Lawful(s.lib) && Possible(s, g)
    requires g.Requested? || g.HeaderRead? || g.NameLenRead? || g.AddressRead?
    ensures Advances(s, g)
  {
    if g.Requested? { RequestStep(s); }
    else if g.HeaderRead? { if AddressType(s) == 3 { NameLenStep(s); } else { NumberStep(s); } }
    else if g.NameLenRead? { NameStep(s); }
    else { PortStep(s); }
  }

  lemma ReplyAdvances(s: Setup, g: Stage)
    requires Possible(s, g)
    requires g.RequestUnsent? || g.Asked? || g.Answered? || g.Declined? || g.ReplyRead?
    ensures Advances(s, g)
  {
    if g.Asked? { AskedStep(s); }
    else if g.Answered? { AnsweredStep(s); }
    else if g.ReplyRead? { BoundStep(s); }
    else if g.Declined? { DeclinedStep(s); }
  }

  lemma StageAdvances(s: Setup, g: Stage)
    requires Lawful(s.lib) && PlainLogin(s) && Possible(s, g) && !Final(g)
    ensures Advances(s, g)
  {
    if g.MethodSent? {
      MethodStep(s);
    } else if g.Starting? || g.Greeted? || g.HelloRead? || g.NoMethod? {
      GreetingStep(s, g);
    } else if g.Requested? || g.HeaderRead? || g.NameLenRead? || g.AddressRead? {
      RequestAdvances(s, g);
    } else if g.RequestUnsent? || g.Asked? || g.Answered? || g.Declined? || g.ReplyRead? {
      ReplyAdvances(s, g);
    } else {
      LoginAdvances(s, g);
    }
  }

  lemma RankDrops(s: Setup, g: Stage)
    requires !Final(g)
    ensures Rank(NextStage(s, g)) < Rank(g)
  {
  }

  /** At every stage but the last exactly one thing can happen, and it leads to the next stage. */
  lemma StageStep(s: Setup, g: Stage, m: Move)
    requires Lawful(s.lib) && PlainLogin(s) && Possible(s, g) && Enabled(At(s, g), m)
    ensures Possible(s, NextStage(s, g)) && Step(s, At(s, g), m) == At(s, NextStage(s, g))
    ensures Rank(NextStage(s, g)) < Rank(g)
  {
    OneTurn(s, g, m);
    StageAdvances(s, g);
    RankDrops(s, g);
  }

  lemma OneTurn(s: Setup, g: Stage, m: Move)
    requires Lawful(s.lib) && PlainLogin(s) && Possible(s, g)
    ensures Enabled(At(s, g), m) <==> !Final(g) && m == Turn(s, g)
    ensures Over(At(s, g)) <==> Final(g)
  {
    if Final(g) || g.Starting? || g.Greeted? || g.HelloRead? || g.MethodSent? || g.NoMethod? {
      QuietStages(s, g, m);
    } else if g.AuthGranted? || g.AuthDenied? || g.AuthUnsent? || g.AuthSent? || g.VersionRead?
              || g.UserLenRead? || g.UserRead? || g.PassLenRead? {
      LoginStages(s, g, m);
    } else if g.HeaderRead? {
      HeaderStage(s, m);
    } else if g.Requested? || g.NameLenRead? || g.AddressRead? {
      RequestStages(s, g, m);
    } else {
      ReplyStages(s, g, m);
    }
  }

  /** Every run follows the stages. */
  lemma {:induction false} RunFollowsStages(s: Setup, g: Stage, moves: seq<Move>) returns (h: Stage)
    requires Lawful(s.lib) && PlainLogin(s) && Possible(s, g) && Runs(s, At(s, g), moves)
    ensures Possible(s, h) && Run(s, At(s, g), moves) == At(s, h) && Rank(h) + |moves| <= Rank(g)
    decreases |moves|
  {
    if moves == [] {
      h := g;
    } else {
      StageStep(s, g, moves[0]);
      h := RunFollowsStages(s, NextStage(s, g), moves[1..]);
    }
  }

  /** The composed handshake, over every interleaving of the two parties.  It never deadlocks and
      ends within 17 moves; it connects both parties or neither, and connects exactly when the
      server demands no credentials or is offered matching ones, the request can be written and
      the remote connect succeeds; the Connect it emits names the canonical address and the port;
      and once connected no handshake byte is left on either stream. */
  lemma ComposedHandshake(s: Setup, moves: seq<Move>)
    requires Lawful(s.lib) && PlainLogin(s) && Runs(s, Begin, moves)
    ensures var y := Run(s, Begin, moves);
            && |moves| <= 17
            && (Over(y) || exists m :: Enabled(y, m))
            && (y.asked == [] || (Asks(s) && y.asked == Question(s)))
            && (y.client == Connected ==> y.server == Serving && y.toServer == [] && y.toClient == [])
            && (Over(y) ==>
                  && (y.client == Connected <==> Asks(s) && s.remote == Accepted)
                  && (y.server == Serving <==> y.client == Connected)
                  && y.asked == if Asks(s) then Question(s) else [])
  {
    var h := RunFollowsStages(s, Starting, moves);
    OneTurn(s, h, Turn(s, h));
  }

  /** From every stage the handshake can be completed. */
  lemma {:induction false} Complete(s: Setup, g: Stage) returns (moves: seq<Move>)
    requires Lawful(s.lib) && PlainLogin(s) && Possible(s, g)
    ensures Runs(s, At(s, g), moves) && Over(Run(s, At(s, g), moves))
    decreases Rank(g)
  {
    OneTurn(s, g, Turn(s, g));
    if Final(g) {
      moves := [];
    } else {
      StageStep(s, g, Turn(s, g));
      var rest := Complete(s, NextStage(s, g));
      moves := [Turn(s, g)] + rest;
      assert moves[1..] == rest;
    }
  }
}
