/** How the composed handshake ends for every setup, whatever the credentials: all runs lead to one
    end, and the bytes that are sent decide which. */
module HandshakeOutcome {
  import opened Bytes
  import opened Inet
  import opened Handshake
  import H = Handshake
  import Utf8

  // ---------------------------------------------------------------- one end

  function ClientRank(c: Client): nat {
    match c
    case Dialing => 6
    case AwaitMethod => 5
    case AwaitAuth => 4
    case AwaitReply => 3
    case SkipName => 2
    case SkipBound(_) => 1
    case _ => 0
  }

  function ServerRank(v: Server): nat {
    match v
    case Hello => 12
    case Methods(_) => 11
    case AuthVersion => 10
    case UserLen => 9
    case User(_) => 8
    case PassLen(_) => 7
    case Pass(_, _) => 6
    case Header => 5
    case V4 => 4
    case V6 => 4
    case NameLen => 4
    case Name(_) => 3
    case Port(_) => 2
    case Asking(_) => 1
    case _ => 0
  }

  /** How many moves can still be made at most. */
  function Ahead(y: Sys): nat {
    ClientRank(y.client) + ServerRank(y.server)
  }

  lemma ClientDrops(s: Setup, c: Client, r: seq<Byte>)
    requires |r| == ClientNeed(c) && c != Connected && c != Failed
    ensures ClientRank(ClientStep(s, c, r).0) < ClientRank(c)
  {
  }

  lemma ServerDrops(s: Setup, v: Server, r: seq<Byte>)
    requires |r| == ServerNeed(v) && !ServerOver(v)
    ensures ServerRank(ServerStep(s, v, r).0) < ServerRank(v)
  {
  }

  lemma StepDrops(s: Setup, y: Sys, m: Move)
    requires Enabled(y, m)
    ensures Ahead(Step(s, y, m)) < Ahead(y)
  {
    match m {
      case ClientActs => ClientDrops(s, y.client, y.toClient[..ClientNeed(y.client)]);
      case ServerActs => ServerDrops(s, y.server, y.toServer[..ServerNeed(y.server)]);
      case _ =>
    }
  }

  ghost predicate Halted(y: Sys) {
    forall m :: !Enabled(y, m)
  }

  /** A fixed order of play: the server first. */
  function Pick(y: Sys): (m: Option<Move>)
    ensures m.Some? ==> Enabled(y, m.value)
  {
    if Enabled(y, ServerActs) then Some(ServerActs)
    else if Enabled(y, ClientActs) then Some(ClientActs)
    else if Enabled(y, ClientHangsUp) then Some(ClientHangsUp)
    else if Enabled(y, ServerHangsUp) then Some(ServerHangsUp)
    else None
  }

  /** Where the play in that order ends. */
  function End(s: Setup, y: Sys): Sys
    decreases Ahead(y)
  {
    match Pick(y)
    case None => y
    case Some(m) => StepDrops(s, y, m); End(s, Step(s, y, m))
  }

  lemma {:induction false} EndHalts(s: Setup, y: Sys)
    ensures Halted(End(s, y))
    ensures y.client == Failed ==> Over(End(s, y)) && End(s, y).client == Failed
    ensures y.client == Connected ==> End(s, y).client == Connected
    ensures y.asked <= End(s, y).asked
    decreases Ahead(y)
  {
    if Pick(y).Some? {
      StepDrops(s, y, Pick(y).value);
      EndHalts(s, Step(s, y, Pick(y).value));
    }
  }

  lemma HeadAndTail(a: seq<Byte>, b: seq<Byte>, n: nat)
    requires n <= |a|
    ensures (a + b)[..n] == a[..n] && (a + b)[n..] == a[n..] + b
  {
  }

  /** When both parties can act the order does not matter. */
  lemma Commute(s: Setup, y: Sys)
    requires Enabled(y, ServerActs) && Enabled(y, ClientActs)
    ensures var a, b := Step(s, y, ServerActs), Step(s, y, ClientActs);
            Enabled(a, ClientActs) && Enabled(b, ServerActs) && Step(s, a, ClientActs) == Step(s, b, ServerActs)
  {
    var n, k := ServerNeed(y.server), ClientNeed(y.client);
    HeadAndTail(y.toServer, ClientStep(s, y.client, y.toClient[..k]).1, n);
    HeadAndTail(y.toClient, ServerStep(s, y.server, y.toServer[..n]).1, k);
  }

  /** No move changes where the play ends. */
  lemma {:induction false} EndSame(s: Setup, y: Sys, m: Move)
    requires Enabled(y, m)
    ensures End(s, Step(s, y, m)) == End(s, y)
    decreases Ahead(y)
  {
    StepDrops(s, y, m);
    if m == ClientActs && Enabled(y, ServerActs) {
      Commute(s, y);
      StepDrops(s, y, ServerActs);
      EndSame(s, Step(s, y, ServerActs), ClientActs);
      EndSame(s, Step(s, y, ClientActs), ServerActs);
    }
  }

  /** Every run leads there. */
  lemma {:induction false} RunEnds(s: Setup, y: Sys, moves: seq<Move>)
    requires Runs(s, y, moves)
    ensures End(s, Run(s, y, moves)) == End(s, y)
    ensures |moves| + Ahead(Run(s, y, moves)) <= Ahead(y)
    decreases |moves|
  {
    if moves != [] {
      StepDrops(s, y, moves[0]);
      EndSame(s, y, moves[0]);
      RunEnds(s, Step(s, y, moves[0]), moves[1..]);
    }
  }

  /** ... and some run gets there. */
  lemma {:induction false} EndReached(s: Setup, y: Sys) returns (moves: seq<Move>)
    ensures Runs(s, y, moves) && Run(s, y, moves) == End(s, y)
    decreases Ahead(y)
  {
    if Pick(y).None? {
      moves := [];
    } else {
      StepDrops(s, y, Pick(y).value);
      var rest := EndReached(s, Step(s, y, Pick(y).value));
      moves := [Pick(y).value] + rest;
      assert moves[1..] == rest;
    }
  }

  lemma HaltedIsEnd(s: Setup, y: Sys)
    requires Halted(y)
    ensures End(s, y) == y
  {
  }

  // ---------------------------------------------------------------- what the bytes decide

  /** A login is sent. */
  predicate Sends(s: Setup) {
    Demands(s) && Offers(s) && AuthRequest(s).Some?
  }

  /** Its bytes behind the version and the first length, which counts characters. */
  function Texts(s: Setup): seq<Byte>
    requires Sends(s)
  {
    Utf8.Encode(s.user) + ([|s.pass| as Byte] + Utf8.Encode(s.pass))
  }

  /** What the server takes for the name, for the length of the password, and what is left then. */
  function NameSeen(s: Setup): Result<string>
    requires Sends(s)
  {
    Utf8.Decode(Texts(s)[..|s.user|])
  }

  function LengthSeen(s: Setup): nat
    requires Sends(s)
  {
    Texts(s)[|s.user|] as nat
  }

  function Left(s: Setup): seq<Byte>
    requires Sends(s)
  {
    Texts(s)[|s.user| + 1..]
  }

  /** The server waits for more of the password than was sent. */
  predicate Starved(s: Setup)
    requires Sends(s)
  {
    NameSeen(s).Success? && |Left(s)| < LengthSeen(s)
  }

  /** The server believes the login, rightly or not. */
  predicate Believed(s: Setup)
    requires Sends(s)
  {
    && NameSeen(s) == Success(s.wantUser) && LengthSeen(s) <= |Left(s)|
    && Utf8.Decode(Left(s)[..LengthSeen(s)]) == Success(s.wantPass)
  }

  /** The bytes of a believed login that the server takes for the beginning of the request. */
  function Residue(s: Setup): seq<Byte>
    requires Demands(s) ==> Sends(s) && Believed(s)
  {
    if Demands(s) then Left(s)[LengthSeen(s)..] else []
  }

  /** A request as the server reads it off its stream. */
  datatype Reading = Understood(ask: Ask, unread: seq<Byte>) | Rejected | Short

  function ReadRequest(s: Setup, b: seq<Byte>): Reading {
    if |b| < 4 then Short
    else if b[1] == 3 then Understood(Udp, b[4..])
    else if b[1] != 1 then Rejected
    else if b[3] == 1 then
      if |b| < 10 then Short else Understood(Tcp(s.lib.ntoa(b[4..8]), U16(b[8..10]).value), b[10..])
    else if b[3] == 4 then
      if |b| < 22 then Short else Understood(Tcp(s.lib.ntop6(b[4..20]), U16(b[20..22]).value), b[22..])
    else if b[3] != 3 then Rejected
    else if |b| < 5 || |b| < 5 + b[4] as nat then Short
    else
      var n := b[4] as nat;
      match Utf8.Decode(b[5..5 + n])
      case Failure(_) => Rejected
      case Success(name) => if |b| < 7 + n then Short else Understood(Tcp(name, U16(b[5 + n..7 + n]).value), b[7 + n..])
  }

  /** How the handshake ends: both connected, after this Connect and with these bytes unread; the
      client failed and the server done; or both waiting for each other. */
  datatype Outcome = Connects(ask: Ask, unread: seq<Byte>) | Fails | Hangs

  function Ending(s: Setup, r: Reading): Outcome {
    match r
    case Short => Hangs
    case Rejected => Fails
    case Understood(ask, unread) => if s.remote == Accepted then Connects(ask, unread) else Fails
  }

  function AfterLogin(s: Setup, residue: seq<Byte>): Outcome {
    if Request(s).None? then Fails else Ending(s, ReadRequest(s, residue + Request(s).value))
  }

  function OutcomeOf(s: Setup): Outcome {
    if !Demands(s) then AfterLogin(s, [])
    else if !Sends(s) then Fails
    else if Starved(s) then Hangs
    else if Believed(s) then AfterLogin(s, Residue(s))
    else Fails
  }

  /** The end shows the outcome. */
  predicate Shows(y: Sys, o: Outcome) {
    match o
    case Connects(ask, unread) =>
      && y.client == Connected && y.server == (if ask.Udp? then Associated else Serving)
      && y.asked == [ask] && y.toServer == unread && y.toClient == []
    case Fails => Over(y) && y.client == Failed
    case Hangs => !Over(y) && y.client !in {Connected, Failed}
  }

  // ---------------------------------------------------------------- following one play

  lemma EndServer(s: Setup, y: Sys, head: seq<Byte>, rest: seq<Byte>)
    requires !ServerOver(y.server) && |head| == ServerNeed(y.server) && y.toServer == head + rest
    ensures var (v, out, ask) := ServerStep(s, y.server, head);
            End(s, y) == End(s, Sys(y.client, v, rest, y.toClient + out, y.asked + ask))
  {
    ServerReads(s, y, head, rest);
    EndSame(s, y, ServerActs);
  }

  lemma EndClient(s: Setup, y: Sys, head: seq<Byte>, rest: seq<Byte>)
    requires y.client != Connected && y.client != Failed
    requires |head| == ClientNeed(y.client) && y.toClient == head + rest
    ensures var (c, out) := ClientStep(s, y.client, head);
            End(s, y) == End(s, Sys(c, y.server, y.toServer + out, rest, y.asked))
  {
    ClientReads(s, y, head, rest);
    EndSame(s, y, ClientActs);
  }

  /** A client that has failed, or waits for a server that has gone, ends in failure. */
  lemma FailedEnds(s: Setup, y: Sys)
    requires y.client == Failed
             || (y.client !in {Connected, Failed} && y.server == Closed && |y.toClient| < ClientNeed(y.client))
    ensures Shows(End(s, y), Fails)
  {
    EndHalts(s, y);
    if y.client != Failed {
      EndSame(s, y, ClientHangsUp);
      EndHalts(s, Step(s, y, ClientHangsUp));
    }
  }

  /** The last answer of the server decides for a client that has sent its request. */
  lemma AnswerEnds(s: Setup, v: Server, unread: seq<Byte>, answer: seq<Byte>, bound: seq<Byte>, asked: seq<Ask>)
    requires answer in {[5, 0, 0, 1], [5, 4, 0, 1], [5, 1, 0, 1]} && |bound| == 6
    requires if answer == [5, 0, 0, 1] then v in {Serving, Associated} else v == Closed
    ensures var y := Sys(AwaitReply, v, unread, answer + bound, asked);
            if answer == [5, 0, 0, 1] then End(s, y) == Sys(Connected, v, unread, [], asked)
            else Shows(End(s, y), Fails)
  {
    var y := Sys(AwaitReply, v, unread, answer + bound, asked);
    EndClient(s, y, answer, bound);
    assert unread + [] == unread && bound + [] == bound;
    if answer == [5, 0, 0, 1] {
      EndClient(s, Sys(SkipBound(6), v, unread, bound, asked), bound, []);
    } else {
      FailedEnds(s, Sys(Failed, v, unread, bound, asked));
    }
  }

  /** A client waiting for its answer and a server waiting for more wait for ever. */
  lemma WaitsForever(s: Setup, c: Client, v: Server, b: seq<Byte>)
    requires c in {AwaitAuth, AwaitReply} && !ServerOver(v) && |b| < ServerNeed(v)
    ensures Shows(End(s, Sys(c, v, b, [], [])), Hangs)
  {
    HaltedIsEnd(s, Sys(c, v, b, [], []));
  }

  lemma AskEnds(s: Setup, ask: Ask, unread: seq<Byte>)
    ensures Shows(End(s, Sys(AwaitReply, Asking(ask.Udp?), unread, [], [ask])),
                  if s.remote == Accepted then Connects(ask, unread) else Fails)
  {
    var y := Sys(AwaitReply, Asking(ask.Udp?), unread, [], [ask]);
    assert [] + unread == unread && [ask] + [] == [ask];
    EndServer(s, y, [], unread);
    var answer: seq<Byte> := if s.remote == Accepted then [5, 0, 0, 1] else [5, 4, 0, 1];
    var bound := if s.remote == Accepted && ask.Udp? then s.relay else Bound;
    assert ServerStep(s, y.server, []).1 == answer + bound;
    assert [] + (answer + bound) == answer + bound;
    AnswerEnds(s, ServerStep(s, y.server, []).0, unread, answer, bound, [ask]);
    HaltedIsEnd(s, End(s, y));
  }

  lemma PortEnds(s: Setup, addr: string, b: seq<Byte>)
    ensures Shows(End(s, Sys(AwaitReply, Port(addr), b, [], [])),
                  if |b| < 2 then Hangs
                  else if s.remote == Accepted then Connects(Tcp(addr, U16(b[..2]).value), b[2..]) else Fails)
  {
    if |b| < 2 {
      WaitsForever(s, AwaitReply, Port(addr), b);
    } else {
      var ask := Tcp(addr, U16(b[..2]).value);
      assert b == b[..2] + b[2..] && [] + [ask] == [ask];
      EndServer(s, Sys(AwaitReply, Port(addr), b, [], []), b[..2], b[2..]);
      AskEnds(s, ask, b[2..]);
    }
  }

  /** The rest of a request behind its header. */
  function ReadTarget(s: Setup, v: Server, b: seq<Byte>): Reading
    requires v in {V4, V6} || v.Name?
  {
    var n := ServerNeed(v);
    if |b| < n then Short
    else
      var addr := if v == V4 then Success(s.lib.ntoa(b[..n]))
                  else if v == V6 then Success(s.lib.ntop6(b[..n]))
                  else Utf8.Decode(b[..n]);
      if addr.Failure? then Rejected
      else if |b| < n + 2 then Short
      else Understood(Tcp(addr.value, U16(b[n..][..2]).value), b[n..][2..])
  }

  lemma TargetEnds(s: Setup, v: Server, b: seq<Byte>)
    requires v in {V4, V6} || v.Name?
    ensures Shows(End(s, Sys(AwaitReply, v, b, [], [])), Ending(s, ReadTarget(s, v, b)))
  {
    var n := ServerNeed(v);
    if |b| < n {
      WaitsForever(s, AwaitReply, v, b);
    } else {
      assert b == b[..n] + b[n..];
      EndServer(s, Sys(AwaitReply, v, b, [], []), b[..n], b[n..]);
      if ReadTarget(s, v, b).Rejected? {
        assert [] + H.Failure == H.Failure;
        AnswerEnds(s, Closed, b[n..], [5, 1, 0, 1], Bound, []);
      } else {
        PortEnds(s, ServerStep(s, v, b[..n]).0.addr, b[n..]);
      }
    }
  }

  lemma NameLenEnds(s: Setup, b: seq<Byte>)
    ensures Shows(End(s, Sys(AwaitReply, NameLen, b, [], [])),
                  if |b| < 1 then Hangs else Ending(s, ReadTarget(s, Name(b[0] as nat), b[1..])))
  {
    if |b| < 1 {
      WaitsForever(s, AwaitReply, NameLen, b);
    } else {
      assert b == b[..1] + b[1..];
      EndServer(s, Sys(AwaitReply, NameLen, b, [], []), b[..1], b[1..]);
      TargetEnds(s, Name(b[0] as nat), b[1..]);
    }
  }

  lemma HeaderEnds(s: Setup, b: seq<Byte>)
    requires |b| >= 4
    ensures var y := Sys(AwaitReply, Header, b, [], []);
            if b[1] == 1 && b[3] in {1, 3, 4} then
              var v := if b[3] == 1 then V4 else if b[3] == 3 then NameLen else V6;
              End(s, y) == End(s, Sys(AwaitReply, v, b[4..], [], []))
            else Shows(End(s, y), if b[1] == 3 then Ending(s, Understood(Udp, b[4..])) else Fails)
  {
    assert b == b[..4] + b[4..];
    EndServer(s, Sys(AwaitReply, Header, b, [], []), b[..4], b[4..]);
    if b[1] == 3 {
      assert [] + [Udp] == [Udp];
      AskEnds(s, Udp, b[4..]);
    } else if b[1] != 1 || b[3] !in {1, 3, 4} {
      FailedEnds(s, Sys(AwaitReply, Closed, b[4..], [], []));
    }
  }

  /** Reading in one go is reading step by step. */
  lemma ReadInSteps(s: Setup, b: seq<Byte>)
    requires |b| >= 4 && b[1] == 1 && b[3] in {1, 3, 4}
    ensures ReadRequest(s, b) ==
            if b[3] == 1 then ReadTarget(s, V4, b[4..])
            else if b[3] == 4 then ReadTarget(s, V6, b[4..])
            else if |b| < 5 then Short else ReadTarget(s, Name(b[4] as nat), b[4..][1..])
  {
    if b[3] == 1 {
      if |b| >= 10 { assert b[4..][..4] == b[4..8] && b[4..][4..][..2] == b[8..10] && b[4..][4..][2..] == b[10..]; }
    } else if b[3] == 4 {
      if |b| >= 22 {
        assert b[4..][..16] == b[4..20] && b[4..][16..][..2] == b[20..22] && b[4..][16..][2..] == b[22..];
      }
    } else if |b| >= 5 {
      NameSlices(b, b[4] as nat);
    }
  }

  lemma NameSlices(b: seq<Byte>, n: nat)
    requires |b| >= 5
    ensures |b| >= 5 + n ==> b[4..][1..][..n] == b[5..5 + n]
    ensures |b| >= 7 + n ==> b[4..][1..][n..][..2] == b[5 + n..7 + n] && b[4..][1..][n..][2..] == b[7 + n..]
  {
    assert b[4..][1..] == b[5..];
    if |b| >= 7 + n { assert b[5..][n..] == b[5 + n..]; }
  }

  /** A request read off any stream decides. */
  lemma RequestEnds(s: Setup, b: seq<Byte>)
    ensures Shows(End(s, Sys(AwaitReply, Header, b, [], [])), Ending(s, ReadRequest(s, b)))
  {
    if |b| < 4 {
      WaitsForever(s, AwaitReply, Header, b);
    } else {
      HeaderEnds(s, b);
      if b[1] == 1 && b[3] in {1, 3, 4} {
        ReadInSteps(s, b);
        if b[3] == 1 { TargetEnds(s, V4, b[4..]); }
        else if b[3] == 4 { TargetEnds(s, V6, b[4..]); }
        else { NameLenEnds(s, b[4..]); }
      }
    }
  }

  // ---------------------------------------------------------------- the login

  /** The server closes a login with two bytes or more that are not the grant. */
  lemma RefusalEnds(s: Setup, unread: seq<Byte>, answer: seq<Byte>, more: seq<Byte>)
    requires |answer| == 2 && answer != [1, 0]
    ensures Shows(End(s, Sys(AwaitAuth, Closed, unread, answer + more, [])), Fails)
  {
    EndClient(s, Sys(AwaitAuth, Closed, unread, answer + more, []), answer, more);
    assert unread + [] == unread;
    FailedEnds(s, Sys(Client.Failed, Closed, unread, more, []));
  }

  lemma GrantEnds(s: Setup, residue: seq<Byte>)
    ensures Shows(End(s, Sys(AwaitAuth, Header, residue, [1, 0], [])), AfterLogin(s, residue))
  {
    assert [1, 0] + [] == [1, 0];
    EndClient(s, Sys(AwaitAuth, Header, residue, [1, 0], []), [1, 0], []);
    if Request(s).Some? {
      RequestEnds(s, residue + Request(s).value);
    } else {
      assert residue + [] == residue;
      FailedEnds(s, Sys(Client.Failed, Header, residue, [], []));
    }
  }

  /** A text that is not UTF-8 ends the login with an answer to a request. */
  lemma BadLoginEnds(s: Setup, unread: seq<Byte>)
    ensures Shows(End(s, Sys(AwaitAuth, Closed, unread, [] + H.Failure, [])), Fails)
  {
    assert [] + H.Failure == [5, 1] + H.Failure[2..];
    RefusalEnds(s, unread, [5, 1], H.Failure[2..]);
  }

  /** What a server that has read a name and waits for n bytes of password makes of what was sent. */
  function PassOutcome(s: Setup, user: string, n: nat, b: seq<Byte>): Outcome {
    if |b| < n then Hangs
    else if user == s.wantUser && Utf8.Decode(b[..n]) == Success(s.wantPass) then AfterLogin(s, b[n..])
    else Fails
  }

  lemma PassEnds(s: Setup, user: string, n: nat, b: seq<Byte>)
    ensures Shows(End(s, Sys(AwaitAuth, Pass(user, n), b, [], [])), PassOutcome(s, user, n, b))
  {
    if |b| < n {
      WaitsForever(s, AwaitAuth, Pass(user, n), b);
    } else {
      assert b == b[..n] + b[n..];
      EndServer(s, Sys(AwaitAuth, Pass(user, n), b, [], []), b[..n], b[n..]);
      if Utf8.Decode(b[..n]).Failure? {
        BadLoginEnds(s, b[n..]);
      } else if user != s.wantUser || Utf8.Decode(b[..n]).value != s.wantPass {
        assert [] + [1, 1] == [1, 1] + [];
        RefusalEnds(s, b[n..], [1, 1], []);
      } else {
        assert [] + [1, 0] == [1, 0];
        GrantEnds(s, b[n..]);
      }
    }
  }

  /** What a server that waits for a name of n bytes makes of what was sent. */
  function LoginRead(s: Setup, n: nat, b: seq<Byte>): Outcome
    requires n < |b|
  {
    if Utf8.Decode(b[..n]).Failure? then Fails
    else PassOutcome(s, Utf8.Decode(b[..n]).value, b[n] as nat, b[n + 1..])
  }

  lemma UserEnds(s: Setup, n: nat, b: seq<Byte>)
    requires n < |b|
    ensures Shows(End(s, Sys(AwaitAuth, User(n), b, [], [])), LoginRead(s, n, b))
  {
    assert b == b[..n] + b[n..];
    EndServer(s, Sys(AwaitAuth, User(n), b, [], []), b[..n], b[n..]);
    if Utf8.Decode(b[..n]).Failure? {
      BadLoginEnds(s, b[n..]);
    } else {
      var user := Utf8.Decode(b[..n]).value;
      assert b[n..] == [b[n]] + b[n + 1..];
      EndServer(s, Sys(AwaitAuth, PassLen(user), b[n..], [], []), [b[n]], b[n + 1..]);
      PassEnds(s, user, b[n] as nat, b[n + 1..]);
    }
  }

  lemma LoginReadExactly(s: Setup)
    requires Sends(s)
    ensures LoginRead(s, |s.user|, Texts(s)) == OutcomeOf(s)
  {
  }

  lemma LoginEnds(s: Setup)
    requires Sends(s)
    ensures Shows(End(s, Sys(AwaitAuth, AuthVersion, AuthRequest(s).value, [], [])), OutcomeOf(s))
  {
    var n: Byte := |s.user| as Byte;
    Grow2([1, n], Utf8.Encode(s.user), [|s.pass| as Byte] + Utf8.Encode(s.pass));
    assert AuthRequest(s).value == [1] + ([n] + Texts(s));
    EndServer(s, Sys(AwaitAuth, AuthVersion, AuthRequest(s).value, [], []), [1], [n] + Texts(s));
    EndServer(s, Sys(AwaitAuth, UserLen, [n] + Texts(s), [], []), [n], Texts(s));
    UserEnds(s, |s.user|, Texts(s));
    LoginReadExactly(s);
  }

  // ---------------------------------------------------------------- the greeting

  lemma StageEnds(s: Setup, g: Stage)
    requires Possible(s, g) && (g.Starting? || g.Greeted? || g.HelloRead? || g.MethodSent? || g.NoMethod?)
    ensures Possible(s, NextStage(s, g)) && End(s, H.At(s, g)) == End(s, H.At(s, NextStage(s, g)))
  {
    QuietStages(s, g, Turn(s, g));
    if g.MethodSent? { MethodStep(s); } else { GreetingStep(s, g); }
    EndSame(s, H.At(s, g), Turn(s, g));
  }

  /** Every setup ends as its bytes decide. */
  lemma EndExactly(s: Setup)
    ensures Shows(End(s, Begin), OutcomeOf(s))
  {
    StageEnds(s, Starting);
    StageEnds(s, Greeted);
    StageEnds(s, HelloRead);
    if Demands(s) && !Offers(s) {
      StageEnds(s, NoMethod);
      FailedEnds(s, H.At(s, Dead([], [])));
    } else {
      StageEnds(s, MethodSent);
      if Sends(s) {
        LoginEnds(s);
      } else if Demands(s) {
        FailedEnds(s, H.At(s, AuthUnsent));
      } else if Request(s).None? {
        FailedEnds(s, H.At(s, RequestUnsent));
      } else {
        RequestEnds(s, Request(s).value);
        assert [] + Request(s).value == Request(s).value;
      }
    }
  }

  // ---------------------------------------------------------------- main theorems

  /** Every handshake, over every interleaving, is over after at most 18 moves, and all of them end
      the way the bytes decide. */
  lemma HandshakeExactly(s: Setup, moves: seq<Move>)
    requires Runs(s, Begin, moves)
    ensures |moves| <= 18
    ensures Halted(Run(s, Begin, moves)) ==> Shows(Run(s, Begin, moves), OutcomeOf(s))
    ensures exists rest ::
              Runs(s, Run(s, Begin, moves), rest) && Shows(Run(s, Run(s, Begin, moves), rest), OutcomeOf(s))
  {
    var y := Run(s, Begin, moves);
    RunEnds(s, Begin, moves);
    EndExactly(s);
    if Halted(y) { HaltedIsEnd(s, y); }
    var rest := EndReached(s, y);
  }

  ghost predicate CanConnect(s: Setup) {
    exists moves :: Runs(s, Begin, moves) && Run(s, Begin, moves).client == Connected
  }

  /** Some run leaves a party waiting for bytes that never come. */
  ghost predicate CanHang(s: Setup) {
    exists moves :: Runs(s, Begin, moves) && Halted(Run(s, Begin, moves)) && !Over(Run(s, Begin, moves))
  }

  /** When the client can be connected, and when the two can hang, for every setup. */
  lemma ConnectsAndHangsExactly(s: Setup)
    ensures CanConnect(s) <==> OutcomeOf(s).Connects?
    ensures CanHang(s) <==> OutcomeOf(s).Hangs?
  {
    EndExactly(s);
    EndHalts(s, Begin);
    var moves := EndReached(s, Begin);
    forall m | Runs(s, Begin, m) && Run(s, Begin, m).client == Connected ensures OutcomeOf(s).Connects? {
      RunEnds(s, Begin, m);
      EndHalts(s, Run(s, Begin, m));
    }
    forall m | Runs(s, Begin, m) && Halted(Run(s, Begin, m)) && !Over(Run(s, Begin, m)) ensures OutcomeOf(s).Hangs? {
      HandshakeExactly(s, m);
    }
  }

  // ---------------------------------------------------------------- ASCII credentials, and others

  /** When the credentials sent are ASCII the outcome is the one promised: connected, after the Connect
      asked for and with nothing unread, exactly when they match, the request can be written and the
      remote accepts; otherwise failed, and never hanging. */
  lemma PlainOutcome(s: Setup)
    requires Lawful(s.lib) && PlainLogin(s)
    ensures OutcomeOf(s) == if Asks(s) && s.remote == Accepted then Connects(Question(s)[0], []) else Fails
  {
    var moves := EndReached(s, Begin);
    EndHalts(s, Begin);
    EndExactly(s);
    ComposedHandshake(s, moves);
  }

  /** After a login that leaves no residue the request is read as it was written. */
  lemma AlignedRequest(s: Setup)
    requires Lawful(s.lib) && Request(s).Some?
    ensures AfterLogin(s, []) ==
            if s.remote == Accepted then Connects(Tcp(Canonical(s.lib, s.target), s.port), []) else Fails
  {
    PlainOutcome(s.(wantUser := ""));
  }

  /** A login is believed as it was meant only if it is ASCII. */
  lemma BelievedMatch(s: Setup)
    requires Sends(s) && Matches(s) && Believed(s)
    ensures AsciiCredentials(s)
  {
    var word := Utf8.Encode(s.pass);
    Utf8.CharCountedPrefix(s.user, [|s.pass| as Byte] + word);
    ReadSplits(Utf8.Encode(s.user), [|s.pass| as Byte] + word);
    assert Texts(s)[|s.user|..] == [|s.pass| as Byte] + word;
    assert Left(s) == word && LengthSeen(s) == |s.pass|;
    Utf8.CharCountedPrefix(s.pass, []);
    assert word + [] == word;
  }

  /** With the same credentials configured on both sides, a working target and a remote that
      accepts, the handshake can connect exactly when both texts are ASCII and at most 255 long. */
  lemma MatchingCredentialsExactly(s: Setup)
    requires Lawful(s.lib) && Offers(s) && Demands(s) && Matches(s)
    requires Request(s).Some? && s.remote == Accepted
    ensures CanConnect(s) <==> AsciiCredentials(s) && |s.user| < 256 && |s.pass| < 256
  {
    ConnectsAndHangsExactly(s);
    if AsciiCredentials(s) {
      PlainOutcome(s);
    } else if Sends(s) && Believed(s) {
      BelievedMatch(s);
    }
  }

  const OddUser := "\U{00E9}ab"
  const OddShown := "\U{00E9}a"

  lemma OddTexts()
    ensures Utf8.Encode(OddUser) == [0xC3, 0xA9, 0x61, 0x62]
    ensures Utf8.Decode([0xC3, 0xA9, 0x61]) == Success(OddShown)
  {
    var eacute: char := '\U{00E9}';
    assert Utf8.EncodeChar(eacute) == [0xC3, 0xA9];
    assert OddUser[0] == eacute && OddUser[1..] == "ab" && "ab"[1..] == "b" && "b"[1..] == "";
    assert Utf8.Encode("b") == [0x62] + Utf8.Encode("");
    assert Utf8.Encode("ab") == [0x61] + Utf8.Encode("b");
    assert OddShown[0] == eacute && OddShown[1..] == "a" && "a"[1..] == "";
    assert Utf8.Encode("a") == [0x61] + Utf8.Encode("");
    assert Utf8.Encode(OddShown) == [0xC3, 0xA9] + Utf8.Encode("a");
    assert Utf8.Encode(OddShown) == [0xC3, 0xA9, 0x61];
    Utf8.DecodeEncode(OddShown);
  }

  /** The name of three characters and four bytes: the server reads three of them, and takes the
      fourth for the length of the password. */
  lemma OddNameSeen(s: Setup)
    requires s.user == OddUser && |s.pass| < 256 && Demands(s) && Offers(s)
    ensures Sends(s) && NameSeen(s) == Success(OddShown) && LengthSeen(s) == 0x62
    ensures Left(s) == [|s.pass| as Byte] + Utf8.Encode(s.pass)
  {
    OddTexts();
    var rest := [|s.pass| as Byte] + Utf8.Encode(s.pass);
    assert Texts(s) == [0xC3, 0xA9, 0x61, 0x62] + rest;
    assert Texts(s)[..3] == [0xC3, 0xA9, 0x61] && Texts(s)[4..] == rest;
  }

  /** Equal credentials that leave both parties waiting: the password has one byte, the server waits
      for 98. */
  lemma OddCredentialsHang(s: Setup)
    requires s.user == OddUser && s.pass == "x" && Demands(s)
    ensures OutcomeOf(s) == Hangs && CanHang(s)
  {
    OddNameSeen(s);
    assert "x"[1..] == "" && Utf8.Encode("x") == [0x78] + Utf8.Encode("");
    assert Utf8.Encode(s.pass) == [0x78];
    ConnectsAndHangsExactly(s);
  }

  /** Different credentials that connect: the server reads the length byte of the password as its
      first letter. */
  lemma OddCredentialsBelieved(s: Setup)
    requires Lawful(s.lib) && Request(s).Some? && s.remote == Accepted
    requires s.user == OddUser && |s.pass| == 97 && Utf8.Ascii(s.pass)
    requires s.wantUser == OddShown && s.wantPass == "a" + s.pass
    ensures !Matches(s) && CanConnect(s)
  {
    OddNameSeen(s);
    var word := Utf8.Encode(s.wantPass);
    assert s.wantPass[1..] == s.pass && Utf8.EncodeChar('a') == [97];
    assert word == [97] + Utf8.Encode(s.pass);
    Utf8.DecodeEncode(s.wantPass);
    assert Left(s)[..98] == word && Left(s)[98..] == [];
    AlignedRequest(s);
    ConnectsAndHangsExactly(s);
  }
}
