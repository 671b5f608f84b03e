/** Connector mode as a whole: connectors and reverse clients with their channel protocol at the ends,
    the server's dispatchers over registry and cache between them, and a FIFO link to and from every
    connection. */
module ConnectorMode {
  import opened Bytes
  import opened Stream
  import T = TwoHops
  import W = Routing
  import C = ConnectorCache

  type Conn = C.Conn

  datatype Link = FromConnector(c: Conn) | ToClient(r: Conn) | FromClient(r: Conn) | ToConnector(c: Conn)

  /** A channel: its two ends, the connector that opened it, and the reverse client its Connect was passed
      on to.  `lostUp` and `lostDown` are histories: the payload the server has dropped. */
  datatype Chan = Chan(pair: Pair, home: Conn, at: Option<Conn>, lostUp: seq<Byte>, lostDown: seq<Byte>)

  datatype Whole = Whole(w: W.World, chans: map<Channel, Chan>, links: map<Link, seq<Msg>>)

  function Start(pool: set<int>): Whole {
    Whole(W.Begin(pool), map[], map[])
  }

  datatype Event =
    | Opens(ch: Channel, c: Conn)             // a SOCKS request at a connector
    | Acts(side: Side, ch: Channel, act: Act) // a task at either end
    | Hears(link: Link)                       // a dispatcher of the server takes a message
    | Reaches(link: Link)                     // the dispatcher of a connector or a reverse client does
    | Does(step: W.Step)                      // anything else the server does

  // ---------------------------------------------------------------- links

  function On(links: map<Link, seq<Msg>>, l: Link): seq<Msg> {
    if l in links then links[l] else []
  }

  function Pushed(links: map<Link, seq<Msg>>, l: Link, more: seq<Msg>): map<Link, seq<Msg>> {
    links[l := On(links, l) + more]
  }

  function Popped(links: map<Link, seq<Msg>>, l: Link): map<Link, seq<Msg>>
    requires On(links, l) != []
  {
    links[l := On(links, l)[1..]]
  }

  // ---------------------------------------------------------------- events

  function KindOf(m: Msg): W.Kind {
    match m
    case Connect(_) => W.Connect
    case Data(_, _) => W.Data
    case Disconnect(_) => W.Disconnect
    case Response(_, _) => W.Response
  }

  /** The link an end sends on. */
  function OutOf(x: Chan, side: Side): Link
    requires side == Net ==> x.at.Some?
  {
    if side == Socks then FromConnector(x.home) else FromClient(x.at.value)
  }

  function StepOf(l: Link, m: Msg): W.Step
    requires l.FromConnector? || l.FromClient?
  {
    if l.FromConnector? then W.FromConnector(KindOf(m), m.ch, l.c) else W.FromClient(KindOf(m), m.ch, l.r)
  }

  predicate HasNext(s: Whole, l: Link) {
    On(s.links, l) != [] && On(s.links, l)[0].ch in s.chans
  }

  /** Channel ids are fresh.  A network side exists from the moment its Connect is passed on. */
  predicate Enabled(s: Whole, e: Event) {
    match e
    case Opens(ch, c) => ch !in s.chans && ch !in s.w.local
    case Acts(side, ch, a) =>
      ch in s.chans && (side == Net ==> s.chans[ch].at.Some?) && CanAct(side, s.chans[ch].pair.On(side), a)
    case Hears(l) => ((l.FromConnector? && l.c in s.w.serving) || l.FromClient?) && HasNext(s, l)
    case Reaches(l) => (l.ToClient? || l.ToConnector?) && HasNext(s, l)
    case Does(step) => !step.FromConnector? && !step.FromClient? && (step.Open? ==> step.ch !in s.chans)
  }

  /** Dropped payload is noted. */
  function Dropping(x: Chan, l: Link, m: Msg): Chan {
    if !m.Data? then x
    else if l.FromConnector? then x.(lostUp := x.lostUp + m.bytes)
    else x.(lostDown := x.lostDown + m.bytes)
  }

  /** The server handles the next message of a link as its dispatchers say: what they log as sent goes on
      the link it is for, and what they do not pass on is gone. */
  ghost function Heard(s: Whole, l: Link): Whole
    requires Enabled(s, Hears(l))
  {
    var m := On(s.links, l)[0];
    var v := W.Apply(s.w, StepOf(l, m));
    var x, links, n := s.chans[m.ch], Popped(s.links, l), |s.w.log|;
    if |v.log| <= n then Whole(v, s.chans[m.ch := Dropping(x, l, m)], links)
    else if v.log[n].direction == W.ToClient then
      var y := if m.Connect? then x.(at := Some(v.log[n].to)) else x;
      Whole(v, s.chans[m.ch := y], Pushed(links, ToClient(v.log[n].to), [m]))
    else
      var out := if l.FromConnector? then Response(m.ch, false) else m;
      Whole(v, s.chans, Pushed(links, ToConnector(v.log[n].to), [out]))
  }

  ghost function Next(s: Whole, e: Event): Whole
    requires Enabled(s, e)
  {
    match e
    case Opens(ch, c) =>
      Whole(s.w, s.chans[ch := Chan(Pair(FreshSocks, FreshNet), c, None, [], [])],
            Pushed(s.links, FromConnector(c), [Connect(ch)]))
    case Acts(side, ch, a) =>
      var x := s.chans[ch];
      var (after, out) := Act1(side, ch, x.pair.On(side), a);
      Whole(s.w, s.chans[ch := x.(pair := x.pair.With(side, after))], Pushed(s.links, OutOf(x, side), out))
    case Hears(l) => Heard(s, l)
    case Reaches(l) =>
      var m := On(s.links, l)[0];
      var x, side := s.chans[m.ch], if l.ToClient? then Net else Socks;
      Whole(s.w, s.chans[m.ch := x.(pair := x.pair.With(side, Arrive(side, x.pair.On(side), m)))],
            Popped(s.links, l))
    case Does(step) => s.(w := W.Apply(s.w, step))
  }

  ghost predicate Runs(s: Whole, events: seq<Event>)
    decreases |events|
  {
    events != [] ==> Enabled(s, events[0]) && Runs(Next(s, events[0]), events[1..])
  }

  ghost function Run(s: Whole, events: seq<Event>): Whole
    requires Runs(s, events)
    decreases |events|
  {
    if events == [] then s else Run(Next(s, events[0]), events[1..])
  }

  // ---------------------------------------------------------------- one channel among many

  function Only(link: seq<Msg>, ch: Channel): seq<Msg> {
    if link == [] then [] else (if link[0].ch == ch then [link[0]] else []) + Only(link[1..], ch)
  }

  lemma InOrder(a: seq<Msg>, b: seq<Msg>, c: seq<Msg>)
    ensures a + b + c == a + (b + c)
  {
  }

  lemma {:induction false} OnlyAppend(link: seq<Msg>, more: seq<Msg>, ch: Channel)
    ensures Only(link + more, ch) == Only(link, ch) + Only(more, ch)
  {
    if link == [] {
      assert [] + more == more;
    } else {
      assert (link + more)[1..] == link[1..] + more;
      OnlyAppend(link[1..], more, ch);
      InOrder(if link[0].ch == ch then [link[0]] else [], Only(link[1..], ch), Only(more, ch));
    }
  }

  lemma {:induction false} OnlyAll(link: seq<Msg>, ch: Channel)
    requires T.AllOf(link, ch)
    ensures Only(link, ch) == link
  {
    if link != [] {
      assert link[0] in link && forall m <- link[1..] :: m in link;
      OnlyAll(link[1..], ch);
    }
  }

  lemma {:induction false} OnlyNone(link: seq<Msg>, ch: Channel)
    requires forall m <- link :: m.ch != ch
    ensures Only(link, ch) == []
  {
    if link != [] {
      assert link[0] in link && forall m <- link[1..] :: m in link;
      OnlyNone(link[1..], ch);
    }
  }

  lemma OnlyFirst(link: seq<Msg>, ch: Channel)
    requires link != []
    ensures link[0].ch != ch ==> Only(link[1..], ch) == Only(link, ch)
    ensures link[0].ch == ch ==>
              Only(link, ch) != [] && Only(link, ch)[0] == link[0] && Only(link, ch)[1..] == Only(link[1..], ch)
  {
  }

  lemma {:induction false} InFlightOnly(link: seq<Msg>, ch: Channel)
    ensures InFlight(Only(link, ch), ch) == InFlight(link, ch)
  {
    if link != [] {
      InFlightOnly(link[1..], ch);
      PopFront(link, ch);
      if link[0].ch == ch {
        assert Only(link, ch)[1..] == Only(link[1..], ch);
      } else {
        assert [] + Only(link[1..], ch) == Only(link[1..], ch);
      }
    }
  }

  /** The messages of a channel on a link. */
  function Own(links: map<Link, seq<Msg>>, l: Link, ch: Channel): seq<Msg> {
    Only(On(links, l), ch)
  }

  /** What one channel sees of the links. */
  function Sees(x: Chan, links: map<Link, seq<Msg>>, known: bool, ch: Channel): T.Pipe {
    T.Pipe(x.pair, Own(links, FromConnector(x.home), ch), x.lostUp,
           if x.at.Some? then Own(links, ToClient(x.at.value), ch) else [],
           if x.at.Some? then Own(links, FromClient(x.at.value), ch) else [], x.lostDown,
           Own(links, ToConnector(x.home), ch), known, x.at.Some?)
  }

  /** The whole system as one channel sees it. */
  function See(s: Whole, ch: Channel): T.Pipe
    requires ch in s.chans
  {
    Sees(s.chans[ch], s.links, ch in s.w.cache.toClient, ch)
  }

  predicate Belongs(x: Chan, l: Link) {
    match l
    case FromConnector(c) => x.home == c
    case ToConnector(c) => x.home == c
    case ToClient(r) => x.at == Some(r)
    case FromClient(r) => x.at == Some(r)
  }

  /** The part of a channel's view that a link is. */
  function Part(p: T.Pipe, l: Link): seq<Msg> {
    match l
    case FromConnector(_) => p.up
    case ToClient(_) => p.upFar
    case FromClient(_) => p.down
    case ToConnector(_) => p.downFar
  }

  function WithPart(p: T.Pipe, l: Link, part: seq<Msg>): T.Pipe {
    match l
    case FromConnector(_) => p.(up := part)
    case ToClient(_) => p.(upFar := part)
    case FromClient(_) => p.(down := part)
    case ToConnector(_) => p.(downFar := part)
  }

  lemma OwnPushed(links: map<Link, seq<Msg>>, l: Link, more: seq<Msg>, k: Link, ch: Channel)
    ensures Own(Pushed(links, l, more), k, ch)
            == if k == l then Own(links, k, ch) + Only(more, ch) else Own(links, k, ch)
  {
    OnlyAppend(On(links, l), more, ch);
  }

  lemma SeesPushed(x: Chan, links: map<Link, seq<Msg>>, known: bool, ch: Channel, l: Link, more: seq<Msg>)
    requires T.AllOf(more, ch) && Belongs(x, l)
    ensures var p := Sees(x, links, known, ch);
            Sees(x, Pushed(links, l, more), known, ch) == WithPart(p, l, Part(p, l) + more)
  {
    OnlyAll(more, ch);
    OwnPushed(links, l, more, FromConnector(x.home), ch);
    OwnPushed(links, l, more, ToConnector(x.home), ch);
    if x.at.Some? {
      OwnPushed(links, l, more, ToClient(x.at.value), ch);
      OwnPushed(links, l, more, FromClient(x.at.value), ch);
    }
  }

  lemma SeesPushedOther(x: Chan, links: map<Link, seq<Msg>>, known: bool, ch: Channel, l: Link, more: seq<Msg>)
    requires forall m <- more :: m.ch != ch
    ensures Sees(x, Pushed(links, l, more), known, ch) == Sees(x, links, known, ch)
  {
    OnlyNone(more, ch);
    forall k ensures Own(Pushed(links, l, more), k, ch) == Own(links, k, ch) {
      OwnPushed(links, l, more, k, ch);
      assert Own(links, k, ch) + [] == Own(links, k, ch);
    }
  }

  lemma SeesPopped(x: Chan, links: map<Link, seq<Msg>>, known: bool, ch: Channel, l: Link)
    requires On(links, l) != [] && On(links, l)[0].ch == ch && Belongs(x, l)
    ensures var p := Sees(x, links, known, ch);
            && Part(p, l) != [] && Part(p, l)[0] == On(links, l)[0]
            && Sees(x, Popped(links, l), known, ch) == WithPart(p, l, Part(p, l)[1..])
  {
    OnlyFirst(On(links, l), ch);
  }

  lemma SeesPoppedOther(x: Chan, links: map<Link, seq<Msg>>, known: bool, ch: Channel, l: Link)
    requires On(links, l) != [] && On(links, l)[0].ch != ch
    ensures Sees(x, Popped(links, l), known, ch) == Sees(x, links, known, ch)
  {
    OnlyFirst(On(links, l), ch);
  }

  // ---------------------------------------------------------------- the invariant

  /** A link carries only messages of channels that use it. */
  predicate Proper(s: Whole, l: Link) {
    forall m <- On(s.links, l) :: m.ch in s.chans && Belongs(s.chans[m.ch], l)
  }

  predicate Cached(w: W.World, ch: Channel) {
    ch in w.cache.toClient || ch in w.cache.toConnector
  }

  /** The cache joins a channel's own connector and reverse client; it is not one of the server's own. */
  ghost predicate CacheOk(s: Whole) {
    && (forall ch :: Cached(s.w, ch) ==>
          ch in s.chans && s.chans[ch].at.Some? && W.Joins(s.w, ch, s.chans[ch].home, s.chans[ch].at.value))
    && (forall ch <- s.chans :: ch !in s.w.local)
  }

  predicate ChanOk(s: Whole, ch: Channel)
    requires ch in s.chans
  {
    T.PipeOk(See(s, ch), ch)
  }

  ghost predicate Inv(s: Whole) {
    (forall l :: Proper(s, l)) && CacheOk(s) && (forall ch <- s.chans :: ChanOk(s, ch))
  }

  // ---------------------------------------------------------------- what the server does with a message

  /** The world of the server, but for its log and its registry, is as it was. */
  predicate SameCache(w: W.World, v: W.World) {
    v.cache == w.cache && v.local == w.local
  }

  lemma HearsConnect(w: W.World, ch: Channel, c: Conn)
    requires c in w.serving
    ensures var v := W.Apply(w, W.FromConnector(W.Connect, ch, c));
            || (v.log == w.log && SameCache(w, v))
            || (v.log == w.log + [W.Sent(W.ToConnector, W.Response, ch, c, c)] && SameCache(w, v))
            || (exists r :: v.log == w.log + [W.Sent(W.ToClient, W.Connect, ch, c, r)] && W.Joins(v, ch, c, r)
                            && v.local == w.local && v.cache.toClient == w.cache.toClient[ch := r]
                            && v.cache.toConnector == w.cache.toConnector[ch := c])
  {
    var v := W.Apply(w, W.FromConnector(W.Connect, ch, c));
    if W.Choice(w, c).Some? { W.ConnectJoins(w, c, ch); }
  }

  lemma HearsConnector(w: W.World, kind: W.Kind, ch: Channel, c: Conn)
    requires c in w.serving && kind != W.Connect
    ensures var v := W.Apply(w, W.FromConnector(kind, ch, c));
            && SameCache(w, v)
            && v.log == if (kind == W.Data || kind == W.Disconnect) && ch in w.cache.toClient then
                          w.log + [W.Sent(W.ToClient, kind, ch, c, w.cache.toClient[ch])]
                        else w.log
  {
  }

  lemma HearsClient(w: W.World, kind: W.Kind, ch: Channel, r: Conn)
    requires ch !in w.local
    ensures var v := W.Apply(w, W.FromClient(kind, ch, r));
            && SameCache(w, v)
            && v.log == if (kind == W.Data || kind == W.Response) && ch in w.cache.toConnector then
                          w.log + [W.Sent(W.ToConnector, kind, ch, r, w.cache.toConnector[ch])]
                        else w.log
  {
  }

  /** Everything else the server does can only take channels out of the cache. */
  lemma CacheShrinks(w: W.World, step: W.Step, ch: Channel)
    requires !step.FromConnector? && !step.FromClient?
    ensures var v := W.Apply(w, step);
            && (ch in v.cache.toClient ==> ch in w.cache.toClient && v.cache.toClient[ch] == w.cache.toClient[ch])
            && (ch in v.cache.toConnector ==>
                  ch in w.cache.toConnector && v.cache.toConnector[ch] == w.cache.toConnector[ch])
            && (ch in w.cache.toClient && ch in w.cache.toConnector ==>
                  (ch in v.cache.toClient <==> ch in v.cache.toConnector))
            && (ch in v.local ==> ch in w.local || step == W.Open(ch))
  {
    if !step.Drop? && !step.CleanupTask? {
      var v := W.Apply(w, step);
      assert v.cache == w.cache;
    }
  }

  // ---------------------------------------------------------------- one channel, one event

  lemma EndsOk(s: Whole, ch: Channel)
    requires ch in s.chans && ChanOk(s, ch)
    ensures EndOk(Socks, s.chans[ch].pair.socks) && EndOk(Net, s.chans[ch].pair.net)
  {
  }

  /** What one channel sees of an event is one thing that can happen to it, or nothing. */
  ghost predicate Simulates(p: T.Pipe, q: T.Pipe, ch: Channel) {
    q == p || exists h :: T.CanHappen(p, h) && q == T.After(p, ch, h)
  }

  lemma ActsSees(s: Whole, side: Side, ch: Channel, a: Act, c: Channel)
    requires Enabled(s, Acts(side, ch, a)) && EndOk(side, s.chans[ch].pair.On(side)) && c in s.chans
    ensures Simulates(See(s, c), See(Next(s, Acts(side, ch, a)), c), c)
  {
    var x, known := s.chans[ch], c in s.w.cache.toClient;
    var (after, out) := Act1(side, ch, x.pair.On(side), a);
    T.OneAct(side, ch, x.pair.On(side), a);
    if c == ch {
      SeesPushed(x.(pair := x.pair.With(side, after)), s.links, known, c, OutOf(x, side), out);
      assert T.CanHappen(See(s, c), T.Acts(side, a));
    } else {
      SeesPushedOther(s.chans[c], s.links, known, c, OutOf(x, side), out);
    }
  }

  lemma ReachesSees(s: Whole, l: Link, c: Channel)
    requires Enabled(s, Reaches(l)) && Proper(s, l) && c in s.chans
    ensures Simulates(See(s, c), See(Next(s, Reaches(l)), c), c)
  {
    var m, side, known := On(s.links, l)[0], if l.ToClient? then Net else Socks, c in s.w.cache.toClient;
    assert m in On(s.links, l);
    var x := s.chans[m.ch];
    if c == m.ch {
      SeesPopped(x, s.links, known, c, l);
      SeesPopped(x.(pair := x.pair.With(side, Arrive(side, x.pair.On(side), m))), s.links, known, c, l);
      assert T.CanHappen(See(s, c), T.Arrives(side));
    } else {
      SeesPoppedOther(s.chans[c], s.links, known, c, l);
    }
  }

  lemma DoesSees(s: Whole, step: W.Step, c: Channel)
    requires Enabled(s, Does(step)) && c in s.chans
    ensures Simulates(See(s, c), See(Next(s, Does(step)), c), c)
  {
    CacheShrinks(s.w, step, c);
    var p, q := See(s, c), See(Next(s, Does(step)), c);
    assert q == p || (T.CanHappen(p, T.Forgets) && q == T.After(p, c, T.Forgets));
  }

  /** A link carries nothing of a channel that does not use it. */
  lemma NotThere(s: Whole, l: Link, ch: Channel)
    requires Proper(s, l) && (ch in s.chans ==> !Belongs(s.chans[ch], l))
    ensures Own(s.links, l, ch) == []
  {
    OnlyNone(On(s.links, l), ch);
  }

  lemma OpensSees(s: Whole, ch: Channel, c: Conn, other: Channel)
    requires Enabled(s, Opens(ch, c)) && (other in s.chans || other == ch) && !Cached(s.w, ch)
    requires Proper(s, FromConnector(c)) && Proper(s, ToConnector(c))
    ensures var t := Next(s, Opens(ch, c));
            if other == ch then See(t, ch) == T.Opened(ch) else See(t, other) == See(s, other)
  {
    var y := Next(s, Opens(ch, c)).chans[other];
    if other == ch {
      NotThere(s, FromConnector(c), ch);
      NotThere(s, ToConnector(c), ch);
      SeesPushed(y, s.links, false, ch, FromConnector(c), [Connect(ch)]);
      assert [] + [Connect(ch)] == [Connect(ch)];
    } else {
      SeesPushedOther(y, s.links, other in s.w.cache.toClient, other, FromConnector(c), [Connect(ch)]);
    }
  }

  /** What a dispatcher does with a message leaves the other channels where they are. */
  lemma CacheElsewhere(w: W.World, step: W.Step, c: Channel)
    requires (step.FromConnector? || step.FromClient?) && step.ch != c
    ensures var v := W.Apply(w, step);
            && (c in v.cache.toClient <==> c in w.cache.toClient)
            && (c in v.cache.toConnector <==> c in w.cache.toConnector)
            && (c in w.cache.toClient ==> v.cache.toClient[c] == w.cache.toClient[c])
            && (c in w.cache.toConnector ==> v.cache.toConnector[c] == w.cache.toConnector[c])
  {
  }

  /** The dispatcher passes on at most one message, about the same channel. */
  lemma HeardAbout(s: Whole, l: Link) returns (to: Link, out: seq<Msg>)
    requires Enabled(s, Hears(l))
    ensures var m, h := On(s.links, l)[0], Heard(s, l);
            && (forall x <- out :: x.ch == m.ch)
            && (h.links == Popped(s.links, l) || h.links == Pushed(Popped(s.links, l), to, out))
            && (forall c <- s.chans :: c != m.ch ==> c in h.chans && h.chans[c] == s.chans[c])
  {
    var m := On(s.links, l)[0];
    var v, n := W.Apply(s.w, StepOf(l, m)), |s.w.log|;
    if |v.log| <= n {
      to, out := l, [];
    } else if v.log[n].direction == W.ToClient {
      to, out := ToClient(v.log[n].to), [m];
    } else {
      to, out := ToConnector(v.log[n].to), [if l.FromConnector? then Response(m.ch, false) else m];
    }
  }

  lemma HearsOthers(s: Whole, l: Link, c: Channel)
    requires Enabled(s, Hears(l)) && c in s.chans && c != On(s.links, l)[0].ch
    ensures c in Heard(s, l).chans && See(Heard(s, l), c) == See(s, c)
  {
    var m, x, known := On(s.links, l)[0], s.chans[c], c in s.w.cache.toClient;
    var to, out := HeardAbout(s, l);
    CacheElsewhere(s.w, StepOf(l, m), c);
    SeesPoppedOther(x, s.links, known, c, l);
    SeesPushedOther(x, Popped(s.links, l), known, c, to, out);
    assert Heard(s, l).w == W.Apply(s.w, StepOf(l, m));
  }

  /** A message of the channel that the server does not pass on. */
  lemma HeardDropped(s: Whole, l: Link)
    requires Enabled(s, Hears(l)) && Belongs(s.chans[On(s.links, l)[0].ch], l)
    requires var m := On(s.links, l)[0]; var v := W.Apply(s.w, StepOf(l, m)); v.log == s.w.log && SameCache(s.w, v)
    ensures var m := On(s.links, l)[0];
            var p, q := See(s, m.ch), See(Heard(s, l), m.ch);
            var rest := WithPart(p, l, Part(p, l)[1..]);
            && Part(p, l) != [] && Part(p, l)[0] == m
            && q == if !m.Data? then rest
                    else if l.FromConnector? then rest.(lostUp := p.lostUp + m.bytes)
                    else rest.(lostDown := p.lostDown + m.bytes)
  {
    var m := On(s.links, l)[0];
    var x, known := s.chans[m.ch], m.ch in s.w.cache.toClient;
    SeesPopped(x, s.links, known, m.ch, l);
    SeesPopped(Dropping(x, l, m), s.links, known, m.ch, l);
  }

  /** A message that goes on to where the channel leads. */
  lemma HeardPassed(s: Whole, l: Link, to: Link, out: Msg)
    requires Enabled(s, Hears(l)) && out.ch == On(s.links, l)[0].ch
    requires Belongs(s.chans[out.ch], l) && Belongs(s.chans[out.ch], to) && l != to
    requires SameCache(s.w, W.Apply(s.w, StepOf(l, On(s.links, l)[0])))
    requires var h := Heard(s, l); h.chans == s.chans && h.links == Pushed(Popped(s.links, l), to, [out])
    ensures var p, q := See(s, out.ch), See(Heard(s, l), out.ch);
            var rest := WithPart(p, l, Part(p, l)[1..]);
            && Part(p, l) != [] && Part(p, l)[0] == On(s.links, l)[0]
            && q == WithPart(rest, to, Part(rest, to) + [out])
  {
    var ch := out.ch;
    var x, known := s.chans[ch], ch in s.w.cache.toClient;
    SeesPopped(x, s.links, known, ch, l);
    SeesPushed(x, Popped(s.links, l), known, ch, to, [out]);
  }

  lemma HearsDown(s: Whole, l: Link)
    requires Enabled(s, Hears(l)) && l.FromClient? && Proper(s, l) && CacheOk(s)
    ensures var ch := On(s.links, l)[0].ch;
            var p := See(s, ch);
            T.CanHappen(p, T.Relays(Net, T.Ignored)) && See(Heard(s, l), ch) == T.After(p, ch, T.Relays(Net, T.Ignored))
  {
    var m := On(s.links, l)[0];
    var ch := m.ch;
    assert m in On(s.links, l);
    HearsClient(s.w, KindOf(m), ch, l.r);
    if (m.Data? || m.Response?) && ch in s.w.cache.toConnector {
      assert Cached(s.w, ch);
      HeardPassed(s, l, ToConnector(s.chans[ch].home), m);
    } else {
      assert Cached(s.w, ch) ==> ch in s.w.cache.toConnector;
      HeardDropped(s, l);
    }
  }

  lemma HearsUp(s: Whole, l: Link)
    requires Enabled(s, Hears(l)) && l.FromConnector? && Proper(s, l) && CacheOk(s) && !On(s.links, l)[0].Connect?
    ensures var ch := On(s.links, l)[0].ch;
            var p := See(s, ch);
            T.CanHappen(p, T.Relays(Socks, T.Ignored))
            && See(Heard(s, l), ch) == T.After(p, ch, T.Relays(Socks, T.Ignored))
  {
    var m := On(s.links, l)[0];
    var ch := m.ch;
    assert m in On(s.links, l);
    HearsConnector(s.w, KindOf(m), ch, l.c);
    if (m.Data? || m.Disconnect?) && ch in s.w.cache.toClient {
      assert Cached(s.w, ch);
      HeardPassed(s, l, ToClient(s.chans[ch].at.value), m);
    } else {
      HeardDropped(s, l);
    }
  }

  /** A Connect that is passed on gives its channel the reverse client picked. */
  lemma ConnectPassed(s: Whole, l: Link, r: Conn)
    requires Enabled(s, Hears(l)) && l.FromConnector? && Proper(s, l) && On(s.links, l)[0].Connect?
    requires Proper(s, ToClient(r)) && Proper(s, FromClient(r)) && s.chans[On(s.links, l)[0].ch].at.None?
    requires var ch, h := On(s.links, l)[0].ch, Heard(s, l);
             && h.chans == s.chans[ch := s.chans[ch].(at := Some(r))] && ch in h.w.cache.toClient
             && h.links == Pushed(Popped(s.links, l), ToClient(r), [On(s.links, l)[0]])
    ensures var ch := On(s.links, l)[0].ch;
            var p := See(s, ch);
            T.CanHappen(p, T.Relays(Socks, T.Passed))
            && See(Heard(s, l), ch) == T.After(p, ch, T.Relays(Socks, T.Passed))
  {
    var m := On(s.links, l)[0];
    assert m in On(s.links, l);
    var x, ch := s.chans[m.ch], m.ch;
    var y := x.(at := Some(r));
    NotThere(s, ToClient(r), ch);
    NotThere(s, FromClient(r), ch);
    SeesPopped(x, s.links, false, ch, l);
    SeesPopped(y, s.links, true, ch, l);
    SeesPushed(y, Popped(s.links, l), true, ch, ToClient(r), [m]);
  }

  lemma HearsConnectUp(s: Whole, l: Link) returns (v: T.Verdict)
    requires Enabled(s, Hears(l)) && l.FromConnector? && On(s.links, l)[0].Connect?
    requires (forall k :: Proper(s, k)) && CacheOk(s) && s.chans[On(s.links, l)[0].ch].at.None?
    ensures var ch := On(s.links, l)[0].ch;
            var p := See(s, ch);
            T.CanHappen(p, T.Relays(Socks, v)) && See(Heard(s, l), ch) == T.After(p, ch, T.Relays(Socks, v))
  {
    var m := On(s.links, l)[0];
    var ch, c, n := m.ch, l.c, |s.w.log|;
    assert Proper(s, l) && m in On(s.links, l);
    HearsConnect(s.w, ch, c);
    var d := W.Apply(s.w, StepOf(l, m));
    if d.log == s.w.log {
      v := T.Ignored;
      HeardDropped(s, l);
    } else if d.log[n].direction == W.ToConnector {
      v := T.Refused;
      HeardPassed(s, l, ToConnector(c), Response(ch, false));
    } else {
      v := T.Passed;
      assert Proper(s, ToClient(d.log[n].to)) && Proper(s, FromClient(d.log[n].to));
      ConnectPassed(s, l, d.log[n].to);
    }
  }

  lemma ConnectAhead(s: Whole, l: Link)
    requires Enabled(s, Hears(l)) && l.FromConnector? && Proper(s, l) && On(s.links, l)[0].Connect?
    requires ChanOk(s, On(s.links, l)[0].ch)
    ensures s.chans[On(s.links, l)[0].ch].at.None?
  {
    var m := On(s.links, l)[0];
    assert m in On(s.links, l);
    SeesPopped(s.chans[m.ch], s.links, m.ch in s.w.cache.toClient, m.ch, l);
  }

  /** On the channel itself the server relays one message. */
  lemma HearsOwn(s: Whole, l: Link) returns (h: T.Happening)
    requires Enabled(s, Hears(l)) && (forall k :: Proper(s, k)) && CacheOk(s)
    requires l.FromConnector? && On(s.links, l)[0].Connect? ==> s.chans[On(s.links, l)[0].ch].at.None?
    ensures var ch := On(s.links, l)[0].ch;
            ch in Heard(s, l).chans && T.CanHappen(See(s, ch), h) && See(Heard(s, l), ch) == T.After(See(s, ch), ch, h)
  {
    var m := On(s.links, l)[0];
    assert Proper(s, l);
    if l.FromClient? {
      HearsDown(s, l);
      h := T.Relays(Net, T.Ignored);
    } else if m.Connect? {
      var v := HearsConnectUp(s, l);
      h := T.Relays(Socks, v);
    } else {
      HearsUp(s, l);
      h := T.Relays(Socks, T.Ignored);
    }
  }

  lemma HearsSees(s: Whole, l: Link, c: Channel)
    requires Enabled(s, Hears(l)) && (forall k :: Proper(s, k)) && CacheOk(s) && c in s.chans
    requires l.FromConnector? && On(s.links, l)[0].Connect? ==> s.chans[On(s.links, l)[0].ch].at.None?
    ensures c in Heard(s, l).chans && Simulates(See(s, c), See(Heard(s, l), c), c)
  {
    if c == On(s.links, l)[0].ch {
      var h := HearsOwn(s, l);
    } else {
      HearsOthers(s, l, c);
    }
  }

  // ---------------------------------------------------------------- every event

  /** Every event is, for every channel there is, one thing that can happen to it, or nothing. */
  lemma EventSees(s: Whole, e: Event, c: Channel)
    requires Inv(s) && Enabled(s, e) && c in s.chans
    ensures c in Next(s, e).chans && Simulates(See(s, c), See(Next(s, e), c), c)
  {
    match e {
      case Opens(ch, k) =>
        assert !Cached(s.w, ch) && Proper(s, FromConnector(k)) && Proper(s, ToConnector(k));
        OpensSees(s, ch, k, c);
      case Acts(side, ch, a) => assert ChanOk(s, ch); EndsOk(s, ch); ActsSees(s, side, ch, a, c);
      case Hears(l) =>
        assert Proper(s, l) && ChanOk(s, On(s.links, l)[0].ch);
        if l.FromConnector? && On(s.links, l)[0].Connect? { ConnectAhead(s, l); }
        HearsSees(s, l, c);
      case Reaches(l) => assert Proper(s, l); ReachesSees(s, l, c);
      case Does(step) => DoesSees(s, step, c);
    }
  }

  // ---------------------------------------------------------------- where everything goes

  /** A message the server does not pass on. */
  predicate Kept(s: Whole, l: Link, h: Whole)
    requires HasNext(s, l)
  {
    var ch := On(s.links, l)[0].ch;
    && SameCache(s.w, h.w) && h.links == Popped(s.links, l)
    && ch in h.chans && h.chans[ch].home == s.chans[ch].home && h.chans[ch].at == s.chans[ch].at
    && h.chans == s.chans[ch := h.chans[ch]]
  }

  /** A message about the same channel goes on a link the channel uses. */
  predicate Follows(s: Whole, l: Link, h: Whole, to: Link, out: Msg)
    requires HasNext(s, l)
  {
    && SameCache(s.w, h.w) && h.links == Pushed(Popped(s.links, l), to, [out]) && h.chans == s.chans
    && out.ch == On(s.links, l)[0].ch && Belongs(s.chans[out.ch], to)
  }

  /** A Connect settles where its channel leads. */
  predicate Settles(s: Whole, l: Link, h: Whole, r: Conn)
    requires HasNext(s, l)
  {
    var m := On(s.links, l)[0];
    var ch, x := m.ch, s.chans[m.ch];
    && m == Connect(ch) && l == FromConnector(x.home) && x.at.None? && h.w.local == s.w.local
    && h.w.cache.toClient == s.w.cache.toClient[ch := r] && h.w.cache.toConnector == s.w.cache.toConnector[ch := x.home]
    && h.links == Pushed(Popped(s.links, l), ToClient(r), [m]) && h.chans == s.chans[ch := x.(at := Some(r))]
  }

  ghost predicate Handled(s: Whole, l: Link, h: Whole)
    requires HasNext(s, l)
  {
    || Kept(s, l, h)
    || (exists to, out :: Follows(s, l, h, to, out))
    || (exists r :: Settles(s, l, h, r))
  }

  lemma DownHandled(s: Whole, l: Link)
    requires Enabled(s, Hears(l)) && l.FromClient? && Proper(s, l) && CacheOk(s)
    ensures Handled(s, l, Heard(s, l))
  {
    var m := On(s.links, l)[0];
    assert m in On(s.links, l);
    HearsClient(s.w, KindOf(m), m.ch, l.r);
    if (m.Data? || m.Response?) && m.ch in s.w.cache.toConnector {
      assert Cached(s.w, m.ch);
      assert Follows(s, l, Heard(s, l), ToConnector(s.chans[m.ch].home), m);
    } else {
      assert Kept(s, l, Heard(s, l));
    }
  }

  lemma UpHandled(s: Whole, l: Link)
    requires Enabled(s, Hears(l)) && l.FromConnector? && Proper(s, l) && CacheOk(s) && !On(s.links, l)[0].Connect?
    ensures Handled(s, l, Heard(s, l))
  {
    var m := On(s.links, l)[0];
    assert m in On(s.links, l);
    HearsConnector(s.w, KindOf(m), m.ch, l.c);
    if (m.Data? || m.Disconnect?) && m.ch in s.w.cache.toClient {
      assert Cached(s.w, m.ch);
      assert Follows(s, l, Heard(s, l), ToClient(s.chans[m.ch].at.value), m);
    } else {
      assert Kept(s, l, Heard(s, l));
    }
  }

  lemma ConnectHandled(s: Whole, l: Link)
    requires Enabled(s, Hears(l)) && l.FromConnector? && Proper(s, l) && On(s.links, l)[0].Connect?
    requires s.chans[On(s.links, l)[0].ch].at.None?
    ensures Handled(s, l, Heard(s, l))
  {
    var m, n := On(s.links, l)[0], |s.w.log|;
    assert m in On(s.links, l);
    HearsConnect(s.w, m.ch, l.c);
    var d := W.Apply(s.w, StepOf(l, m));
    if d.log == s.w.log {
      assert Kept(s, l, Heard(s, l));
    } else if d.log[n].direction == W.ToConnector {
      assert Follows(s, l, Heard(s, l), ToConnector(l.c), Response(m.ch, false));
    } else {
      assert Settles(s, l, Heard(s, l), d.log[n].to);
    }
  }

  lemma HearsHandled(s: Whole, l: Link)
    requires Enabled(s, Hears(l)) && Proper(s, l) && CacheOk(s) && ChanOk(s, On(s.links, l)[0].ch)
    ensures Handled(s, l, Heard(s, l))
  {
    if l.FromClient? {
      DownHandled(s, l);
    } else if On(s.links, l)[0].Connect? {
      ConnectAhead(s, l);
      ConnectHandled(s, l);
    } else {
      UpHandled(s, l);
    }
  }

  /** Links stay proper when a channel keeps its place, or gets one. */
  predicate Places(s: Whole, h: Whole) {
    forall c <- s.chans ::
      c in h.chans && h.chans[c].home == s.chans[c].home && (s.chans[c].at.Some? ==> h.chans[c].at == s.chans[c].at)
  }

  lemma ProperPopped(s: Whole, h: Whole, l: Link, k: Link)
    requires Proper(s, k) && Places(s, h) && On(s.links, l) != [] && On(h.links, k) == On(Popped(s.links, l), k)
    ensures Proper(h, k)
  {
    assert forall m <- On(h.links, k) :: m in On(s.links, k);
  }

  lemma ProperPushed(s: Whole, h: Whole, k: Link, more: seq<Msg>)
    requires Proper(s, k) && Places(s, h) && On(h.links, k) == On(s.links, k) + more
    requires forall m <- more :: m.ch in h.chans && Belongs(h.chans[m.ch], k)
    ensures Proper(h, k)
  {
    assert forall m <- On(h.links, k) :: m in On(s.links, k) || m in more;
  }

  lemma ProperMoved(s: Whole, h: Whole, l: Link, to: Link, out: Msg, k: Link)
    requires Proper(s, k) && Places(s, h) && On(s.links, l) != []
    requires h.links == Pushed(Popped(s.links, l), to, [out]) && out.ch in h.chans && Belongs(h.chans[out.ch], to)
    ensures Proper(h, k)
  {
    var mid := h.(links := Popped(s.links, l));
    ProperPopped(s, mid, l, k);
    ProperPushed(mid, h, k, if k == to then [out] else []);
  }

  lemma HearsKeepsProper(s: Whole, l: Link, k: Link)
    requires Enabled(s, Hears(l)) && Proper(s, k) && Handled(s, l, Heard(s, l))
    ensures Places(s, Heard(s, l)) && Proper(Heard(s, l), k)
  {
    var h := Heard(s, l);
    if Kept(s, l, h) {
      ProperPopped(s, h, l, k);
    } else if to, out :| Follows(s, l, h, to, out) {
      ProperMoved(s, h, l, to, out, k);
    } else {
      var r :| Settles(s, l, h, r);
      ProperMoved(s, h, l, ToClient(r), On(s.links, l)[0], k);
    }
  }

  lemma HearsKeepsCache(s: Whole, l: Link)
    requires Enabled(s, Hears(l)) && CacheOk(s) && Handled(s, l, Heard(s, l))
    ensures CacheOk(Heard(s, l))
  {
    var h := Heard(s, l);
    if Kept(s, l, h) {
      assert forall ch :: Cached(h.w, ch) ==> Cached(s.w, ch);
    } else if to, out :| Follows(s, l, h, to, out) {
      assert forall ch :: Cached(h.w, ch) ==> Cached(s.w, ch);
    } else {
      var r :| Settles(s, l, h, r);
      assert forall ch :: Cached(h.w, ch) ==> Cached(s.w, ch) || ch == On(s.links, l)[0].ch;
    }
  }

  lemma DoesKeepsCache(s: Whole, step: W.Step)
    requires Enabled(s, Does(step)) && CacheOk(s)
    ensures CacheOk(Next(s, Does(step)))
  {
    var h := Next(s, Does(step));
    forall ch | Cached(h.w, ch)
      ensures ch in h.chans && h.chans[ch].at.Some? && W.Joins(h.w, ch, h.chans[ch].home, h.chans[ch].at.value)
    {
      CacheShrinks(s.w, step, ch);
      assert Cached(s.w, ch);
    }
    forall ch <- h.chans ensures ch !in h.w.local {
      CacheShrinks(s.w, step, ch);
    }
  }

  lemma OpensKeeps(s: Whole, ch: Channel, c: Conn, k: Link)
    requires Enabled(s, Opens(ch, c)) && Proper(s, k) && CacheOk(s)
    ensures Proper(Next(s, Opens(ch, c)), k) && CacheOk(Next(s, Opens(ch, c)))
  {
    var h := Next(s, Opens(ch, c));
    ProperPushed(s, h, k, if k == FromConnector(c) then [Connect(ch)] else []);
    assert forall x :: Cached(h.w, x) ==> Cached(s.w, x);
  }

  /** The links of an end do not depend on its state. */
  lemma SamePlaces(s: Whole, h: Whole, ch: Channel, pair: Pair)
    requires ch in s.chans && h.w == s.w && h.chans == s.chans[ch := s.chans[ch].(pair := pair)] && CacheOk(s)
    ensures Places(s, h) && CacheOk(h)
  {
    assert forall x :: Cached(h.w, x) ==> Cached(s.w, x);
  }

  lemma ActsKeeps(s: Whole, side: Side, ch: Channel, a: Act, k: Link)
    requires Enabled(s, Acts(side, ch, a)) && EndOk(side, s.chans[ch].pair.On(side)) && Proper(s, k) && CacheOk(s)
    ensures Proper(Next(s, Acts(side, ch, a)), k) && CacheOk(Next(s, Acts(side, ch, a)))
  {
    var x, h := s.chans[ch], Next(s, Acts(side, ch, a));
    T.OneAct(side, ch, x.pair.On(side), a);
    SamePlaces(s, h, ch, h.chans[ch].pair);
    ProperPushed(s, h, k, if k == OutOf(x, side) then Act1(side, ch, x.pair.On(side), a).1 else []);
  }

  lemma ReachesKeeps(s: Whole, l: Link, k: Link)
    requires Enabled(s, Reaches(l)) && Proper(s, k) && CacheOk(s)
    ensures Proper(Next(s, Reaches(l)), k) && CacheOk(Next(s, Reaches(l)))
  {
    var h, ch := Next(s, Reaches(l)), On(s.links, l)[0].ch;
    SamePlaces(s, h, ch, h.chans[ch].pair);
    ProperPopped(s, h, l, k);
  }

  /** Every event keeps links and cache in order. */
  lemma EventKeeps(s: Whole, e: Event, k: Link)
    requires Inv(s) && Enabled(s, e)
    ensures Proper(Next(s, e), k) && CacheOk(Next(s, e))
  {
    assert Proper(s, k);
    match e {
      case Opens(ch, c) => OpensKeeps(s, ch, c, k);
      case Acts(side, ch, a) => assert ChanOk(s, ch); EndsOk(s, ch); ActsKeeps(s, side, ch, a, k);
      case Hears(l) =>
        assert Proper(s, l) && ChanOk(s, On(s.links, l)[0].ch);
        HearsHandled(s, l);
        HearsKeepsProper(s, l, k);
        HearsKeepsCache(s, l);
      case Reaches(l) => ReachesKeeps(s, l, k);
      case Does(step) => DoesKeepsCache(s, step);
    }
  }

  // ---------------------------------------------------------------- every run

  lemma EventKeepsChannel(s: Whole, e: Event, c: Channel)
    requires Inv(s) && Enabled(s, e) && c in s.chans
    ensures c in Next(s, e).chans && ChanOk(Next(s, e), c)
  {
    EventSees(s, e, c);
    assert ChanOk(s, c);
    SimulationKeeps(See(s, c), See(Next(s, e), c), c);
  }

  lemma SimulationKeeps(p: T.Pipe, q: T.Pipe, c: Channel)
    requires T.PipeOk(p, c) && Simulates(p, q, c)
    ensures T.PipeOk(q, c)
  {
    if q != p {
      var h :| T.CanHappen(p, h) && q == T.After(p, c, h);
      T.HappeningKeeps(p, c, h);
    }
  }

  lemma OpenedChannel(s: Whole, ch: Channel, c: Conn)
    requires Inv(s) && Enabled(s, Opens(ch, c))
    ensures ChanOk(Next(s, Opens(ch, c)), ch)
  {
    assert !Cached(s.w, ch) && Proper(s, FromConnector(c)) && Proper(s, ToConnector(c));
    OpensSees(s, ch, c, ch);
    T.OpenedOk(ch);
  }

  lemma NewChannel(s: Whole, e: Event, c: Channel)
    requires Enabled(s, e) && c in Next(s, e).chans && c !in s.chans
    ensures e.Opens? && e.ch == c
  {
  }

  lemma EventKeepsInv(s: Whole, e: Event)
    requires Inv(s) && Enabled(s, e)
    ensures Inv(Next(s, e))
  {
    var h := Next(s, e);
    forall k ensures Proper(h, k) && CacheOk(h) {
      EventKeeps(s, e, k);
    }
    assert Proper(h, ToClient(0));
    forall c <- h.chans ensures ChanOk(h, c) {
      if c in s.chans {
        EventKeepsChannel(s, e, c);
      } else {
        NewChannel(s, e, c);
        OpenedChannel(s, c, e.c);
      }
    }
  }

  lemma {:induction false} RunKeepsInv(s: Whole, events: seq<Event>)
    requires Inv(s) && Runs(s, events)
    ensures Inv(Run(s, events))
    decreases |events|
  {
    if events != [] {
      EventKeepsInv(s, events[0]);
      RunKeepsInv(Next(s, events[0]), events[1..]);
    }
  }

  lemma Reached(pool: set<int>, events: seq<Event>, ch: Channel)
    requires Runs(Start(pool), events) && ch in Run(Start(pool), events).chans
    ensures var p := See(Run(Start(pool), events), ch);
            && Flow(p.pair.socks, T.UpBytes(p, ch), p.pair.net) && Flow(p.pair.net, T.DownBytes(p, ch), p.pair.socks)
            && p.pair.net.early == [] && (p.known ==> p.lostUp == [] && p.lostDown == [])
  {
    assert forall l :: Proper(Start(pool), l);
    RunKeepsInv(Start(pool), events);
    assert ChanOk(Run(Start(pool), events), ch);
  }

  /** The payload of a channel on a link. */
  function Moving(s: Whole, l: Link, ch: Channel): seq<Byte> {
    InFlight(On(s.links, l), ch)
  }

  lemma UpBytesAre(s: Whole, ch: Channel)
    requires ch in s.chans
    ensures var x := s.chans[ch];
            && T.UpBytes(See(s, ch), ch)
               == (if x.at.Some? then Moving(s, ToClient(x.at.value), ch) else [])
                  + (x.lostUp + Moving(s, FromConnector(x.home), ch))
            && T.DownBytes(See(s, ch), ch)
               == Moving(s, ToConnector(x.home), ch)
                  + (x.lostDown + (if x.at.Some? then Moving(s, FromClient(x.at.value), ch) else []))
  {
    var x := s.chans[ch];
    InFlightOnly(On(s.links, FromConnector(x.home)), ch);
    InFlightOnly(On(s.links, ToConnector(x.home)), ch);
    if x.at.Some? {
      InFlightOnly(On(s.links, ToClient(x.at.value)), ch);
      InFlightOnly(On(s.links, FromClient(x.at.value)), ch);
    }
  }

  /** Conservation in connector mode, towards the network: whatever connectors, reverse clients, the
      server's dispatchers, its registry and its clean-ups do, the bytes read from a SOCKS socket are, in
      order, those written to the target, in the writer's hand, queued, dropped behind the queue, on the
      link to the one reverse client, dropped by the server, on the link from the connector, and in the
      reader's hand.  So the target has received a prefix of what was sent; and while the server knows the
      channel it has dropped nothing. */
  lemma UpstreamAcrossServer(pool: set<int>, events: seq<Event>, ch: Channel)
    requires Runs(Start(pool), events) && ch in Run(Start(pool), events).chans
    ensures var s := Run(Start(pool), events);
            var x := s.chans[ch];
            var net, far := x.pair.net, if x.at.Some? then Moving(s, ToClient(x.at.value), ch) else [];
            && x.pair.socks.readTotal
               == net.written + net.outHand + Flat(net.queue) + net.lost
                  + (far + (x.lostUp + Moving(s, FromConnector(x.home), ch))) + x.pair.socks.inHand
            && net.written <= x.pair.socks.readTotal
            && (ch in s.w.cache.toClient ==> x.lostUp == [])
  {
    Reached(pool, events, ch);
    var s := Run(Start(pool), events);
    var p := See(s, ch);
    UpBytesAre(s, ch);
    FlowInFull(p.pair.socks, T.UpBytes(p, ch), p.pair.net);
    assert [] + p.pair.net.written == p.pair.net.written;
  }

  /** ... and towards the SOCKS client, from the point where its forwarder's queue was installed. */
  lemma DownstreamAcrossServer(pool: set<int>, events: seq<Event>, ch: Channel)
    requires Runs(Start(pool), events) && ch in Run(Start(pool), events).chans
    ensures var s := Run(Start(pool), events);
            var x := s.chans[ch];
            var socks, near := x.pair.socks, if x.at.Some? then Moving(s, FromClient(x.at.value), ch) else [];
            && x.pair.net.readTotal
               == socks.early + socks.written + socks.outHand + Flat(socks.queue) + socks.lost
                  + (Moving(s, ToConnector(x.home), ch) + (x.lostDown + near)) + x.pair.net.inHand
            && |socks.early| <= |x.pair.net.readTotal| && socks.written <= x.pair.net.readTotal[|socks.early|..]
            && (ch in s.w.cache.toClient ==> x.lostDown == [])
  {
    Reached(pool, events, ch);
    var s := Run(Start(pool), events);
    var p := See(s, ch);
    UpBytesAre(s, ch);
    FlowInFull(p.pair.net, T.DownBytes(p, ch), p.pair.socks);
  }

  // ---------------------------------------------------------------- when the server drops something

  /** A dispatcher takes payload of a channel that the cache does not hold. */
  predicate Drops(s: Whole, e: Event, ch: Channel)
    requires Enabled(s, e)
  {
    e.Hears? && On(s.links, e.link)[0].ch == ch && On(s.links, e.link)[0].Data?
    && On(s.links, e.link)[0].bytes != [] && ch !in s.w.cache.toClient
  }

  ghost predicate DropsSometime(s: Whole, events: seq<Event>, ch: Channel)
    requires Runs(s, events)
    decreases |events|
  {
    events != [] && (Drops(s, events[0], ch) || DropsSometime(Next(s, events[0]), events[1..], ch))
  }

  predicate NothingLost(s: Whole, ch: Channel) {
    ch in s.chans ==> s.chans[ch].lostUp == [] && s.chans[ch].lostDown == []
  }

  lemma HearsDrops(s: Whole, l: Link, ch: Channel)
    requires Enabled(s, Hears(l)) && Proper(s, l) && CacheOk(s)
    ensures NothingLost(Heard(s, l), ch) <==> NothingLost(s, ch) && !Drops(s, Hears(l), ch)
  {
    var m := On(s.links, l)[0];
    assert m in On(s.links, l);
    assert Cached(s.w, m.ch) ==> m.ch in s.w.cache.toClient && m.ch in s.w.cache.toConnector;
    if l.FromClient? {
      HearsClient(s.w, KindOf(m), m.ch, l.r);
    } else if !m.Connect? {
      HearsConnector(s.w, KindOf(m), m.ch, l.c);
    }
  }

  lemma OthersDropNothing(s: Whole, e: Event, ch: Channel)
    requires Enabled(s, e) && !e.Hears?
    ensures NothingLost(Next(s, e), ch) <==> NothingLost(s, ch)
  {
    match e {
      case Opens(_, _) =>
      case Acts(_, _, _) =>
      case Reaches(_) =>
      case Does(_) =>
    }
  }

  lemma EventDrops(s: Whole, e: Event, ch: Channel)
    requires Inv(s) && Enabled(s, e)
    ensures NothingLost(Next(s, e), ch) <==> NothingLost(s, ch) && !Drops(s, e, ch)
  {
    if !e.Hears? {
      OthersDropNothing(s, e, ch);
    } else {
      assert Proper(s, e.link);
      HearsDrops(s, e.link, ch);
    }
  }

  lemma {:induction false} RunDrops(s: Whole, events: seq<Event>, ch: Channel)
    requires Inv(s) && Runs(s, events)
    ensures NothingLost(Run(s, events), ch) <==> NothingLost(s, ch) && !DropsSometime(s, events, ch)
    decreases |events|
  {
    if events != [] {
      EventDrops(s, events[0], ch);
      EventKeepsInv(s, events[0]);
      RunDrops(Next(s, events[0]), events[1..], ch);
    }
  }

  /** The server drops payload of a channel exactly when one of its dispatchers takes it after the channel
      has left the cache (or was never put there). */
  lemma DroppedExactly(pool: set<int>, events: seq<Event>, ch: Channel)
    requires Runs(Start(pool), events) && ch in Run(Start(pool), events).chans
    ensures var x := Run(Start(pool), events).chans[ch];
            x.lostUp == [] && x.lostDown == [] <==> !DropsSometime(Start(pool), events, ch)
  {
    assert forall l :: Proper(Start(pool), l);
    RunDrops(Start(pool), events, ch);
  }
}
