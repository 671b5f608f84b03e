/** The server between connectors and reverse clients: both message dispatchers over the registry
    and the channel cache, as a step system.  A step is the code between two suspensions. */
module Routing {
  import opened Bytes
  import opened Registry
  import opened RegistryInvariant
  import R = Registry
  import C = ConnectorCache
  import RoundRobin

  type Channel = C.Channel

  datatype Kind = Connect | Data | Disconnect | Response

  datatype Direction = ToClient | ToConnector

  /** A message the server passed on, or the refusal it made up itself (`from` is then `to`). */
  datatype Sent = Sent(direction: Direction, kind: Kind, ch: Channel, from: Conn, to: Conn)

  /** What a connector's dispatcher has captured when it started: the connector token, the reverse
      token it led to, and, when it was added over a reverse connection, that connection's id. */
  datatype Serving = Serving(token: Token, target: Token, adder: Option<Cid>)

  /** `local` are the channels of the server's own SOCKS requests, which it keeps for itself;
      `ending` the channels whose Disconnect has been passed on and which are about to be dropped.
      `adders` is a history: the reverse connection each connector token was added over. */
  datatype World = World(reg: Registry, cache: C.Cache, local: set<Channel>, ending: multiset<Channel>,
                         serving: map<Conn, Serving>, adders: map<Token, Cid>, log: seq<Sent>)

  function Begin(pool: set<int>): World {
    World(R.Start(pool), C.Empty, {}, multiset{}, map[], map[], [])
  }

  datatype Step =
    | Reg(event: Event)                                // any operation of the registry
    | Serve(cid: Cid)                                  // the dispatcher of a connector starts
    | FromConnector(kind: Kind, ch: Channel, c: Conn)  // it receives a message
    | Drop(ch: Channel)                                // the end of its handling of a Disconnect
    | FromClient(kind: Kind, ch: Channel, r: Conn)     // a reverse client's dispatcher receives one
    | AddOver(cid: Cid, ct: Token)                     // ... or a request to add a connector token
    | RemoveOver(cid: Cid, t: Token)                   // ... or to remove a token
    | Open(ch: Channel)                                // a SOCKS request of the server itself
    | Close(ch: Channel)
    | CleanupTask(token: Token)                        // a scheduled clean-up of the cache

  // ---------------------------------------------------------------- the dispatchers

  /** The registry after an operation; forgotten connector tokens lose their history. */
  function WithRegistry(w: World, reg: Registry): World {
    w.(reg := reg, adders := map ct | ct in w.adders && ct in reg.names.connectors :: w.adders[ct])
  }

  function Note(w: World, x: Sent): World {
    w.(log := w.log + [x])
  }

  /** A Connect goes to the next connection of the captured token, and the channel joins the two.
      When the token has lost its lock the dispatcher ends. */
  function Connected(w: World, c: Conn, ch: Channel): World
    requires c in w.serving
  {
    var rt := w.serving[c].target;
    if rt !in w.reg.names.locks then w
    else
      var (reg, picked) := PickNext(w.reg, rt);
      if picked.None? then Note(w.(reg := reg), Sent(ToConnector, Response, ch, c, c))
      else
        Note(w.(reg := reg, cache := C.Added(w.cache, ch, c, picked.value, rt)),
            Sent(ToClient, Connect, ch, c, picked.value))
  }

  /** Data and Disconnect follow the channel; the other kinds are ignored. */
  function ConnectorSays(w: World, kind: Kind, ch: Channel, c: Conn): World
    requires c in w.serving
  {
    var known := ch in w.cache.toClient;
    match kind
    case Connect => Connected(w, c, ch)
    case Data => if known then Note(w, Sent(ToClient, Data, ch, c, w.cache.toClient[ch])) else w
    case Disconnect =>
      var passed := if known then Note(w, Sent(ToClient, Disconnect, ch, c, w.cache.toClient[ch])) else w;
      passed.(ending := w.ending + multiset{ch})
    case Response => w
  }

  /** Data and ConnectResponse go to the server's own request or to the connector; a Disconnect
      ends only the server's own request. */
  function ClientSays(w: World, kind: Kind, ch: Channel, r: Conn): World {
    if (kind == Data || kind == Response) && ch !in w.local && ch in w.cache.toConnector then
      Note(w, Sent(ToConnector, kind, ch, r, w.cache.toConnector[ch]))
    else
      w
  }

  function AddedOver(w: World, cid: Cid, ct: Token): World {
    if !MayManage(w.reg, cid) then w
    else
      var token := TokenOf(w.reg.members, cid).value;
      var reg := AddConnector(w.reg, ct, token);
      var d := WithRegistry(w, reg);
      if ct in w.reg.names.connectors || ct !in reg.names.connectors then d else d.(adders := d.adders[ct := cid])
  }

  ghost function Apply(w: World, step: Step): World {
    match step
    case Reg(e) => WithRegistry(w, R.Apply(w.reg, e))
    case Serve(cid) =>
      if cid in w.reg.members.logins && w.reg.members.logins[cid].token in w.reg.names.connectors then
        var ct := w.reg.members.logins[cid].token;
        w.(serving := w.serving[w.reg.members.logins[cid].ws :=
             Serving(ct, w.reg.names.connectors[ct], if ct in w.adders then Some(w.adders[ct]) else None)])
      else w
    case FromConnector(kind, ch, c) => if c in w.serving then ConnectorSays(w, kind, ch, c) else w
    case Drop(ch) =>
      if ch in w.ending then w.(cache := C.Removed(w.cache, ch), ending := w.ending - multiset{ch}) else w
    case FromClient(kind, ch, r) => ClientSays(w, kind, ch, r)
    case AddOver(cid, ct) => AddedOver(w, cid, ct)
    case RemoveOver(cid, t) => if MayManage(w.reg, cid) then WithRegistry(w, R.Remove(w.reg, t)) else w
    case Open(ch) => w.(local := w.local + {ch})
    case Close(ch) => w.(local := w.local - {ch})
    case CleanupTask(t) =>
      if t in w.reg.jobs.cleanups then
        w.(cache := C.Cleaned(w.cache, t), reg := w.reg.(jobs := w.reg.jobs.(cleanups := w.reg.jobs.cleanups - {t})))
      else w
  }

  /** Some dispatcher still routes requests to the token. */
  ghost predicate Captured(w: World, t: Token) {
    exists c :: c in w.serving && w.serving[c].target == t
  }

  /** What the environment is assumed to respect: registry operations as before, a new connector token
      not being a name still in use for routing; a dispatcher starts once per connection, on a
      connector's login. */
  ghost predicate Enabled(w: World, step: Step) {
    match step
    case Reg(e) => R.Enabled(w.reg, e) && (e.EAddConnector? ==> e.token !in w.cache.lists && !Captured(w, e.token))
    case Serve(cid) =>
      cid in w.reg.members.logins && !w.reg.members.logins[cid].reverse && w.reg.members.logins[cid].ws !in w.serving
    case AddOver(_, ct) => R.Enabled(w.reg, EAddConnector(ct, "")) && ct !in w.cache.lists && !Captured(w, ct)
    case _ => true
  }

  ghost predicate Runs(w: World, steps: seq<Step>)
    decreases |steps|
  {
    steps != [] ==> Enabled(w, steps[0]) && Runs(Apply(w, steps[0]), steps[1..])
  }

  ghost function Run(w: World, steps: seq<Step>): World
    decreases |steps|
  {
    if steps == [] then w else Run(Apply(w, steps[0]), steps[1..])
  }

  /** Adding a connector token forgets no history. */
  lemma AddedOverExactly(w: World, cid: Cid, ct: Token)
    requires w.adders.Keys <= w.reg.names.connectors.Keys && MayManage(w.reg, cid)
    ensures var reg := AddConnector(w.reg, ct, TokenOf(w.reg.members, cid).value);
            var added := ct !in w.reg.names.connectors && ct in reg.names.connectors;
            AddedOver(w, cid, ct) == w.(reg := reg, adders := if added then w.adders[ct := cid] else w.adders)
  {
    var reg := AddConnector(w.reg, ct, TokenOf(w.reg.members, cid).value);
    assert WithRegistry(w, reg).adders == w.adders;
  }

  // ---------------------------------------------------------------- channel affinity

  /** The channel joins connector c and reverse connection r. */
  predicate Joins(w: World, ch: Channel, c: Conn, r: Conn) {
    ch in w.cache.toClient && ch in w.cache.toConnector && w.cache.toClient[ch] == r && w.cache.toConnector[ch] == c
  }

  /** The connection a Connect of c would be passed on to. */
  function Choice(w: World, c: Conn): Option<Conn> {
    if c in w.serving && w.serving[c].target in w.reg.names.locks then PickNext(w.reg, w.serving[c].target).1 else None
  }

  /** The steps that take a channel away from the two connections it joins: its removal, the clean-up
      of a token it is listed under, and another Connect on it. */
  ghost predicate Breaks(w: World, step: Step, ch: Channel, c: Conn, r: Conn) {
    match step
    case Drop(x) => x == ch && ch in w.ending
    case CleanupTask(t) => t in w.reg.jobs.cleanups && C.ListedAt(w.cache, t, ch)
    case FromConnector(kind, x, c2) =>
      kind == Connect && x == ch && Choice(w, c2).Some? && (c2, Choice(w, c2).value) != (c, r)
    case _ => false
  }

  lemma CleanupBreaks(w: World, t: Token, ch: Channel, c: Conn, r: Conn)
    requires Joins(w, ch, c, r) && t in w.reg.jobs.cleanups
    ensures Joins(Apply(w, CleanupTask(t)), ch, c, r) <==> !C.ListedAt(w.cache, t, ch)
  {
    assert C.ListedAt(w.cache, t, ch) <==> ch in C.Elements(C.Listed(w.cache.lists, t));
  }

  lemma ConnectBreaks(w: World, x: Channel, c2: Conn, ch: Channel, c: Conn, r: Conn)
    requires Joins(w, ch, c, r) && c2 in w.serving
    ensures Joins(Connected(w, c2, x), ch, c, r)
            <==> !(x == ch && Choice(w, c2).Some? && (c2, Choice(w, c2).value) != (c, r))
  {
  }

  /** No other step does, and each of these does. */
  lemma AffinityExactly(w: World, step: Step, ch: Channel, c: Conn, r: Conn)
    requires Joins(w, ch, c, r)
    ensures Joins(Apply(w, step), ch, c, r) <==> !Breaks(w, step, ch, c, r)
  {
    match step {
      case CleanupTask(t) => if t in w.reg.jobs.cleanups { CleanupBreaks(w, t, ch, c, r); }
      case FromConnector(kind, x, c2) => if kind == Connect && c2 in w.serving { ConnectBreaks(w, x, c2, ch, c, r); }
      case _ =>
    }
  }

  /** A message on the channel other than a Connect or a refusal goes to the connection it joins. */
  predicate Follows(x: Sent, ch: Channel, c: Conn, r: Conn) {
    x.ch == ch ==> x.to == if x.direction == ToClient then r else c
  }

  /** No step breaks the channel, and no second Connect is made on it. */
  ghost predicate Undisturbed(w: World, steps: seq<Step>, ch: Channel, c: Conn, r: Conn)
    decreases |steps|
  {
    steps != [] ==>
      && !Breaks(w, steps[0], ch, c, r)
      && !(steps[0].FromConnector? && steps[0].kind == Connect && steps[0].ch == ch)
      && Undisturbed(Apply(w, steps[0]), steps[1..], ch, c, r)
  }

  lemma StepFollows(w: World, step: Step, ch: Channel, c: Conn, r: Conn)
    requires Joins(w, ch, c, r) && !(step.FromConnector? && step.kind == Connect && step.ch == ch)
    ensures w.log <= Apply(w, step).log
    ensures forall i | |w.log| <= i < |Apply(w, step).log| :: Follows(Apply(w, step).log[i], ch, c, r)
  {
  }

  /** Channel affinity: whatever other channels, the round robin, joins, removals and clean-ups do,
      until it is broken every message on the channel is passed on to the same two connections. */
  lemma {:induction false} ChannelAffinity(w: World, steps: seq<Step>, ch: Channel, c: Conn, r: Conn)
    requires Joins(w, ch, c, r) && Undisturbed(w, steps, ch, c, r)
    ensures Joins(Run(w, steps), ch, c, r) && w.log <= Run(w, steps).log
    ensures forall i | |w.log| <= i < |Run(w, steps).log| :: Follows(Run(w, steps).log[i], ch, c, r)
    decreases |steps|
  {
    if steps != [] {
      var v := Apply(w, steps[0]);
      AffinityExactly(w, steps[0], ch, c, r);
      StepFollows(w, steps[0], ch, c, r);
      ChannelAffinity(v, steps[1..], ch, c, r);
      var end := Run(v, steps[1..]);
      assert forall i | |w.log| <= i < |v.log| :: end.log[i] == v.log[i];
    }
  }

  /** The messages of one channel among those passed on. */
  function Traffic(log: seq<Sent>, ch: Channel): seq<Sent> {
    if log == [] then [] else (if log[0].ch == ch then [log[0]] else []) + Traffic(log[1..], ch)
  }

  /** What a step receives on a channel that joins c and r, as it should be passed on; what comes in
      for a request of the server's own is not. */
  function Received(w: World, step: Step, ch: Channel, c: Conn, r: Conn): seq<Sent> {
    match step
    case FromConnector(kind, x, from) =>
      if x == ch && from in w.serving && (kind == Data || kind == Disconnect) then
        [Sent(ToClient, kind, ch, from, r)]
      else []
    case FromClient(kind, x, from) =>
      if x == ch && (kind == Data || kind == Response) && ch !in w.local then
        [Sent(ToConnector, kind, ch, from, c)]
      else []
    case _ => []
  }

  ghost function AllReceived(w: World, steps: seq<Step>, ch: Channel, c: Conn, r: Conn): seq<Sent>
    decreases |steps|
  {
    if steps == [] then []
    else Received(w, steps[0], ch, c, r) + AllReceived(Apply(w, steps[0]), steps[1..], ch, c, r)
  }

  lemma {:induction false} TrafficAppend(log: seq<Sent>, more: seq<Sent>, ch: Channel)
    ensures Traffic(log + more, ch) == Traffic(log, ch) + Traffic(more, ch)
  {
    if log == [] {
      assert [] + more == more;
    } else {
      assert (log + more)[1..] == log[1..] + more;
      TrafficAppend(log[1..], more, ch);
      InOrder(if log[0].ch == ch then [log[0]] else [], Traffic(log[1..], ch), Traffic(more, ch));
    }
  }

  lemma TrafficOfOne(x: Sent, ch: Channel)
    ensures Traffic([x], ch) == if x.ch == ch then [x] else []
  {
    assert [x][1..] == [];
  }

  /** A step passes on at most one message. */
  lemma OneMessage(w: World, step: Step)
    ensures w.log <= Apply(w, step).log && |Apply(w, step).log| <= |w.log| + 1
  {
  }

  /** On a channel that joins c and r it is the one received, if any. */
  lemma TheMessage(w: World, step: Step, ch: Channel, c: Conn, r: Conn)
    requires Joins(w, ch, c, r)
    requires !(step.FromConnector? && step.kind == Connect && step.ch == ch)
    ensures var n, log := |w.log|, Apply(w, step).log;
            Received(w, step, ch, c, r) == if |log| > n && log[n].ch == ch then [log[n]] else []
  {
  }

  lemma TrafficGrows(before: seq<Sent>, after: seq<Sent>, ch: Channel)
    requires before <= after && |after| <= |before| + 1
    ensures var n := |before|;
            Traffic(after, ch) == Traffic(before, ch) + if |after| > n && after[n].ch == ch then [after[n]] else []
  {
    var n := |before|;
    if |after| == n {
      assert after == before && Traffic(before, ch) + [] == Traffic(before, ch);
    } else {
      assert after == before + [after[n]];
      TrafficAppend(before, [after[n]], ch);
      TrafficOfOne(after[n], ch);
    }
  }

  /** One step passes on what it receives on the channel, and nothing else on it. */
  lemma StepPassesOn(w: World, step: Step, ch: Channel, c: Conn, r: Conn)
    requires Joins(w, ch, c, r)
    requires !(step.FromConnector? && step.kind == Connect && step.ch == ch)
    ensures Traffic(Apply(w, step).log, ch) == Traffic(w.log, ch) + Received(w, step, ch, c, r)
  {
    OneMessage(w, step);
    TheMessage(w, step, ch, c, r);
    TrafficGrows(w.log, Apply(w, step).log, ch);
  }

  lemma InOrder(a: seq<Sent>, b: seq<Sent>, c: seq<Sent>)
    ensures a + b + c == a + (b + c)
  {
  }

  /** A channel is a pipe: until it is broken, what is passed on over it is exactly what was received
      on it, in the same order, from connectors to r and from reverse clients to c. */
  lemma {:induction false} ChannelIsPipe(w: World, steps: seq<Step>, ch: Channel, c: Conn, r: Conn)
    requires Joins(w, ch, c, r) && Undisturbed(w, steps, ch, c, r)
    ensures Traffic(Run(w, steps).log, ch) == Traffic(w.log, ch) + AllReceived(w, steps, ch, c, r)
    decreases |steps|
  {
    if steps != [] {
      AffinityExactly(w, steps[0], ch, c, r);
      StepPassesOn(w, steps[0], ch, c, r);
      ChannelIsPipe(Apply(w, steps[0]), steps[1..], ch, c, r);
      InOrder(Traffic(w.log, ch), Received(w, steps[0], ch, c, r),
          AllReceived(Apply(w, steps[0]), steps[1..], ch, c, r));
    }
  }

  /** A message that goes from one of the two connections to the other. */
  predicate Between(x: Sent, c: Conn, r: Conn) {
    if x.direction == ToClient then x.from == c && x.to == r else x.from == r && x.to == c
  }

  /** Whatever is received on the channel and passed on comes from the two connections. */
  predicate OwnStep(w: World, step: Step, ch: Channel, c: Conn, r: Conn) {
    match step
    case FromConnector(kind, x, from) =>
      x == ch && from in w.serving && (kind == Data || kind == Disconnect) ==> from == c
    case FromClient(kind, x, from) => x == ch && ch !in w.local && (kind == Data || kind == Response) ==> from == r
    case _ => true
  }

  ghost predicate OwnSteps(w: World, steps: seq<Step>, ch: Channel, c: Conn, r: Conn)
    decreases |steps|
  {
    steps != [] ==> OwnStep(w, steps[0], ch, c, r) && OwnSteps(Apply(w, steps[0]), steps[1..], ch, c, r)
  }

  predicate AllBetween(xs: seq<Sent>, c: Conn, r: Conn) {
    forall x <- xs :: Between(x, c, r)
  }

  lemma OneBetween(w: World, step: Step, ch: Channel, c: Conn, r: Conn)
    ensures AllBetween(Received(w, step, ch, c, r), c, r) <==> OwnStep(w, step, ch, c, r)
  {
    var now := Received(w, step, ch, c, r);
    if now != [] {
      assert now == [now[0]] && now[0] in now;
      assert AllBetween(now, c, r) <==> Between(now[0], c, r);
    }
  }

  lemma BothBetween(xs: seq<Sent>, ys: seq<Sent>, c: Conn, r: Conn)
    ensures AllBetween(xs + ys, c, r) <==> AllBetween(xs, c, r) && AllBetween(ys, c, r)
  {
    assert forall x :: x in xs + ys <==> x in xs || x in ys;
  }

  lemma {:induction false} ReceivedBetween(w: World, steps: seq<Step>, ch: Channel, c: Conn, r: Conn)
    ensures AllBetween(AllReceived(w, steps, ch, c, r), c, r) <==> OwnSteps(w, steps, ch, c, r)
    decreases |steps|
  {
    if steps != [] {
      OneBetween(w, steps[0], ch, c, r);
      ReceivedBetween(Apply(w, steps[0]), steps[1..], ch, c, r);
      BothBetween(Received(w, steps[0], ch, c, r), AllReceived(Apply(w, steps[0]), steps[1..], ch, c, r), c, r);
    }
  }

  lemma SameRest(a: seq<Sent>, x: seq<Sent>, y: seq<Sent>)
    requires a + x == a + y
    ensures x == y
  {
    assert (a + x)[|a|..] == x && (a + y)[|a|..] == y;
  }

  /** The server does not look at the sender: the traffic of an undisturbed channel is between the two
      connections if and only if nobody else sends on it. */
  lemma PrivateExactly(w: World, steps: seq<Step>, ch: Channel, c: Conn, r: Conn)
    requires Joins(w, ch, c, r) && Undisturbed(w, steps, ch, c, r)
    ensures w.log <= Run(w, steps).log
    ensures AllBetween(Traffic(Run(w, steps).log[|w.log|..], ch), c, r) <==> OwnSteps(w, steps, ch, c, r)
  {
    ChannelAffinity(w, steps, ch, c, r);
    ChannelIsPipe(w, steps, ch, c, r);
    ReceivedBetween(w, steps, ch, c, r);
    var more := Run(w, steps).log[|w.log|..];
    assert Run(w, steps).log == w.log + more;
    TrafficAppend(w.log, more, ch);
    SameRest(Traffic(w.log, ch), Traffic(more, ch), AllReceived(w, steps, ch, c, r));
  }

  /** Any connector and any reverse client is heard on any channel, and a stranger's Disconnect ends it. */
  lemma StrangersAreHeard(w: World, ch: Channel, c: Conn, r: Conn, stranger: Conn)
    requires Joins(w, ch, c, r) && stranger in w.serving && stranger != c && stranger != r
    ensures Undisturbed(w, [FromConnector(Data, ch, stranger)], ch, c, r)
    ensures Apply(w, FromConnector(Data, ch, stranger)).log == w.log + [Sent(ToClient, Data, ch, stranger, r)]
    ensures ch !in w.local ==>
              Apply(w, FromClient(Data, ch, stranger)).log == w.log + [Sent(ToConnector, Data, ch, stranger, c)]
    ensures !Joins(Apply(Apply(w, FromConnector(Disconnect, ch, stranger)), Drop(ch)), ch, c, r)
  {
    assert [FromConnector(Data, ch, stranger)][1..] == [];
  }

  lemma {:induction false} RunsThen(w: World, steps: seq<Step>, step: Step)
    requires Runs(w, steps) && Enabled(Run(w, steps), step)
    ensures Runs(w, steps + [step]) && Run(w, steps + [step]) == Apply(Run(w, steps), step)
    decreases |steps|
  {
    if steps == [] {
      assert steps + [step] == [step] && [step][1..] == [];
    } else {
      assert (steps + [step])[1..] == steps[1..] + [step];
      RunsThen(Apply(w, steps[0]), steps[1..], step);
    }
  }

  /** A Connect that is passed on makes its channel join the two connections. */
  lemma ConnectJoins(w: World, c: Conn, ch: Channel)
    requires c in w.serving && Choice(w, c).Some?
    ensures var v := Apply(w, FromConnector(Connect, ch, c));
            Joins(v, ch, c, Choice(w, c).value)
            && v.log == w.log + [Sent(ToClient, Connect, ch, c, Choice(w, c).value)]
  {
  }

  /** A channel from its Connect on: until it is broken, the traffic is that Connect and then exactly what
      is received, each message on its way to c or to the connection the Connect was given; it is between
      these two if and only if nobody else sends on the channel. */
  lemma FromConnectOn(w: World, ch: Channel, c: Conn, steps: seq<Step>)
    requires c in w.serving && Choice(w, c).Some?
    requires Undisturbed(Apply(w, FromConnector(Connect, ch, c)), steps, ch, c, Choice(w, c).value)
    ensures var v, r := Apply(w, FromConnector(Connect, ch, c)), Choice(w, c).value;
            var end := Run(v, steps);
            && Joins(end, ch, c, r) && v.log <= end.log
            && Traffic(end.log, ch)
               == Traffic(w.log, ch) + [Sent(ToClient, Connect, ch, c, r)] + AllReceived(v, steps, ch, c, r)
            && (forall x <- Traffic(end.log[|v.log|..], ch) :: Follows(x, ch, c, r))
            && (AllBetween(Traffic(end.log[|v.log|..], ch), c, r) <==> OwnSteps(v, steps, ch, c, r))
  {
    var v, r := Apply(w, FromConnector(Connect, ch, c)), Choice(w, c).value;
    ConnectJoins(w, c, ch);
    ChannelAffinity(v, steps, ch, c, r);
    ChannelIsPipe(v, steps, ch, c, r);
    PrivateExactly(v, steps, ch, c, r);
    var first := Sent(ToClient, Connect, ch, c, r);
    TrafficAppend(w.log, [first], ch);
    TrafficOfOne(first, ch);
    TrafficWithin(Run(v, steps).log[|v.log|..], ch);
  }

  lemma {:induction false} TrafficWithin(log: seq<Sent>, ch: Channel)
    ensures forall x <- Traffic(log, ch) :: x in log
  {
    if log != [] {
      TrafficWithin(log[1..], ch);
    }
  }

  /** Channels are listed, and requests routed, under reverse tokens only. */
  ghost predicate ListedUnderReverse(w: World) {
    && (forall t <- w.cache.lists :: t !in w.reg.names.connectors)
    && (forall t <- w.reg.names.connectors :: !Captured(w, t))
  }

  // ---------------------------------------------------------------- autonomy routing

  /** A connector token added over a reverse connection leads to the instance it presented. */
  ghost predicate AddersOk(w: World) {
    forall ct <- w.adders ::
      && ct in w.reg.names.connectors && w.adders[ct] in w.reg.members.logins
      && w.reg.names.connectors[ct] in w.reg.names.instances
      && w.reg.members.logins[w.adders[ct]].inst == w.reg.names.connectors[ct]
  }

  /** ... and so does the dispatcher of a connector that logged in with such a token. */
  ghost predicate ServingOk(w: World) {
    forall c <- w.serving :: w.serving[c].adder.Some? ==>
      && w.serving[c].adder.value in w.reg.members.logins && w.serving[c].target in w.reg.names.instances
      && w.reg.members.logins[w.serving[c].adder.value].inst == w.serving[c].target
  }

  /** Some login of the connection presented the instance id. */
  ghost predicate Presented(m: Members, to: Conn, inst: Token) {
    exists cid :: cid in m.logins && m.logins[cid].ws == to && m.logins[cid].inst == inst
  }

  /** Where one passed-on Connect may have gone. */
  ghost predicate RoutedOk(w: World, x: Sent) {
    x.kind == Connect ==>
      && x.from in w.serving
      && (w.serving[x.from].adder.Some? ==> Presented(w.reg.members, x.to, w.serving[x.from].target))
  }

  ghost predicate LogOk(w: World) {
    forall x <- w.log :: RoutedOk(w, x)
  }

  ghost predicate RecordsOk(w: World) {
    AddersOk(w) && ServingOk(w) && LogOk(w)
  }

  /** No registry operation forgets a login or an instance id, or changes where a connector token
      leads while it stays registered. */
  ghost predicate Grows(s: Registry, d: Registry) {
    && s.names.instances <= d.names.instances
    && (forall cid <- s.members.logins :: cid in d.members.logins && d.members.logins[cid] == s.members.logins[cid])
    && (forall ct <- s.names.connectors ::
          ct in d.names.connectors ==> d.names.connectors[ct] == s.names.connectors[ct])
  }

  lemma EventGrows(s: Registry, e: Event)
    requires R.Enabled(s, e)
    ensures Grows(s, R.Apply(s, e))
  {
  }

  lemma PickGrows(s: Registry, t: Token)
    ensures Grows(s, PickNext(s, t).0)
  {
  }

  /** A registry that only grows keeps what has been recorded. */
  lemma GrowingKeeps(w: World, reg: Registry)
    requires RecordsOk(w) && Grows(w.reg, reg)
    ensures RecordsOk(WithRegistry(w, reg))
  {
    var d := WithRegistry(w, reg);
    forall x <- d.log ensures RoutedOk(d, x) {
      assert RoutedOk(w, x);
      if x.kind == Connect && w.serving[x.from].adder.Some? {
        var cid :| cid in w.reg.members.logins && w.reg.members.logins[cid].ws == x.to
                   && w.reg.members.logins[cid].inst == w.serving[x.from].target;
        assert cid in reg.members.logins && reg.members.logins[cid] == w.reg.members.logins[cid];
      }
    }
  }

  /** The round robin of an instance picks a connection that presented it. */
  lemma PickPresented(s: Registry, t: Token)
    requires Inv(s) && t in s.names.instances && PickNext(s, t).1.Some?
    ensures Presented(s.members, PickNext(s, t).1.value, t)
  {
    var list := ListOf(s.members, t);
    var x := list[RoundRobin.Advance(StoredIndex(s.members, t), |list|)];
    assert ListOk(s.members, t) && EntryOk(s.members, t, x);
    assert KindOk(s.names, s.members.logins[x.cid]);
  }

  lemma NoteKeeps(w: World, x: Sent)
    requires LogOk(w) && RoutedOk(w, x)
    ensures LogOk(Note(w, x))
  {
    forall y <- Note(w, x).log ensures RoutedOk(Note(w, x), y) {
      assert y in w.log || y == x;
      assert RoutedOk(w, y);
    }
  }

  lemma SameLog(w: World, d: World)
    requires LogOk(w) && d.log == w.log && d.serving == w.serving && d.reg.members == w.reg.members
    ensures LogOk(d)
  {
    forall x <- d.log ensures RoutedOk(d, x) {
      assert RoutedOk(w, x);
    }
  }

  /** Passing on a Connect. */
  lemma ConnectKeeps(w: World, c: Conn, ch: Channel)
    requires Inv(w.reg) && RecordsOk(w) && c in w.serving
    ensures RecordsOk(Connected(w, c, ch))
  {
    var rt := w.serving[c].target;
    if rt in w.reg.names.locks {
      var (reg, picked) := PickNext(w.reg, rt);
      PickGrows(w.reg, rt);
      GrowingKeeps(w, reg);
      var d := w.(reg := reg);
      SameLog(WithRegistry(w, reg), d);
      if picked.None? {
        NoteKeeps(d, Sent(ToConnector, Response, ch, c, c));
      } else {
        if w.serving[c].adder.Some? { PickPresented(w.reg, rt); }
        var v := d.(cache := C.Added(w.cache, ch, c, picked.value, rt));
        SameLog(d, v);
        NoteKeeps(v, Sent(ToClient, Connect, ch, c, picked.value));
      }
    }
  }

  /** A connection that may manage connectors is in the list of the instance it presented. */
  lemma ManagersPresented(s: Registry, cid: Cid)
    requires Inv(s) && MayManage(s, cid)
    ensures var login := s.members.logins[cid]; login.token in s.names.instances && login.inst == login.token
  {
    assert KindOk(s.names, s.members.logins[cid]);
  }

  lemma RecordKeeps(w: World, cid: Cid, ct: Token)
    requires RecordsOk(w) && ct in w.reg.names.connectors && w.reg.names.connectors[ct] in w.reg.names.instances
    requires cid in w.reg.members.logins && w.reg.members.logins[cid].inst == w.reg.names.connectors[ct]
    ensures RecordsOk(w.(adders := w.adders[ct := cid]))
  {
    SameLog(w, w.(adders := w.adders[ct := cid]));
  }

  lemma AddOverKeeps(w: World, cid: Cid, ct: Token)
    requires Inv(w.reg) && RecordsOk(w) && Enabled(w, AddOver(cid, ct))
    ensures RecordsOk(AddedOver(w, cid, ct))
  {
    if MayManage(w.reg, cid) {
      ManagersPresented(w.reg, cid);
      var token := TokenOf(w.reg.members, cid).value;
      RegistryKeeps(w, EAddConnector(ct, token));
      if token != "" && token in w.reg.names.tokens && ct !in w.reg.names.connectors {
        RecordKeeps(WithRegistry(w, AddConnector(w.reg, ct, token)), cid, ct);
      }
    }
  }

  lemma RegistryKeeps(w: World, e: Event)
    requires RecordsOk(w) && R.Enabled(w.reg, e)
    ensures RecordsOk(WithRegistry(w, R.Apply(w.reg, e)))
  {
    EventGrows(w.reg, e);
    GrowingKeeps(w, R.Apply(w.reg, e));
  }

  lemma ServeKeeps(w: World, cid: Cid)
    requires RecordsOk(w) && Enabled(w, Serve(cid))
    ensures RecordsOk(Apply(w, Serve(cid)))
  {
    var d := Apply(w, Serve(cid));
    forall x <- d.log ensures RoutedOk(d, x) {
      assert RoutedOk(w, x);
    }
  }

  /** Messages other than Connect. */
  lemma MessageKeeps(w: World, step: Step)
    requires RecordsOk(w) && (step.FromClient? || (step.FromConnector? && step.kind != Connect))
    ensures RecordsOk(Apply(w, step))
  {
    var d := Apply(w, step);
    if d.log != w.log {
      NoteKeeps(w, d.log[|w.log|]);
      SameLog(Note(w, d.log[|w.log|]), d);
    } else {
      SameLog(w, d);
    }
  }

  lemma QuietKeeps(w: World, step: Step)
    requires RecordsOk(w) && (step.Drop? || step.Open? || step.Close? || step.CleanupTask?)
    ensures RecordsOk(Apply(w, step))
  {
    SameLog(w, Apply(w, step));
  }

  lemma StepKeepsRecords(w: World, step: Step)
    requires Inv(w.reg) && RecordsOk(w) && Enabled(w, step)
    ensures RecordsOk(Apply(w, step))
  {
    match step {
      case Reg(e) => RegistryKeeps(w, e);
      case Serve(cid) => ServeKeeps(w, cid);
      case FromConnector(kind, ch, c) =>
        if c in w.serving {
          if kind == Connect { ConnectKeeps(w, c, ch); } else { MessageKeeps(w, step); }
        }
      case FromClient(_, _, _) => MessageKeeps(w, step);
      case AddOver(cid, ct) => AddOverKeeps(w, cid, ct);
      case RemoveOver(cid, t) => RegistryKeeps(w, ERemove(t));
      case _ => QuietKeeps(w, step);
    }
  }

  /** The registry operation a step performs, if any. */
  function EventOf(w: World, step: Step): Option<Event> {
    match step
    case Reg(e) => Some(e)
    case FromConnector(Connect, _, c) =>
      if c in w.serving && w.serving[c].target in w.reg.names.locks then Some(EPickNext(w.serving[c].target)) else None
    case AddOver(cid, ct) =>
      if MayManage(w.reg, cid) then Some(EAddConnector(ct, TokenOf(w.reg.members, cid).value)) else None
    case RemoveOver(cid, t) => if MayManage(w.reg, cid) then Some(ERemove(t)) else None
    case _ => None
  }

  /** Besides that a step changes nothing in the registry but the scheduled clean-ups. */
  lemma StepIsEvent(w: World, step: Step)
    requires Enabled(w, step)
    ensures EventOf(w, step).Some? ==>
              R.Enabled(w.reg, EventOf(w, step).value) && Apply(w, step).reg == R.Apply(w.reg, EventOf(w, step).value)
    ensures EventOf(w, step).None? ==> Apply(w, step).reg.(jobs := w.reg.jobs) == w.reg
  {
  }

  lemma StepKeepsRegistry(w: World, step: Step)
    requires Inv(w.reg) && Enabled(w, step)
    ensures Inv(Apply(w, step).reg) && Grows(w.reg, Apply(w, step).reg)
  {
    StepIsEvent(w, step);
    if EventOf(w, step).Some? {
      StepKeepsInv(w.reg, EventOf(w, step).value);
      EventGrows(w.reg, EventOf(w, step).value);
    }
  }

  lemma {:induction false} RunKeepsWorld(w: World, steps: seq<Step>)
    requires Inv(w.reg) && RecordsOk(w) && ListedUnderReverse(w) && Runs(w, steps)
    ensures var v := Run(w, steps); Inv(v.reg) && RecordsOk(v) && ListedUnderReverse(v)
    decreases |steps|
  {
    if steps != [] {
      StepKeepsRecords(w, steps[0]);
      StepKeepsListed(w, steps[0]);
      StepKeepsRegistry(w, steps[0]);
      RunKeepsWorld(Apply(w, steps[0]), steps[1..]);
    }
  }

  /** Autonomy routing: after any run, every Connect of a connector that logged in with a token added
      over a reverse connection has gone to a connection that presented the same instance id. */
  lemma AutonomyRouting(pool: set<int>, steps: seq<Step>)
    requires Runs(Begin(pool), steps)
    ensures var w := Run(Begin(pool), steps);
            forall x <- w.log :: x.kind == Connect && x.from in w.serving && w.serving[x.from].adder.Some? ==>
              && w.serving[x.from].adder.value in w.reg.members.logins
              && Presented(w.reg.members, x.to, w.reg.members.logins[w.serving[x.from].adder.value].inst)
  {
    StartInv(pool);
    RunKeepsWorld(Begin(pool), steps);
    var w := Run(Begin(pool), steps);
    forall x <- w.log | x.kind == Connect && x.from in w.serving && w.serving[x.from].adder.Some?
      ensures w.serving[x.from].adder.value in w.reg.members.logins
              && Presented(w.reg.members, x.to, w.reg.members.logins[w.serving[x.from].adder.value].inst)
    {
      assert RoutedOk(w, x);
    }
  }

  /** In every state of the run the connector token is registered. */
  ghost predicate Stays(w: World, steps: seq<Step>, ct: Token)
    decreases |steps|
  {
    ct in w.reg.names.connectors && (steps != [] ==> Stays(Apply(w, steps[0]), steps[1..], ct))
  }

  /** A connector token is never rebound while it exists. */
  lemma {:induction false} NeverRebound(w: World, steps: seq<Step>, ct: Token)
    requires Inv(w.reg) && Runs(w, steps) && Stays(w, steps, ct)
    ensures ct in Run(w, steps).reg.names.connectors
            && Run(w, steps).reg.names.connectors[ct] == w.reg.names.connectors[ct]
    decreases |steps|
  {
    if steps != [] {
      StepKeepsRegistry(w, steps[0]);
      NeverRebound(Apply(w, steps[0]), steps[1..], ct);
    }
  }

  // ---------------------------------------------------------------- stale channels

  /** New connector tokens are names not in use for routing. */
  lemma NewConnectors(w: World, step: Step, ct: Token)
    requires Enabled(w, step) && ct in Apply(w, step).reg.names.connectors
    ensures ct in w.reg.names.connectors || (ct !in w.cache.lists && !Captured(w, ct))
  {
    StepIsEvent(w, step);
  }

  /** Channels are listed under captured tokens. */
  lemma NewLists(w: World, step: Step, t: Token)
    requires t in Apply(w, step).cache.lists
    ensures t in w.cache.lists || Captured(w, t)
  {
  }

  /** Tokens are captured from connector tokens. */
  lemma NewCaptures(w: World, step: Step, t: Token)
    requires Captured(Apply(w, step), t)
    ensures Captured(w, t) || (step.Serve? && t in w.reg.names.connectors.Values)
  {
    var d := Apply(w, step);
    var c :| c in d.serving && d.serving[c].target == t;
    if c in w.serving && w.serving[c].target == t {
      assert Captured(w, t);
    }
  }

  /** Every step keeps channels listed under reverse tokens only. */
  lemma StepKeepsListed(w: World, step: Step)
    requires Inv(w.reg) && ListedUnderReverse(w) && Enabled(w, step)
    ensures ListedUnderReverse(Apply(w, step))
  {
    var d := Apply(w, step);
    forall t <- d.cache.lists ensures t !in d.reg.names.connectors {
      NewLists(w, step, t);
      if t in d.reg.names.connectors { NewConnectors(w, step, t); }
    }
    forall t <- d.reg.names.connectors ensures !Captured(d, t) {
      NewConnectors(w, step, t);
      if Captured(d, t) {
        NewCaptures(w, step, t);
      }
    }
  }

  lemma IdleCleanup(w: World, ct: Token)
    requires ListedUnderReverse(w) && ct in w.reg.names.connectors
    ensures var removed := Apply(w, Reg(ERemove(ct)));
            ct in removed.reg.jobs.cleanups && Apply(removed, CleanupTask(ct)).cache == w.cache
  {
    assert C.Elements(C.Listed(w.cache.lists, ct)) == {};
    assert w.cache.lists - {ct} == w.cache.lists;
    assert w.cache.toClient - {} == w.cache.toClient && w.cache.toConnector - {} == w.cache.toConnector;
  }

  /** The clean-up scheduled by the removal of a connector token drops no channel: channels are kept
      under the reverse token, so those of the connector stay until a Disconnect. */
  lemma ConnectorRemovalKeepsChannels(pool: set<int>, steps: seq<Step>, ct: Token)
    requires Runs(Begin(pool), steps) && ct in Run(Begin(pool), steps).reg.names.connectors
    ensures var w := Run(Begin(pool), steps);
            var removed := Apply(w, Reg(ERemove(ct)));
            ct in removed.reg.jobs.cleanups && Apply(removed, CleanupTask(ct)).cache == w.cache
  {
    StartInv(pool);
    RunKeepsWorld(Begin(pool), steps);
    IdleCleanup(Run(Begin(pool), steps), ct);
  }

  // ---------------------------------------------------------------- what can break a channel

  /** The reverse token each channel has been used under. */
  function HomesAfter(w: World, homes: map<Channel, Token>, step: Step): map<Channel, Token> {
    match step
    case FromConnector(Connect, ch, c) =>
      if c in w.serving && Choice(w, c).Some? then homes[ch := w.serving[c].target] else homes
    case _ => homes
  }

  /** Channel ids are fresh: a Connect names one that has not been used. */
  predicate FreshStep(homes: map<Channel, Token>, step: Step) {
    step.FromConnector? && step.kind == Connect ==> step.ch !in homes
  }

  ghost predicate FreshRun(w: World, homes: map<Channel, Token>, steps: seq<Step>)
    decreases |steps|
  {
    steps != [] ==>
      && FreshStep(homes, steps[0])
      && FreshRun(Apply(w, steps[0]), HomesAfter(w, homes, steps[0]), steps[1..])
  }

  ghost function AllHomes(w: World, homes: map<Channel, Token>, steps: seq<Step>): map<Channel, Token>
    decreases |steps|
  {
    if steps == [] then homes else AllHomes(Apply(w, steps[0]), HomesAfter(w, homes, steps[0]), steps[1..])
  }

  /** The token of a live channel is the one its connector's dispatcher routes to. */
  ghost predicate LiveHomed(w: World, homes: map<Channel, Token>) {
    forall ch <- w.cache.toConnector ::
      ch in homes && w.cache.toConnector[ch] in w.serving && w.serving[w.cache.toConnector[ch]].target == homes[ch]
  }

  lemma StepKeepsLive(w: World, homes: map<Channel, Token>, step: Step)
    requires LiveHomed(w, homes) && Enabled(w, step) && FreshStep(homes, step)
    ensures LiveHomed(Apply(w, step), HomesAfter(w, homes, step))
  {
  }

  lemma StepKeepsHomed(w: World, homes: map<Channel, Token>, step: Step)
    requires C.AllHomed(w.cache, homes) && FreshStep(homes, step)
    ensures C.AllHomed(Apply(w, step).cache, HomesAfter(w, homes, step))
  {
    var d := Apply(w, step);
    forall t, ch | C.ListedAt(d.cache, t, ch)
      ensures ch in HomesAfter(w, homes, step) && HomesAfter(w, homes, step)[ch] == t
    {
      NewlyListed(w, step, t, ch);
    }
  }

  /** A channel is newly listed only by the Connect that is passed on. */
  lemma NewlyListed(w: World, step: Step, t: Token, ch: Channel)
    requires C.ListedAt(Apply(w, step).cache, t, ch)
    ensures C.ListedAt(w.cache, t, ch)
            || (step.FromConnector? && step.kind == Connect && step.ch == ch && step.c in w.serving
                && Choice(w, step.c).Some? && w.serving[step.c].target == t)
  {
  }

  lemma {:induction false} RunKeepsHomes(w: World, homes: map<Channel, Token>, steps: seq<Step>)
    requires C.AllHomed(w.cache, homes) && LiveHomed(w, homes) && Runs(w, steps) && FreshRun(w, homes, steps)
    ensures C.AllHomed(Run(w, steps).cache, AllHomes(w, homes, steps))
        && LiveHomed(Run(w, steps), AllHomes(w, homes, steps))
    decreases |steps|
  {
    if steps != [] {
      StepKeepsHomed(w, homes, steps[0]);
      StepKeepsLive(w, homes, steps[0]);
      RunKeepsHomes(Apply(w, steps[0]), HomesAfter(w, homes, steps[0]), steps[1..]);
    }
  }

  /** No Disconnect arrives on the channel and its token's channels are not cleaned up. */
  predicate Spared(step: Step, ch: Channel, t: Token) {
    !(step.FromConnector? && step.kind == Disconnect && step.ch == ch) && step != CleanupTask(t)
  }

  lemma SparedStep(w: World, homes: map<Channel, Token>, step: Step, ch: Channel, c: Conn, r: Conn)
    requires C.AllHomed(w.cache, homes) && LiveHomed(w, homes) && FreshStep(homes, step) && Enabled(w, step)
    requires Joins(w, ch, c, r) && ch !in w.ending && Spared(step, ch, homes[ch])
    ensures !Breaks(w, step, ch, c, r) && !(step.FromConnector? && step.kind == Connect && step.ch == ch)
    ensures ch !in Apply(w, step).ending && ch in HomesAfter(w, homes, step)
        && HomesAfter(w, homes, step)[ch] == homes[ch]
  {
  }

  lemma {:induction false} SparedRun(w: World, homes: map<Channel, Token>, steps: seq<Step>,
                                     ch: Channel, c: Conn, r: Conn)
    requires C.AllHomed(w.cache, homes) && LiveHomed(w, homes) && FreshRun(w, homes, steps) && Runs(w, steps)
    requires Joins(w, ch, c, r) && ch !in w.ending && forall step <- steps :: Spared(step, ch, homes[ch])
    ensures Undisturbed(w, steps, ch, c, r)
    decreases |steps|
  {
    if steps != [] {
      assert steps[0] in steps && forall step <- steps[1..] :: step in steps;
      SparedStep(w, homes, steps[0], ch, c, r);
      AffinityExactly(w, steps[0], ch, c, r);
      StepKeepsHomed(w, homes, steps[0]);
      StepKeepsLive(w, homes, steps[0]);
      SparedRun(Apply(w, steps[0]), HomesAfter(w, homes, steps[0]), steps[1..], ch, c, r);
    }
  }

  /** Over runs with fresh channel ids only a Disconnect on the channel, or a clean-up of the very token
      its requests are routed to, takes a channel from its two connections: the removal of any other
      token, the end of connections and all traffic of other channels leave it alone. */
  lemma OnlyDisconnectOrOwnCleanup(pool: set<int>, before: seq<Step>, later: seq<Step>, ch: Channel, c: Conn, r: Conn)
    requires Runs(Begin(pool), before) && FreshRun(Begin(pool), map[], before)
    requires var w, homes := Run(Begin(pool), before), AllHomes(Begin(pool), map[], before);
             && Runs(w, later) && FreshRun(w, homes, later) && Joins(w, ch, c, r) && ch !in w.ending && c in w.serving
             && (forall step <- later :: Spared(step, ch, w.serving[c].target))
    ensures var w := Run(Begin(pool), before); Undisturbed(w, later, ch, c, r) && Joins(Run(w, later), ch, c, r)
  {
    var w, homes := Run(Begin(pool), before), AllHomes(Begin(pool), map[], before);
    assert forall t, x :: !C.ListedAt(Begin(pool).cache, t, x);
    RunKeepsHomes(Begin(pool), map[], before);
    SparedRun(w, homes, later, ch, c, r);
    ChannelAffinity(w, later, ch, c, r);
  }

  lemma {:induction false} NoDisconnectDown(w: World, steps: seq<Step>)
    requires forall x <- w.log :: !(x.direction == ToConnector && x.kind == Disconnect)
    ensures forall x <- Run(w, steps).log :: !(x.direction == ToConnector && x.kind == Disconnect)
    decreases |steps|
  {
    if steps != [] {
      OneMessage(w, steps[0]);
      NoDisconnectDown(Apply(w, steps[0]), steps[1..]);
    }
  }

  /** A connector is never told that a channel has ended. */
  lemma ConnectorsHearNoDisconnect(pool: set<int>, steps: seq<Step>)
    ensures forall x <- Run(Begin(pool), steps).log :: !(x.direction == ToConnector && x.kind == Disconnect)
  {
    NoDisconnectDown(Begin(pool), steps);
  }

  // ---------------------------------------------------------------- a stranger

  /** An autonomy token and one connection of its instance ... */
  lemma OneReverseClient(options: Options) returns (steps: seq<Step>)
    requires options.manage
    ensures Runs(Begin({}), steps)
    ensures var w := Run(Begin({}), steps);
            && w.reg.names.connectors == map[] && "i" in w.reg.names.tokens && "i" in w.reg.names.locks
            && "c" !in w.reg.names.tokens && "c" !in w.reg.names.instances
            && w.serving == map[] && w.cache.lists == map[]
            && ListOf(w.reg.members, "i") == [Entry(0, 10)] && w.reg.members.logins.Keys == {0}
  {
    var add, login := Reg(EAddReverse("t", None, options, None)), Reg(EReverseLogin("t", "i", 0, 10));
    steps := [];
    RunsThen(Begin({}), steps, add);
    steps := steps + [add];
    assert Manages(Run(Begin({}), steps).reg.names, "t");
    RunsThen(Begin({}), steps, login);
    steps := steps + [login];
    assert [] + [Entry(0, 10)] == [Entry(0, 10)];
  }

  /** ... and a connector token for it. */
  lemma OneConnectorToken(options: Options) returns (steps: seq<Step>)
    requires options.manage
    ensures Runs(Begin({}), steps)
    ensures var w := Run(Begin({}), steps);
            && w.reg.names.connectors == map["c" := "i"] && "i" in w.reg.names.locks && w.serving == map[]
            && ListOf(w.reg.members, "i") == [Entry(0, 10)] && w.reg.members.logins.Keys == {0}
  {
    steps := OneReverseClient(options);
    RunsThen(Begin({}), steps, Reg(EAddConnector("c", "i")));
    steps := steps + [Reg(EAddConnector("c", "i"))];
  }

  /** A connector logs in and is served. */
  lemma AnotherConnector(before: seq<Step>, cid: Cid, ws: Conn) returns (steps: seq<Step>)
    requires Runs(Begin({}), before) && ws !in Run(Begin({}), before).serving
    requires var w := Run(Begin({}), before);
             && w.reg.names.connectors == map["c" := "i"] && cid !in w.reg.members.logins
             && "i" in w.reg.names.locks && ListOf(w.reg.members, "i") == [Entry(0, 10)]
    ensures Runs(Begin({}), steps)
    ensures var v, w := Run(Begin({}), before), Run(Begin({}), steps);
            && w.reg.names == v.reg.names && ListOf(w.reg.members, "i") == [Entry(0, 10)]
            && w.reg.members.logins.Keys == v.reg.members.logins.Keys + {cid}
            && w.serving.Keys == v.serving.Keys + {ws} && w.serving[ws].target == "i"
            && (forall c <- v.serving :: w.serving[c] == v.serving[c])
  {
    RunsThen(Begin({}), before, Reg(EConnectorLogin("c", cid, ws)));
    steps := before + [Reg(EConnectorLogin("c", cid, ws))];
    RunsThen(Begin({}), steps, Serve(cid));
    steps := steps + [Serve(cid)];
  }

  /** Two connectors: on the channel of one, the other is heard. */
  lemma StrangerHeard(options: Options) returns (steps: seq<Step>)
    requires options.manage
    ensures Runs(Begin({}), steps)
    ensures var w := Run(Begin({}), steps);
            && Joins(w, 5, 11, 10) && 12 in w.serving
            && Undisturbed(w, [FromConnector(Data, 5, 12)], 5, 11, 10)
            && Apply(w, FromConnector(Data, 5, 12)).log == w.log + [Sent(ToClient, Data, 5, 12, 10)]
            && !Joins(Apply(Apply(w, FromConnector(Disconnect, 5, 12)), Drop(5)), 5, 11, 10)
  {
    steps := OneConnectorToken(options);
    steps := AnotherConnector(steps, 1, 11);
    steps := AnotherConnector(steps, 2, 12);
    var w := Run(Begin({}), steps);
    assert Choice(w, 11) == Some(10);
    ConnectJoins(w, 11, 5);
    RunsThen(Begin({}), steps, FromConnector(Connect, 5, 11));
    steps := steps + [FromConnector(Connect, 5, 11)];
    StrangersAreHeard(Run(Begin({}), steps), 5, 11, 10, 12);
  }
}
