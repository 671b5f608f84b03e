/** The server's registry as a value: tokens, ports, locks, connector tokens, instance tokens and
    the lists of registered connections, with what every server operation does to them. */
module Registry {
  import opened Bytes
  import PortPool
  import RoundRobin

  type Token = string
  type Cid = nat
  type Conn = nat

  const NO_PORT := -1

  datatype Options = Options(username: Option<string>, password: Option<string>, manage: bool)

  /** A registered connection in the list of a token. */
  datatype Entry = Entry(cid: Cid, ws: Conn)

  /** The record of one authentication: the list the connection was put in, the instance id it
      presented, and whether it serves requests (a reverse client) or makes them (a connector). */
  datatype Login = Login(token: Token, ws: Conn, inst: Token, reverse: bool)

  /** Who may log in.  `instances` is a history: every instance id ever set up. */
  datatype Names = Names(
    tokens: map<Token, int>, options: map<Token, Options>, locks: set<Token>,
    connectors: map<Token, Token>, internals: map<Token, seq<Token>>, instances: set<Token>)

  /** Who is logged in.  `arriving` are reverse connections whose SOCKS server is being started.
      The last three are histories: every login, the logins still registered, and those whose
      connection has been cleaned up. */
  datatype Members = Members(
    lists: map<Token, seq<Entry>>, indexes: map<Token, nat>, clients: map<Cid, Conn>, arriving: map<Cid, Conn>,
    logins: map<Cid, Login>, live: set<Cid>, gone: set<Cid>)

  /** The ports in use and the ports with an entry for a SOCKS server.  `dead` are the entries whose
      server has ended by itself; the program keeps them. */
  datatype Ports = Ports(pool: set<int>, used: set<int>, tasks: set<int>, dead: set<int>)

  datatype Forward = Forward(tokens: set<Token>, clients: map<Cid, Conn>)

  /** Scheduled jobs: connections to close and tokens whose cached channels to drop. */
  datatype Jobs = Jobs(closing: set<Conn>, cleanups: set<Token>)

  datatype Registry = Registry(names: Names, members: Members, ports: Ports, forward: Forward, jobs: Jobs)

  function Start(pool: set<int>): Registry {
    Registry(Names(map[], map[], {}, map[], map[], {}), Members(map[], map[], map[], map[], map[], {}, {}),
             Ports(pool, {}, {}, {}), Forward({}, map[]), Jobs({}, {}))
  }

  // ---------------------------------------------------------------- small pieces

  function ListOf(m: Members, t: Token): seq<Entry> {
    if t in m.lists then m.lists[t] else []
  }

  function InternalsOf(n: Names, t: Token): set<Token> {
    if t in n.internals then set i | i in n.internals[t] else {}
  }

  predicate Manages(n: Names, t: Token) {
    t in n.options && n.options[t].manage
  }

  /** The connections in the lists of the given tokens. */
  ghost function Cids(lists: map<Token, seq<Entry>>, ts: set<Token>): set<Cid> {
    set t, x | t in ts && t in lists && x in lists[t] :: x.cid
  }

  ghost function Sockets(lists: map<Token, seq<Entry>>, ts: set<Token>): set<Conn> {
    set t, x | t in ts && t in lists && x in lists[t] :: x.ws
  }

  /** Forget the lists of the given tokens and the connections in them. */
  ghost function Dropped(m: Members, ts: set<Token>): Members {
    m.(lists := m.lists - ts, clients := m.clients - Cids(m.lists, ts), live := m.live - Cids(m.lists, ts))
  }

  /** Put a new login at the end of a token's list. */
  function Joined(m: Members, cid: Cid, login: Login): Members {
    m.(lists := m.lists[login.token := ListOf(m, login.token) + [Entry(cid, login.ws)]],
       logins := m.logins[cid := login], live := m.live + {cid})
  }

  function Others(list: seq<Entry>, cid: Cid): (r: seq<Entry>)
    ensures |r| <= |list|
  {
    if list == [] then []
    else (if list[0].cid != cid then [list[0]] else []) + Others(list[1..], cid)
  }

  /** A connection has ended: take it out of its list, and the list away when it becomes empty. */
  function Left(m: Members, cid: Cid, t: Token): Members {
    var rest := Others(ListOf(m, t), cid);
    var lists := if t !in m.lists then m.lists else if rest == [] then m.lists - {t} else m.lists[t := rest];
    var indexes := if t in m.lists && rest == [] then m.indexes - {t} else m.indexes;
    Members(lists, indexes, m.clients - {cid}, m.arriving - {cid}, m.logins, m.live - {cid}, m.gone + {cid})
  }

  function StoredIndex(m: Members, t: Token): nat {
    if t in m.indexes then m.indexes[t] else 0
  }

  /** A token registered with its options and its lock. */
  function Registered(n: Names, t: Token, port: int, options: Options): Names {
    n.(tokens := n.tokens[t := port], locks := n.locks + {t}, options := n.options[t := options])
  }

  /** The token of one instance of a token that may manage connectors. */
  function SetUp(n: Names, t: Token, inst: Token): Names
    requires t in n.options
  {
    var known := if t in n.internals then n.internals[t] else [];
    Registered(n, inst, NO_PORT, n.options[t]).(internals := n.internals[t := known + [inst]],
                                                instances := n.instances + {inst})
  }

  /** The connector tokens that lead to a reverse token. */
  ghost function Bound(n: Names, t: Token): set<Token> {
    set ct | ct in n.connectors && n.connectors[ct] == t
  }

  /** A reverse token takes its instance tokens and its connector tokens with it; the locks of the
      instance tokens stay, even that of a token that is an instance of its own. */
  ghost function Unregistered(n: Names, t: Token): Names {
    var own := {t} + InternalsOf(n, t);
    Names(n.tokens - own, n.options - own, n.locks - ({t} - InternalsOf(n, t)), n.connectors - Bound(n, t),
          n.internals - {t}, n.instances)
  }

  // ---------------------------------------------------------------- the operations

  function AddReverse(s: Registry, t: Token, options: Options, granted: Option<int>): Registry {
    if t in s.names.tokens then s
    else if options.manage then s.(names := Registered(s.names, t, NO_PORT, options))
    else if granted.None? then s
    else
      var taken := s.ports.(used := s.ports.used + {granted.value});
      if granted.value == 0 then s.(ports := taken)
      else s.(ports := taken, names := Registered(s.names, t, granted.value, options))
  }

  function AddConnector(s: Registry, ct: Token, rt: Token): Registry {
    if rt == "" || rt !in s.names.tokens || ct in s.names.connectors then s
    else s.(names := s.names.(connectors := s.names.connectors[ct := rt]))
  }

  ghost function RemoveConnector(s: Registry, ct: Token): Registry {
    s.(members := Dropped(s.members, {ct}), names := s.names.(connectors := s.names.connectors - {ct}),
       jobs := Jobs(s.jobs.closing + Sockets(s.members.lists, {ct}), s.jobs.cleanups + {ct}))
  }

  /** The tokens whose connections a reverse token takes with it. */
  ghost function Doomed(n: Names, t: Token): set<Token> {
    {t} + InternalsOf(n, t) + Bound(n, t)
  }

  function Freed(ports: Ports, port: int): Ports {
    ports.(used := ports.used - {port}, tasks := ports.tasks - {port}, dead := ports.dead - {port})
  }

  /** A token that is an instance of its own is gone before its port is looked up: the removal raises
      there, and what is left of it does not happen. */
  ghost function RemoveReverse(s: Registry, t: Token): Registry
    requires t in s.names.tokens
  {
    var doomed, port := Doomed(s.names, t), s.names.tokens[t];
    var m := Dropped(s.members, doomed);
    s.(names := Unregistered(s.names, t),
       members := m.(indexes := m.indexes - ({t} + InternalsOf(s.names, t))),
       ports := if t in InternalsOf(s.names, t) then s.ports else Freed(s.ports, port),
       jobs := Jobs(s.jobs.closing + Sockets(s.members.lists, doomed), s.jobs.cleanups + Bound(s.names, t) + {t}))
  }

  /** Removing any forward token disconnects every forward client. */
  function RemoveForward(s: Registry, t: Token): Registry {
    s.(forward := Forward(s.forward.tokens - {t}, map[]),
       jobs := s.jobs.(closing := s.jobs.closing + s.forward.clients.Values))
  }

  /** How a removal ends. */
  datatype Outcome = Answered(found: bool) | Raised

  /** The removal of the token raises. */
  predicate Raises(n: Names, t: Token) {
    t !in n.connectors && t in n.tokens && t in InternalsOf(n, t)
  }

  ghost function Remove(s: Registry, t: Token): Registry {
    if t in s.names.connectors then RemoveConnector(s, t)
    else if t in s.names.tokens then RemoveReverse(s, t)
    else if t in s.forward.tokens then RemoveForward(s, t)
    else s
  }

  /** The part of a reverse login that runs without suspension.  A token that may manage connectors
      serves each instance under a token of its own. */
  function ReverseLogin(s: Registry, t: Token, inst: Token, cid: Cid, ws: Conn): Registry {
    if t !in s.names.tokens then s
    else if Manages(s.names, t) then
      var m := s.members.(indexes := s.members.indexes[inst := 0]);
      var joined := Joined(m, cid, Login(inst, ws, inst, true));
      s.(names := SetUp(s.names, t, inst), members := joined.(clients := joined.clients[cid := ws]))
    else
      var joined := Joined(s.members, cid, Login(t, ws, inst, true));
      var port := s.names.tokens[t];
      s.(members := joined.(arriving := joined.arriving[cid := ws]),
         ports := s.ports.(tasks := if port > 0 then s.ports.tasks + {port} else s.ports.tasks))
  }

  /** ... and its end, once the SOCKS server is up. */
  function FinishLogin(s: Registry, cid: Cid): Registry {
    if cid !in s.members.arriving then s
    else
      s.(members := s.members.(clients := s.members.clients[cid := s.members.arriving[cid]],
                               arriving := s.members.arriving - {cid}))
  }

  function ConnectorLogin(s: Registry, ct: Token, cid: Cid, ws: Conn): Registry {
    if ct !in s.names.connectors then s
    else
      var joined := Joined(s.members, cid, Login(ct, ws, "", false));
      s.(members := joined.(clients := joined.clients[cid := ws]))
  }

  /** A connection has ended.  Under the empty token nothing is cleaned up. */
  function Cleanup(s: Registry, cid: Cid): Registry {
    if cid !in s.members.logins || s.members.logins[cid].token == "" then s
    else s.(members := Left(s.members, cid, s.members.logins[cid].token))
  }

  /** Round robin: the connection the next request of a token goes to. */
  function PickNext(s: Registry, t: Token): (Registry, Option<Conn>) {
    if ListOf(s.members, t) == [] then (s, None)
    else
      var list := ListOf(s.members, t);
      var next := RoundRobin.Advance(StoredIndex(s.members, t), |list|);
      (s.(members := s.members.(indexes := s.members.indexes[t := next])), Some(list[next].ws))
  }

  /** The SOCKS server of a token added while the server is not waiting for clients. */
  function StartTask(s: Registry, t: Token): Registry {
    if t in s.names.tokens && s.names.tokens[t] != 0 then
      s.(ports := s.ports.(tasks := s.ports.tasks + {s.names.tokens[t]}))
    else
      s
  }

  /** A SOCKS server ends by itself: its socket cannot be bound, or accepting fails. */
  function SocksServerEnds(s: Registry, port: int): Registry {
    if port in s.ports.tasks then s.(ports := s.ports.(dead := s.ports.dead + {port})) else s
  }

  /** The token in whose list a connection is. */
  function TokenOf(m: Members, cid: Cid): Option<Token> {
    if cid in m.live && cid in m.logins then Some(m.logins[cid].token) else None
  }

  predicate MayManage(s: Registry, cid: Cid) {
    var t := TokenOf(s.members, cid);
    t.Some? && t.value != "" && Manages(s.names, t.value)
  }

  function AddForward(s: Registry, t: Token): Registry {
    s.(forward := s.forward.(tokens := s.forward.tokens + {t}))
  }

  function ForwardLogin(s: Registry, t: Token, cid: Cid, ws: Conn): Registry {
    if t in s.forward.tokens then s.(forward := s.forward.(clients := s.forward.clients[cid := ws])) else s
  }

  // ---------------------------------------------------------------- events

  datatype Event =
    | EAddReverse(token: Token, request: Option<int>, options: Options, granted: Option<int>)
    | EAddConnector(token: Token, target: Token)
    | EAddForward(token: Token)
    | ERemove(token: Token)
    | EReverseLogin(token: Token, inst: Token, cid: Cid, ws: Conn)
    | EFinishLogin(cid: Cid)
    | EConnectorLogin(token: Token, cid: Cid, ws: Conn)
    | EForwardLogin(token: Token, cid: Cid, ws: Conn)
    | ECleanup(cid: Cid)
    | EPickNext(token: Token)
    | EStartTask(token: Token)
    | ESocksServerEnds(port: int)

  ghost function Apply(s: Registry, e: Event): Registry {
    match e
    case EAddReverse(t, _, options, granted) => AddReverse(s, t, options, granted)
    case EAddConnector(ct, rt) => AddConnector(s, ct, rt)
    case EAddForward(t) => AddForward(s, t)
    case ERemove(t) => Remove(s, t)
    case EReverseLogin(t, inst, cid, ws) => ReverseLogin(s, t, inst, cid, ws)
    case EFinishLogin(cid) => FinishLogin(s, cid)
    case EConnectorLogin(ct, cid, ws) => ConnectorLogin(s, ct, cid, ws)
    case EForwardLogin(t, cid, ws) => ForwardLogin(s, t, cid, ws)
    case ECleanup(cid) => Cleanup(s, cid)
    case EPickNext(t) => PickNext(s, t).0
    case EStartTask(t) => StartTask(s, t)
    case ESocksServerEnds(port) => SocksServerEnds(s, port)
  }

  /** The pool can answer the request with neither 0 nor the mark for "no port". */
  predicate PlainRequest(ports: Ports, request: Option<int>) {
    match request
    case Some(port) => port in ports.used || (port != 0 && port != NO_PORT)
    case None => forall port <- {0, NO_PORT} :: port in ports.pool ==> port in ports.used
  }

  /** What the environment is assumed to respect: the port granted is one the pool may grant for a
      plain request; new token names are not names of another kind; an instance id is not the name of a
      token, unless the token presented with it; connection ids are fresh. */
  ghost predicate Enabled(s: Registry, e: Event) {
    match e
    case EAddReverse(t, request, options, granted) =>
      && t !in s.names.connectors && t !in s.names.instances
      && (t !in s.names.tokens && !options.manage ==>
            PortPool.Granted(s.ports.pool, s.ports.used, request, granted,
                             AddReverse(s, t, options, granted).ports.used)
            && PlainRequest(s.ports, request))
    case EAddConnector(ct, _) => ct !in s.names.tokens && ct !in s.names.instances
    case EReverseLogin(t, inst, cid, _) =>
      && cid !in s.members.logins && (Manages(s.names, t) ==>
           inst !in s.names.connectors && (inst in s.names.tokens && inst != t ==> inst in s.names.instances))
    case EConnectorLogin(_, cid, _) => cid !in s.members.logins
    case _ => true
  }

  ghost predicate Runs(s: Registry, events: seq<Event>)
    decreases |events|
  {
    events != [] ==> Enabled(s, events[0]) && Runs(Apply(s, events[0]), events[1..])
  }

  ghost function Run(s: Registry, events: seq<Event>): Registry
    decreases |events|
  {
    if events == [] then s else Run(Apply(s, events[0]), events[1..])
  }

  // ---------------------------------------------------------------- the invariant

  /** Tokens, options and locks go together, but for the locks of instances; every connector token
      leads to a lock, and unless it leads to an instance token its target is still registered. */
  ghost predicate KeysOk(n: Names) {
    && n.tokens.Keys == n.options.Keys
    && n.tokens.Keys <= n.locks <= n.tokens.Keys + n.instances
    && (forall ct <- n.connectors :: n.connectors[ct] in n.locks)
    && (forall ct <- n.connectors :: n.connectors[ct] in n.tokens || n.connectors[ct] in n.instances)
  }

  ghost predicate Internal(n: Names, p: Token, i: Token) {
    p in n.internals && i in n.internals[p]
  }

  /** The kinds of names stay apart. */
  ghost predicate NamesOk(n: Names) {
    && (forall ct <- n.connectors :: ct !in n.tokens && ct !in n.instances)
    && (forall p, i :: Internal(n, p, i) ==> i in n.instances)
    && (forall i <- n.tokens :: i in n.instances ==> Manages(n, i))
  }

  ghost predicate Holds(n: Names, t: Token, p: int) {
    t in n.tokens && n.tokens[t] == p
  }

  ghost predicate Held(n: Names, p: int) {
    exists t :: Holds(n, t, p)
  }

  /** A token has no port exactly when it manages connectors. */
  ghost predicate MarksOk(n: Names) {
    forall t <- n.tokens :: Manages(n, t) <==> n.tokens[t] == NO_PORT
  }

  /** The ports in use are exactly the ports tokens hold, each held by one token. */
  ghost predicate UsedOk(n: Names, used: set<int>) {
    && (forall p :: p in used <==> p != NO_PORT && Held(n, p))
    && (forall p, t, u :: Holds(n, t, p) && Holds(n, u, p) && p != NO_PORT ==> t == u)
  }

  /** ... and no SOCKS server outlives the token whose port it serves. */
  ghost predicate PortsOk(n: Names, ports: Ports) {
    MarksOk(n) && UsedOk(n, ports.used) && ports.tasks <= ports.used + {NO_PORT} && ports.dead <= ports.tasks
  }

  ghost predicate Distinct(list: seq<Entry>) {
    forall j, k | 0 <= j < k < |list| :: list[j].cid != list[k].cid
  }

  /** One entry of a list belongs to a registered login of that very list. */
  ghost predicate EntryOk(m: Members, t: Token, x: Entry) {
    x.cid in m.logins && x.cid in m.live && m.logins[x.cid].token == t && m.logins[x.cid].ws == x.ws
  }

  ghost predicate ListOk(m: Members, t: Token)
    requires t in m.lists
  {
    m.lists[t] != [] && Distinct(m.lists[t]) && (forall x <- m.lists[t] :: EntryOk(m, t, x))
  }

  /** A registered login is in its list. */
  ghost predicate LoginListed(m: Members, cid: Cid) {
    cid in m.logins && Entry(cid, m.logins[cid].ws) in ListOf(m, m.logins[cid].token)
  }

  /** No list is empty; every registered connection is in exactly one list, once. */
  ghost predicate ListsOk(m: Members) {
    && (forall t <- m.lists :: ListOk(m, t))
    && (forall cid <- m.live :: LoginListed(m, cid))
    && m.live !! m.gone
  }

  /** A connection that has been cleaned up is nowhere; one that is registered is in the client map
      or still on its way there. */
  ghost predicate ClientsOk(m: Members) {
    && (forall cid <- m.clients :: cid in m.logins && cid !in m.gone)
    && (forall cid <- m.arriving :: cid in m.logins && cid !in m.gone)
    && (forall cid <- m.live :: cid in m.clients || cid in m.arriving)
    && (forall cid <- m.gone :: cid in m.logins)
  }

  /** Registered logins serve registered tokens: reverse clients a reverse token, connectors a
      connector token; the list of an instance holds only connections that presented it, and the
      token under which a connection may manage connectors is its instance. */
  ghost predicate KindOk(n: Names, login: Login) {
    && (if login.reverse then login.token in n.tokens else login.token in n.connectors)
    && (login.token in n.instances ==> login.inst == login.token)
    && (login.reverse && Manages(n, login.token) ==> login.token in n.instances)
  }

  ghost predicate KindsOk(n: Names, m: Members) {
    forall cid <- m.live :: cid in m.logins && KindOk(n, m.logins[cid])
  }

  ghost predicate Inv(s: Registry) {
    && KeysOk(s.names) && NamesOk(s.names) && PortsOk(s.names, s.ports)
    && ListsOk(s.members) && ClientsOk(s.members) && KindsOk(s.names, s.members)
  }
}
