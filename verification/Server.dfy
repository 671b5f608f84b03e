/** The server's registry as the program keeps it: dictionaries updated in place.  Each method is
    proved to take the registry, as a value, to the result of the operation of the same name. */
module Server {
  import opened Bytes
  import opened Registry
  import opened RegistryInvariant
  import PortPool

  lemma MinusTwice<K, V>(m: map<K, V>, a: set<K>, b: set<K>)
    ensures m - a - b == m - (a + b)
  {
  }

  /** One more element has been visited. */
  lemma Visited<T>(all: set<T>, rest: set<T>, x: T)
    requires x in rest
    ensures all - (rest - {x}) == if x in all then all - rest + {x} else all - rest
  {
  }

  lemma MinusNothing<K, V>(m: map<K, V>, a: set<K>)
    requires m.Keys !! a
    ensures m - a == m
  {
  }

  ghost function CidsIn(list: seq<Entry>): set<Cid> {
    set x | x in list :: x.cid
  }

  ghost function SocketsIn(list: seq<Entry>): set<Conn> {
    set x | x in list :: x.ws
  }

  lemma InMore(list: seq<Entry>, x: Entry)
    ensures CidsIn(list + [x]) == CidsIn(list) + {x.cid} && SocketsIn(list + [x]) == SocketsIn(list) + {x.ws}
  {
    assert forall y :: y in list + [x] <==> y in list || y == x;
  }

  lemma InOne(lists: map<Token, seq<Entry>>, t: Token)
    ensures Cids(lists, {t}) == (if t in lists then CidsIn(lists[t]) else {})
    ensures Sockets(lists, {t}) == (if t in lists then SocketsIn(lists[t]) else {})
  {
  }

  /** What closing the connections of a token changes. */
  datatype Floor = Floor(lists: map<Token, seq<Entry>>, clients: map<Cid, Conn>, live: set<Cid>, closing: set<Conn>)

  /** The connections of some tokens closed and forgotten. */
  ghost function Swept(f: Floor, ts: set<Token>): Floor {
    Floor(f.lists - ts, f.clients - Cids(f.lists, ts), f.live - Cids(f.lists, ts), f.closing + Sockets(f.lists, ts))
  }

  /** Closing in two goes is closing at once. */
  lemma SweptTwice(f: Floor, a: set<Token>, b: set<Token>)
    ensures Swept(Swept(f, a), b) == Swept(f, a + b)
  {
    MinusTwice(f.lists, a, b);
    assert Cids(f.lists, a) + Cids(f.lists - a, b) == Cids(f.lists, a + b);
    assert Sockets(f.lists, a) + Sockets(f.lists - a, b) == Sockets(f.lists, a + b);
    MinusTwice(f.clients, Cids(f.lists, a), Cids(f.lists - a, b));
  }

  lemma SweptNothing(f: Floor)
    ensures Swept(f, {}) == f
  {
  }

  /** What forgetting connector tokens changes. */
  datatype Links = Links(floor: Floor, connectors: map<Token, Token>, cleanups: set<Token>)

  ghost function Unlinked(l: Links, cts: set<Token>): Links {
    Links(Swept(l.floor, cts), l.connectors - cts, l.cleanups + cts)
  }

  lemma UnlinkedTwice(l: Links, a: set<Token>, b: set<Token>)
    ensures Unlinked(Unlinked(l, a), b) == Unlinked(l, a + b)
  {
    SweptTwice(l.floor, a, b);
    MinusTwice(l.connectors, a, b);
  }

  lemma UnlinkedNothing(l: Links)
    ensures Unlinked(l, {}) == l
  {
  }

  /** The floor of a registry replaced. */
  ghost function WithFloor(s: Registry, f: Floor): Registry {
    s.(members := s.members.(lists := f.lists, clients := f.clients, live := f.live),
        jobs := s.jobs.(closing := f.closing))
  }

  ghost function FloorOf(s: Registry): Floor {
    Floor(s.members.lists, s.members.clients, s.members.live, s.jobs.closing)
  }

  /** The first half of the removal of a reverse token: what depends on it ... */
  ghost function WithoutDependents(s: Registry, t: Token, own: set<Token>, bound: set<Token>): Registry {
    var f := WithFloor(s, Swept(FloorOf(s), own + bound));
    f.(names := s.names.(tokens := s.names.tokens - own, options := s.names.options - own,
                         connectors := s.names.connectors - bound, internals := s.names.internals - {t}),
       members := f.members.(indexes := s.members.indexes - own),
       jobs := f.jobs.(cleanups := s.jobs.cleanups + bound))
  }

  /** ... then its own connections, */
  ghost function WithoutClients(s: Registry, t: Token): Registry {
    var f := WithFloor(s, Swept(FloorOf(s), {t}));
    f.(jobs := f.jobs.(cleanups := s.jobs.cleanups + {t}))
  }

  /** its name, */
  function WithoutName(s: Registry, t: Token): Registry {
    s.(names := s.names.(tokens := s.names.tokens - {t}, options := s.names.options - {t},
        locks := s.names.locks - {t}),
       members := s.members.(indexes := s.members.indexes - {t}))
  }

  /** and its port. */
  function WithoutPort(s: Registry, port: int): Registry {
    s.(ports := Freed(s.ports, port))
  }

  /** The parts make the whole. */
  lemma Removal(s: Registry, t: Token)
    requires t in s.names.tokens
    ensures var most := WithoutClients(WithoutDependents(s, t, InternalsOf(s.names, t), Bound(s.names, t)), t);
            if t in InternalsOf(s.names, t) then
              t !in most.names.tokens && most == RemoveReverse(s, t)
            else
              && Holds(most.names, t, s.names.tokens[t])
              && WithoutPort(WithoutName(most, t), s.names.tokens[t]) == RemoveReverse(s, t)
  {
    var own, bound := InternalsOf(s.names, t), Bound(s.names, t);
    SweptTwice(FloorOf(s), own + bound, {t});
    assert own + bound + {t} == Doomed(s.names, t) && own + {t} == {t} + own;
    var most, r := WithoutClients(WithoutDependents(s, t, own, bound), t), RemoveReverse(s, t);
    if t in own {
      assert {t} - own == {} && own + {t} == own && s.names.locks - {} == s.names.locks;
      assert most.names == r.names;
      assert most.members == r.members;
    } else {
      var d := WithoutPort(WithoutName(most, t), s.names.tokens[t]);
      assert {t} - own == {t};
      MinusTwice(s.names.tokens, own, {t});
      MinusTwice(s.names.options, own, {t});
      MinusTwice(s.members.indexes, own, {t});
      assert d.names == r.names;
      assert d.members == r.members;
    }
  }

  // ---------------------------------------------------------------- counting

  lemma {:induction false} ListSize(list: seq<Entry>)
    requires Distinct(list)
    ensures |CidsIn(list)| == |list|
  {
    if list != [] {
      var rest := list[..|list| - 1];
      var last := list[|list| - 1];
      ListSize(rest);
      assert list == rest + [last];
      InMore(rest, last);
    }
  }

  lemma OneList(m: Members, t: Token)
    requires ListsOk(m)
    ensures |Cids(m.lists, {t})| == |ListOf(m, t)|
  {
    InOne(m.lists, t);
    if t in m.lists {
      assert ListOk(m, t);
    }
    ListSize(ListOf(m, t));
  }

  lemma CidsUnion(lists: map<Token, seq<Entry>>, ts: set<Token>, t: Token)
    ensures Cids(lists, ts + {t}) == Cids(lists, ts) + Cids(lists, {t})
  {
  }

  /** The lists of different tokens share no connection. */
  lemma OneMore(m: Members, ts: set<Token>, t: Token)
    requires ListsOk(m) && t !in ts
    ensures |Cids(m.lists, ts + {t})| == |Cids(m.lists, ts)| + |ListOf(m, t)|
  {
    var a, b := Cids(m.lists, ts), Cids(m.lists, {t});
    forall cid | cid in b ensures cid !in a {
      CidsExactly(m, ts, cid);
      CidsExactly(m, {t}, cid);
    }
    CidsUnion(m.lists, ts, t);
    OneList(m, t);
  }

  /** The connections that serve requests. */
  ghost function ReverseClients(m: Members): set<Cid> {
    set cid | cid in m.live && cid in m.logins && m.logins[cid].reverse
  }

  /** The connectors whose requests go to a reverse token. */
  ghost function ConnectorsOf(n: Names, m: Members, rt: Token): set<Cid> {
    set cid | cid in m.live && cid in m.logins && !m.logins[cid].reverse && m.logins[cid].token in Bound(n, rt)
  }

  lemma ReverseClientsListed(n: Names, m: Members)
    requires ListsOk(m) && KindsOk(n, m) && NamesOk(n)
    ensures Cids(m.lists, n.tokens.Keys) == ReverseClients(m)
  {
    forall cid ensures cid in Cids(m.lists, n.tokens.Keys) <==> cid in ReverseClients(m) {
      CidsExactly(m, n.tokens.Keys, cid);
      assert cid in m.live ==> KindOk(n, m.logins[cid]);
    }
  }

  lemma ConnectorsListed(n: Names, m: Members, rt: Token)
    requires ListsOk(m) && KindsOk(n, m) && NamesOk(n)
    ensures Cids(m.lists, Bound(n, rt)) == ConnectorsOf(n, m, rt)
  {
    forall cid ensures cid in Cids(m.lists, Bound(n, rt)) <==> cid in ConnectorsOf(n, m, rt) {
      CidsExactly(m, Bound(n, rt), cid);
      assert cid in m.live ==> KindOk(n, m.logins[cid]);
    }
  }

  class Server {
    const pool: PortPool.Pool
    var tokens: map<Token, int>
    var options: map<Token, Options>
    var locks: set<Token>
    var connectors: map<Token, Token>
    var internals: map<Token, seq<Token>>
    var lists: map<Token, seq<Entry>>
    var indexes: map<Token, nat>
    var clients: map<Cid, Conn>
    var tasks: set<int>
    var forwardTokens: set<Token>
    var forwardClients: map<Cid, Conn>
    var closing: set<Conn>
    var cleanups: set<Token>
    ghost var dead: set<int>
    ghost var instances: set<Token>
    ghost var arriving: map<Cid, Conn>
    ghost var logins: map<Cid, Login>
    ghost var live: set<Cid>
    ghost var gone: set<Cid>

    ghost function Who(): Names
      reads this
    {
      Names(tokens, options, locks, connectors, internals, instances)
    }

    ghost function Logged(): Members
      reads this
    {
      Members(lists, indexes, clients, arriving, logins, live, gone)
    }

    ghost function Room(): Floor
      reads this
    {
      Floor(lists, clients, live, closing)
    }

    ghost function Linked(): Links
      reads this
    {
      Links(Room(), connectors, cleanups)
    }

    ghost function Value(): Registry
      reads this, pool
    {
      Registry(Who(), Logged(), Ports(pool.ports, pool.used, tasks, dead), Forward(forwardTokens, forwardClients),
               Jobs(closing, cleanups))
    }

    constructor (pool: PortPool.Pool)
      requires pool.used == {}
      ensures this.pool == pool && Value() == Start(pool.ports)
    {
      this.pool := pool;
      tokens, options, locks, connectors, internals, instances := map[], map[], {}, map[], map[], {};
      lists, indexes, clients, arriving, logins, live, gone := map[], map[], map[], map[], map[], {}, {};
      tasks, dead, forwardTokens, forwardClients, closing, cleanups := {}, {}, {}, map[], {}, {};
    }

    // -------------------------------------------------------------- adding tokens

    method AddReverseToken(t: Token, request: Option<int>, opts: Options)
      returns (r: Option<(Token, int)>, ghost granted: Option<int>)
      modifies this`tokens, this`options, this`locks, pool
      ensures Value() == AddReverse(old(Value()), t, opts, granted)
      ensures t !in old(tokens) && !opts.manage ==>
                PortPool.Granted(pool.ports, old(pool.used), request, granted, pool.used)
      ensures r == if t in tokens then Some((t, tokens[t])) else None
    {
      granted := None;
      if t in tokens {
        return Some((t, tokens[t])), granted;
      }
      var port := NO_PORT;
      if opts.manage {
        tokens := tokens[t := NO_PORT];
        locks := locks + {t};
      } else {
        var got := pool.Get(request);
        granted := got;
        if got.None? || got.value == 0 {
          return None, granted;
        }
        port := got.value;
        tokens := tokens[t := port];
        locks := locks + {t};
      }
      options := options[t := opts];
      return Some((t, port)), granted;
    }

    method AddConnectorToken(ct: Token, rt: Token) returns (r: Option<Token>)
      modifies this`connectors
      ensures Value() == AddConnector(old(Value()), ct, rt)
      ensures r == if rt != "" && rt in old(tokens) && ct !in old(connectors) then Some(ct) else None
    {
      if rt == "" || rt !in tokens {
        return None;
      }
      if ct in connectors {
        return None;
      }
      connectors := connectors[ct := rt];
      return Some(ct);
    }

    // -------------------------------------------------------------- removing tokens

    method CloseListed(list: seq<Entry>)
      modifies this`clients, this`closing
      ensures clients == old(clients) - CidsIn(list) && closing == old(closing) + SocketsIn(list)
    {
      var i := 0;
      while i < |list|
        invariant 0 <= i <= |list|
        invariant clients == old(clients) - CidsIn(list[..i]) && closing == old(closing) + SocketsIn(list[..i])
      {
        closing := closing + {list[i].ws};
        if list[i].cid in clients {
          clients := clients - {list[i].cid};
        }
        InMore(list[..i], list[i]);
        MinusTwice(old(clients), CidsIn(list[..i]), {list[i].cid});
        assert list[..i + 1] == list[..i] + [list[i]];
        i := i + 1;
      }
      assert list[..i] == list;
    }

    /** Close every connection of a token and forget its list. */
    method CloseClients(t: Token)
      modifies this`lists, this`clients, this`closing, this`live
      ensures Room() == Swept(old(Room()), {t})
    {
      InOne(lists, t);
      if t in lists {
        CloseListed(lists[t]);
        live := live - CidsIn(lists[t]);
        lists := lists - {t};
      } else {
        MinusNothing(lists, {t});
        MinusNothing(clients, {});
      }
    }

    /** Forget a connector token that is registered. */
    method DropConnector(ct: Token)
      requires ct in connectors
      modifies this`connectors, this`lists, this`clients, this`closing, this`live, this`cleanups
      ensures Linked() == Unlinked(old(Linked()), {ct})
    {
      cleanups := cleanups + {ct};
      CloseClients(ct);
      connectors := connectors - {ct};
    }

    method RemoveConnectorToken(ct: Token) returns (found: bool)
      modifies this
      ensures found == (ct in old(connectors))
      ensures Value() == if found then RemoveConnector(old(Value()), ct) else old(Value())
    {
      if ct !in connectors {
        return false;
      }
      DropConnector(ct);
      return true;
    }

    /** Forget one instance token. */
    method DropInternal(inst: Token)
      modifies this`tokens, this`options, this`indexes, this`lists, this`clients, this`closing, this`live
      ensures Room() == Swept(old(Room()), {inst})
      ensures tokens == old(tokens) - {inst} && options == old(options) - {inst} && indexes == old(indexes) - {inst}
    {
      CloseClients(inst);
      tokens := tokens - {inst};
      indexes := indexes - {inst};
      options := options - {inst};
    }

    /** Forget the instance tokens of a token; the list may name one several times. */
    method DropInternals(t: Token)
      modifies this`tokens, this`options, this`indexes, this`internals, this`lists, this`clients, this`closing,
          this`live
      ensures var own := old(InternalsOf(Who(), t));
              && Room() == Swept(old(Room()), own) && internals == old(internals) - {t}
              && tokens == old(tokens) - own && options == old(options) - own && indexes == old(indexes) - own
    {
      if t in internals {
        var list := internals[t];
        ghost var own: set<Token> := {};
        SweptNothing(Room());
        var i := 0;
        while i < |list|
          invariant 0 <= i <= |list| && own == (set x | x in list[..i]) && internals == old(internals)
          invariant Room() == Swept(old(Room()), own)
          invariant tokens == old(tokens) - own && options == old(options) - own && indexes == old(indexes) - own
        {
          DropInternal(list[i]);
          SweptTwice(old(Room()), own, {list[i]});
          MinusTwice(old(tokens), own, {list[i]});
          MinusTwice(old(options), own, {list[i]});
          MinusTwice(old(indexes), own, {list[i]});
          own := own + {list[i]};
          assert list[..i + 1] == list[..i] + [list[i]];
          i := i + 1;
        }
        assert list[..i] == list;
        internals := internals - {t};
      } else {
        assert internals - {t} == internals;
      }
    }

    /** Forget the connector tokens that lead to a token. */
    method DropBound(t: Token, ghost bound: set<Token>)
      requires bound == Bound(Who(), t)
      modifies this`connectors, this`lists, this`clients, this`closing, this`live, this`cleanups
      ensures Linked() == Unlinked(old(Linked()), bound)
    {
      var all, rest := connectors, connectors.Keys;
      UnlinkedNothing(Linked());
      assert bound - rest == {};
      while rest != {}
        invariant rest <= all.Keys && Linked() == Unlinked(old(Linked()), bound - rest)
        decreases |rest|
      {
        var ct :| ct in rest;
        Visited(bound, rest, ct);
        if all[ct] == t {
          assert ct in connectors;
          UnlinkedTwice(old(Linked()), bound - rest, {ct});
          DropConnector(ct);
        }
        rest := rest - {ct};
      }
      assert bound - rest == bound;
    }

    /** Everything of a reverse token but its own connections, registration and port. */
    method DropDependents(t: Token, ghost own: set<Token>, ghost bound: set<Token>)
      requires own == InternalsOf(Who(), t) && bound == Bound(Who(), t)
      modifies this`tokens, this`options, this`indexes, this`internals, this`connectors, this`lists, this`clients,
               this`closing, this`live, this`cleanups
      ensures Value() == WithoutDependents(old(Value()), t, own, bound)
    {
      DropInternals(t);
      assert Bound(Who(), t) == bound;
      DropBound(t, bound);
      SweptTwice(old(Room()), own, bound);
    }

    /** Forget the connections of a reverse token and schedule the clean-up of its channels. */
    method DropClients(t: Token)
      modifies this`lists, this`clients, this`closing, this`live, this`cleanups
      ensures Value() == WithoutClients(old(Value()), t)
    {
      cleanups := cleanups + {t};
      CloseClients(t);
    }

    /** Forget the name of a reverse token. */
    method ForgetName(t: Token)
      modifies this`tokens, this`options, this`locks, this`indexes
      ensures Value() == WithoutName(old(Value()), t)
    {
      tokens := tokens - {t};
      locks := locks - {t};
      indexes := indexes - {t};
      options := options - {t};
    }

    /** Stop the SOCKS server on a port and give the port back. */
    method ReleasePort(port: int)
      modifies this, pool
      ensures Value() == WithoutPort(old(Value()), port)
    {
      if port in tasks {
        tasks := tasks - {port};
      }
      dead := dead - {port};
      pool.Put(port);
    }

    method CloseForwardClients()
      modifies this`forwardClients, this`closing
      ensures forwardClients == map[] && closing == old(closing) + old(forwardClients).Values
    {
      var rest := forwardClients.Keys;
      ghost var done: set<Cid> := {};
      while rest != {}
        invariant rest + done == forwardClients.Keys && forwardClients == old(forwardClients)
        invariant closing == old(closing) + set cid | cid in done :: old(forwardClients)[cid]
        decreases |rest|
      {
        ghost var some := Member(rest);
        var cid :| cid in rest;
        closing := closing + {forwardClients[cid]};
        rest := rest - {cid};
        done := done + {cid};
      }
      forwardClients := map[];
    }

    /** The look-up of the port raises exactly when the token was among its own instances. */
    method RemoveToken(t: Token) returns (r: Outcome)
      modifies this, pool
      ensures Value() == Remove(old(Value()), t)
      ensures r.Raised? <==> old(Raises(Who(), t))
      ensures r.Answered? ==> r.found == (t in old(tokens) || t in old(forwardTokens) || t in old(connectors))
      ensures r.Raised? ==> t !in tokens && locks == old(locks) && pool.used == old(pool.used) && tasks == old(tasks)
    {
      if t !in tokens && t !in forwardTokens && t !in connectors {
        return Answered(false);
      }
      var found := true;
      if t in connectors {
        found := RemoveConnectorToken(t);
      } else if t in tokens {
        Removal(Value(), t);
        DropDependents(t, InternalsOf(Who(), t), Bound(Who(), t));
        DropClients(t);
        if t !in tokens {
          return Raised;
        }
        var port := tokens[t];
        ForgetName(t);
        ReleasePort(port);
      } else {
        CloseForwardClients();
        forwardTokens := forwardTokens - {t};
      }
      return Answered(found);
    }

    // -------------------------------------------------------------- connections

    method Join(t: Token, cid: Cid, ws: Conn, ghost login: Login)
      requires login.token == t && login.ws == ws
      modifies this`lists, this`logins, this`live
      ensures Logged() == Joined(old(Logged()), cid, login)
    {
      if t !in lists {
        lists := lists[t := []];
      }
      lists := lists[t := lists[t] + [Entry(cid, ws)]];
      logins, live := logins[cid := login], live + {cid};
    }

    /** Register the token of an instance. */
    method SetUpInstance(t: Token, inst: Token)
      requires t in options
      modifies this`internals, this`indexes, this`options, this`tokens, this`locks, this`instances
      ensures Who() == SetUp(old(Who()), t, inst) && indexes == old(indexes)[inst := 0]
    {
      if t !in internals {
        internals := internals[t := []];
      }
      internals := internals[t := internals[t] + [inst]];
      indexes := indexes[inst := 0];
      options := options[inst := options[t]];
      tokens := tokens[inst := NO_PORT];
      locks := locks + {inst};
      instances := instances + {inst};
    }

    /** A connection of a token that manages connectors. */
    method JoinInstance(t: Token, inst: Token, cid: Cid, ws: Conn)
      requires t in tokens && t in options && options[t].manage
      modifies this`internals, this`indexes, this`options, this`tokens, this`locks, this`instances, this`lists,
               this`clients, this`logins, this`live
      ensures var r := ReverseLogin(old(Value()), t, inst, cid, ws);
              Who() == r.names && Logged() == r.members
    {
      SetUpInstance(t, inst);
      Join(inst, cid, ws, Login(inst, ws, inst, true));
      clients := clients[cid := ws];
    }

    method StartServing(port: int)
      modifies this`tasks
      ensures tasks == if port > 0 then old(tasks) + {port} else old(tasks)
    {
      if port !in tasks && port > 0 {
        tasks := tasks + {port};
      }
    }

    /** A connection of a token with a port. */
    method JoinShared(t: Token, inst: Token, cid: Cid, ws: Conn)
      requires t in tokens && t in options && !options[t].manage
      modifies this`lists, this`arriving, this`logins, this`live, this`tasks
      ensures Value() == ReverseLogin(old(Value()), t, inst, cid, ws)
    {
      ghost var m := Logged();
      Join(t, cid, ws, Login(t, ws, inst, true));
      StartServing(tokens[t]);
      arriving := arriving[cid := ws];
      assert Logged() == Joined(m, cid, Login(t, ws, inst, true)).(arriving := arriving);
    }

    /** A reverse client presents its token and instance id.  When the token has a port its SOCKS
        server is started, and the connection enters the client map only after that. */
    method LoginReverse(t: Token, inst: Token, cid: Cid, ws: Conn) returns (accepted: bool)
      requires KeysOk(Who())
      modifies this
      ensures accepted == (t in old(tokens)) && Value() == ReverseLogin(old(Value()), t, inst, cid, ws)
    {
      if t !in tokens {
        return false;
      }
      if options[t].manage {
        JoinInstance(t, inst, cid, ws);
      } else {
        JoinShared(t, inst, cid, ws);
      }
      return true;
    }

    method EndLogin(cid: Cid, ws: Conn)
      requires cid in arriving && arriving[cid] == ws
      modifies this`clients, this`arriving
      ensures Value() == FinishLogin(old(Value()), cid)
    {
      clients := clients[cid := ws];
      arriving := arriving - {cid};
    }

    method LoginConnector(ct: Token, cid: Cid, ws: Conn) returns (accepted: bool)
      modifies this`lists, this`clients, this`logins, this`live
      ensures accepted == (ct in connectors) && Value() == ConnectorLogin(old(Value()), ct, cid, ws)
    {
      if ct !in connectors {
        return false;
      }
      Join(ct, cid, ws, Login(ct, ws, "", false));
      clients := clients[cid := ws];
      return true;
    }

    /** `[x for x in list if x.cid != cid]` */
    static method Without(list: seq<Entry>, cid: Cid) returns (r: seq<Entry>)
      ensures r == Others(list, cid)
    {
      r := [];
      var i := 0;
      while i < |list|
        invariant 0 <= i <= |list| && r + Others(list[i..], cid) == Others(list, cid)
      {
        if list[i].cid != cid {
          r := r + [list[i]];
        }
        assert list[i..][1..] == list[i + 1..];
        i := i + 1;
      }
    }

    method LeaveList(cid: Cid, t: Token)
      modifies this`lists, this`indexes
      ensures var m := old(Left(Logged(), cid, t)); lists == m.lists && indexes == m.indexes
    {
      if t in lists {
        var rest := Without(lists[t], cid);
        lists := lists[t := rest];
        if rest == [] {
          lists := lists - {t};
          if t in indexes {
            indexes := indexes - {t};
          }
        }
      }
    }

    /** Take a connection out of its list and the client map. */
    method Leave(cid: Cid, t: Token)
      modifies this`lists, this`indexes, this`clients, this`arriving, this`live, this`gone
      ensures Logged() == Left(old(Logged()), cid, t)
    {
      LeaveList(cid, t);
      if cid in clients {
        clients := clients - {cid};
      }
      arriving, live, gone := arriving - {cid}, live - {cid}, gone + {cid};
    }

    /** The end of a connection that had been authenticated under a token.  The empty token is taken for
        none. */
    method CleanupConnection(cid: Cid, t: Token)
      requires cid in logins && logins[cid].token == t
      modifies this`lists, this`indexes, this`clients, this`arriving, this`live, this`gone
      ensures Value() == Cleanup(old(Value()), cid)
    {
      if t == "" {
        return;
      }
      Leave(cid, t);
    }

    // -------------------------------------------------------------- scheduling

    /** The lock of the token must exist. */
    method GetNextWebsocket(t: Token) returns (r: Option<Conn>)
      requires t in locks
      modifies this`indexes
      ensures Value() == PickNext(old(Value()), t).0 && r == PickNext(old(Value()), t).1
    {
      if t !in lists || lists[t] == [] {
        return None;
      }
      var list := lists[t];
      var current := if t in indexes then indexes[t] else 0;
      current := (current + 1) % |list|;
      indexes := indexes[t := current];
      return Some(list[current].ws);
    }

    // -------------------------------------------------------------- partner counts

    /** The count told to connectors. */
    method CountReverseClients() returns (count: nat)
      requires Inv(Value())
      ensures count == |ReverseClients(Logged())|
    {
      count := 0;
      var rest := tokens.Keys;
      ghost var done: set<Token> := {};
      assert Cids(lists, done) == {};
      while rest != {}
        invariant done !! rest && done + rest == tokens.Keys
        invariant count == |Cids(lists, done)|
        decreases |rest|
      {
        var t :| t in rest;
        OneMore(Logged(), done, t);
        if t in lists {
          count := count + |lists[t]|;
        }
        rest, done := rest - {t}, done + {t};
      }
      ReverseClientsListed(Who(), Logged());
      assert done == tokens.Keys;
    }

    /** The count told to the reverse clients of a token. */
    method CountConnectors(rt: Token) returns (count: nat)
      requires Inv(Value())
      ensures count == |ConnectorsOf(Who(), Logged(), rt)|
    {
      count := 0;
      var rest := connectors.Keys;
      ghost var done: set<Token> := {};
      assert Cids(lists, done) == {};
      while rest != {}
        invariant done !! rest && rest <= connectors.Keys
        invariant forall ct :: ct in done <==> ct in connectors && connectors[ct] == rt && ct !in rest
        invariant count == |Cids(lists, done)|
        decreases |rest|
      {
        var ct :| ct in rest;
        rest := rest - {ct};
        if connectors[ct] == rt {
          OneMore(Logged(), done, ct);
          if ct in lists {
            count := count + |lists[ct]|;
          }
          done := done + {ct};
        }
      }
      ConnectorsListed(Who(), Logged(), rt);
      assert done == Bound(Who(), rt);
    }

    // -------------------------------------------------------------- who may manage

    /** Does a list hold the connection? */
    static method InList(list: seq<Entry>, cid: Cid) returns (found: bool)
      ensures found <==> cid in CidsIn(list)
    {
      var i := 0;
      while i < |list|
        invariant 0 <= i <= |list| && cid !in CidsIn(list[..i])
      {
        if list[i].cid == cid {
          return true;
        }
        InMore(list[..i], list[i]);
        assert list[..i + 1] == list[..i] + [list[i]];
        i := i + 1;
      }
      assert list[..i] == list;
      return false;
    }

    /** The token in whose list a connection is. */
    method FindToken(cid: Cid) returns (r: Option<Token>)
      requires ListsOk(Logged())
      ensures r == TokenOf(Logged(), cid)
    {
      var rest := lists.Keys;
      while rest != {}
        invariant rest <= lists.Keys && cid !in Cids(lists, lists.Keys - rest)
        decreases |rest|
      {
        var t :| t in rest;
        var found := InList(lists[t], cid);
        InOne(lists, t);
        if found {
          CidsExactly(Logged(), {t}, cid);
          return Some(t);
        }
        CidsUnion(lists, lists.Keys - rest, t);
        assert lists.Keys - (rest - {t}) == lists.Keys - rest + {t};
        rest := rest - {t};
      }
      assert lists.Keys - rest == lists.Keys;
      assert cid in live ==> LoginListed(Logged(), cid);
      CidsExactly(Logged(), lists.Keys, cid);
      return None;
    }
  }
}
