/** What every run of server operations keeps, whatever their order. */
module RegistryInvariant {
  import opened Bytes
  import opened Registry
  import PortPool

  // ---------------------------------------------------------------- keys and names

  lemma RegisteredKeeps(n: Names, t: Token, p: int, o: Options)
    requires KeysOk(n) && NamesOk(n) && t !in n.connectors && (t in n.instances ==> o.manage)
    ensures KeysOk(Registered(n, t, p, o)) && NamesOk(Registered(n, t, p, o))
  {
    var d := Registered(n, t, p, o);
    assert forall q, i :: Internal(d, q, i) ==> Internal(n, q, i);
    assert forall i <- n.tokens :: i != t && Manages(n, i) ==> Manages(d, i);
  }

  lemma SetUpKeeps(n: Names, t: Token, inst: Token)
    requires KeysOk(n) && NamesOk(n) && t in n.tokens && Manages(n, t) && inst !in n.connectors
    ensures KeysOk(SetUp(n, t, inst)) && NamesOk(SetUp(n, t, inst))
  {
    var r, d := Registered(n, inst, NO_PORT, n.options[t]), SetUp(n, t, inst);
    RegisteredKeeps(n, inst, NO_PORT, n.options[t]);
    assert forall q, i :: Internal(d, q, i) ==> Internal(r, q, i) || (q, i) == (t, inst);
    assert forall i <- r.tokens :: Manages(r, i) ==> Manages(d, i);
    assert Manages(d, inst);
  }

  lemma AddConnectorKeeps(n: Names, ct: Token, rt: Token)
    requires KeysOk(n) && NamesOk(n) && rt in n.tokens && ct !in n.tokens && ct !in n.instances
    ensures var d := n.(connectors := n.connectors[ct := rt]); KeysOk(d) && NamesOk(d)
  {
    var d := n.(connectors := n.connectors[ct := rt]);
    assert forall q, i :: Internal(d, q, i) ==> Internal(n, q, i);
    assert forall i <- d.tokens :: Manages(n, i) ==> Manages(d, i);
  }

  lemma RemoveConnectorKeeps(n: Names, ct: Token)
    requires KeysOk(n) && NamesOk(n)
    ensures var d := n.(connectors := n.connectors - {ct}); KeysOk(d) && NamesOk(d)
  {
    var d := n.(connectors := n.connectors - {ct});
    assert forall q, i :: Internal(d, q, i) ==> Internal(n, q, i);
    assert forall i <- d.tokens :: Manages(n, i) ==> Manages(d, i);
  }

  lemma UnregisteredKeepsKeys(n: Names, t: Token)
    requires KeysOk(n) && NamesOk(n)
    ensures KeysOk(Unregistered(n, t))
  {
    var d := Unregistered(n, t);
    assert forall i <- InternalsOf(n, t) :: Internal(n, t, i);
    forall ct <- d.connectors
      ensures d.connectors[ct] in d.locks && (d.connectors[ct] in d.tokens || d.connectors[ct] in d.instances)
    {
      assert d.connectors[ct] == n.connectors[ct] != t;
    }
  }

  lemma UnregisteredKeepsNames(n: Names, t: Token)
    requires KeysOk(n) && NamesOk(n)
    ensures NamesOk(Unregistered(n, t))
  {
    var d := Unregistered(n, t);
    assert forall p, i :: Internal(d, p, i) ==> Internal(n, p, i);
    forall i <- d.tokens ensures i in d.instances ==> Manages(d, i) {
      assert i in n.tokens && i in d.options && d.options[i] == n.options[i];
      if i in n.instances {
        assert Manages(n, i);
      }
    }
  }

  lemma StepKeepsKeys(s: Registry, e: Event)
    requires KeysOk(s.names) && NamesOk(s.names) && Enabled(s, e)
    ensures KeysOk(Apply(s, e).names) && NamesOk(Apply(s, e).names)
  {
    match e {
      case EAddReverse(t, _, options, granted) =>
        RegisteredKeeps(s.names, t, NO_PORT, options);
        if granted.Some? { RegisteredKeeps(s.names, t, granted.value, options); }
      case EAddConnector(ct, rt) => if rt in s.names.tokens { AddConnectorKeeps(s.names, ct, rt); }
      case ERemove(t) =>
        RemoveConnectorKeeps(s.names, t);
        UnregisteredKeepsKeys(s.names, t);
        UnregisteredKeepsNames(s.names, t);
      case EReverseLogin(t, inst, cid, ws) =>
        if t in s.names.tokens && Manages(s.names, t) { SetUpKeeps(s.names, t, inst); }
      case _ =>
    }
  }

  // ---------------------------------------------------------------- ports

  lemma RegisteredMarks(n: Names, t: Token, p: int, o: Options)
    requires MarksOk(n) && (o.manage <==> p == NO_PORT)
    ensures MarksOk(Registered(n, t, p, o))
  {
    var d := Registered(n, t, p, o);
    assert forall u <- n.tokens :: u != t ==> (Manages(d, u) <==> Manages(n, u));
  }

  lemma RegisteredUsed(n: Names, used: set<int>, t: Token, p: int, o: Options)
    requires UsedOk(n, used) && t !in n.tokens && p !in used
    ensures UsedOk(Registered(n, t, p, o), if p == NO_PORT then used else used + {p})
  {
    var d := Registered(n, t, p, o);
    assert Holds(d, t, p);
    assert forall u, q :: Holds(n, u, q) ==> Holds(d, u, q);
    assert forall u, q :: Holds(d, u, q) ==> (u, q) == (t, p) || Holds(n, u, q);
    forall q ensures Held(d, q) <==> q == p || Held(n, q) {}
  }

  /** Registering the token of an instance, perhaps again, changes no port. */
  lemma SetUpKeepsUsed(n: Names, used: set<int>, t: Token, inst: Token)
    requires KeysOk(n) && NamesOk(n) && MarksOk(n) && UsedOk(n, used) && t in n.tokens && Manages(n, t)
    requires inst in n.tokens && inst != t ==> inst in n.instances
    ensures MarksOk(SetUp(n, t, inst)) && UsedOk(SetUp(n, t, inst), used)
  {
    var r, d := Registered(n, inst, NO_PORT, n.options[t]), SetUp(n, t, inst);
    RegisteredMarks(n, inst, NO_PORT, n.options[t]);
    assert forall u <- r.tokens :: Manages(r, u) <==> Manages(d, u);
    assert inst in n.tokens ==> Manages(n, inst);
    assert forall u, q :: Holds(n, u, q) ==> Holds(d, u, q);
    assert forall u, q :: Holds(d, u, q) ==> (u, q) == (inst, NO_PORT) || Holds(n, u, q);
    forall q ensures q != NO_PORT ==> (Held(d, q) <==> Held(n, q)) {}
  }

  lemma UnregisteredKeepsPorts(n: Names, ports: Ports, t: Token)
    requires KeysOk(n) && NamesOk(n) && PortsOk(n, ports) && t in n.tokens
    ensures PortsOk(Unregistered(n, t), Freed(ports, n.tokens[t]))
    ensures t in InternalsOf(n, t) ==> PortsOk(Unregistered(n, t), ports)
  {
    var d, port := Unregistered(n, t), n.tokens[t];
    var own := {t} + InternalsOf(n, t);
    forall i | i in InternalsOf(n, t) && i in n.tokens ensures n.tokens[i] == NO_PORT {
      assert Internal(n, t, i);
    }
    assert Holds(n, t, port);
    assert forall u <- d.tokens :: Manages(n, u) <==> Manages(d, u);
    assert forall u, q :: Holds(d, u, q) <==> Holds(n, u, q) && u !in own;
    forall q ensures q != NO_PORT ==> (Held(d, q) <==> Held(n, q) && q != port) {
      if u :| Holds(n, u, q) && q != NO_PORT && q != port {
        assert Holds(d, u, q);
      }
    }
  }

  lemma SamePorts(n: Names, d: Names, ports: Ports)
    requires PortsOk(n, ports) && d.tokens == n.tokens && d.options == n.options
    ensures PortsOk(d, ports)
  {
    assert forall u <- n.tokens :: Manages(d, u) <==> Manages(n, u);
    assert forall u, q :: Holds(d, u, q) <==> Holds(n, u, q);
    forall q ensures Held(d, q) <==> Held(n, q) {}
  }

  /** What the pool grants is new. */
  lemma AddReverseKeepsPorts(s: Registry, t: Token, request: Option<int>, options: Options, granted: Option<int>)
    requires KeysOk(s.names) && PortsOk(s.names, s.ports)
    requires Enabled(s, EAddReverse(t, request, options, granted))
    ensures var d := AddReverse(s, t, options, granted); PortsOk(d.names, d.ports)
  {
    if t !in s.names.tokens && (options.manage || granted.Some?) {
      var p := if options.manage then NO_PORT else granted.value;
      RegisteredMarks(s.names, t, p, options);
      RegisteredUsed(s.names, s.ports.used, t, p, options);
    }
  }

  lemma StepKeepsPorts(s: Registry, e: Event)
    requires KeysOk(s.names) && NamesOk(s.names) && PortsOk(s.names, s.ports) && Enabled(s, e)
    ensures PortsOk(Apply(s, e).names, Apply(s, e).ports)
  {
    match e {
      case EAddReverse(t, request, options, granted) => AddReverseKeepsPorts(s, t, request, options, granted);
      case EAddConnector(ct, rt) => SamePorts(s.names, Apply(s, e).names, s.ports);
      case ERemove(t) =>
        SamePorts(s.names, s.names.(connectors := s.names.connectors - {t}), s.ports);
        if t in s.names.tokens { UnregisteredKeepsPorts(s.names, s.ports, t); }
      case EReverseLogin(t, inst, _, _) =>
        if t in s.names.tokens {
          assert Holds(s.names, t, s.names.tokens[t]);
          if Manages(s.names, t) { SetUpKeepsUsed(s.names, s.ports.used, t, inst); }
        }
      case EStartTask(t) => assert t in s.names.tokens ==> Holds(s.names, t, s.names.tokens[t]);
      case _ =>
    }
  }

  /** The pool may answer so. */
  ghost predicate MayGrant(s: Registry, t: Token, request: Option<int>, options: Options, granted: Option<int>) {
    PortPool.Granted(s.ports.pool, s.ports.used, request, granted, AddReverse(s, t, options, granted).ports.used)
  }

  ghost predicate KeepsPorts(s: Registry, t: Token, options: Options, granted: Option<int>) {
    PortsOk(AddReverse(s, t, options, granted).names, AddReverse(s, t, options, granted).ports)
  }

  /** The server takes a port 0 from the pool and then treats it as a refusal, and a token with the mark
      for "no port" looks like one that manages connectors. */
  lemma BadGrant(s: Registry, t: Token, options: Options, granted: Option<int>)
    requires KeysOk(s.names) && PortsOk(s.names, s.ports) && t !in s.names.tokens && !options.manage
    requires granted in {Some(0), Some(NO_PORT)} && granted.value !in s.ports.used
    ensures !KeepsPorts(s, t, options, granted)
  {
    var d := AddReverse(s, t, options, granted);
    if granted == Some(0) {
      assert 0 in d.ports.used && (0 in s.ports.used <==> Held(s.names, 0));
    } else {
      assert t in d.names.tokens && d.names.tokens[t] == NO_PORT && !Manages(d.names, t);
    }
  }

  /** Adding a token keeps the ports right, whatever the pool answers, exactly when the request is for a
      port other than 0 and the mark (or one already taken), or for any port of a pool without them. */
  lemma AddKeepsPortsExactly(s: Registry, t: Token, request: Option<int>, options: Options)
    requires KeysOk(s.names) && PortsOk(s.names, s.ports) && t !in s.names.tokens && !options.manage
    requires t !in s.names.connectors && t !in s.names.instances
    ensures (forall granted :: MayGrant(s, t, request, options, granted) ==> KeepsPorts(s, t, options, granted))
            <==> PlainRequest(s.ports, request)
  {
    if PlainRequest(s.ports, request) {
      forall granted | MayGrant(s, t, request, options, granted) ensures KeepsPorts(s, t, options, granted) {
        AddReverseKeepsPorts(s, t, request, options, granted);
      }
    } else {
      var bad := match request
        case Some(port) => port
        case None => if 0 in s.ports.pool && 0 !in s.ports.used then 0 else NO_PORT;
      BadGrant(s, t, options, Some(bad));
      assert MayGrant(s, t, request, options, Some(bad));
    }
  }

  /** A pool that holds only port 0: the first request takes it and is refused, no token holds it, and
      every later request for any port is refused. */
  lemma ZeroPortLost(t: Token, options: Options)
    requires !options.manage
    ensures var s := Start({0});
            var d := AddReverse(s, t, options, Some(0));
            && MayGrant(s, t, None, options, Some(0)) && d.names == s.names && d.ports.used == {0}
            && !PortsOk(d.names, d.ports)
            && (forall granted, after :: PortPool.Granted({0}, d.ports.used, None, granted, after) ==> granted == None)
  {
    StartInv({0});
    BadGrant(Start({0}), t, options, Some(0));
  }

  // ---------------------------------------------------------------- lists and clients

  lemma {:induction false} OthersExactly(list: seq<Entry>, cid: Cid)
    ensures forall x :: x in Others(list, cid) <==> x in list && x.cid != cid
    ensures Distinct(list) ==> Distinct(Others(list, cid))
  {
    if list != [] {
      OthersExactly(list[1..], cid);
      assert list == [list[0]] + list[1..];
    }
  }

  /** The connections in the lists of some tokens are the registered logins of those tokens. */
  lemma CidsExactly(m: Members, ts: set<Token>, cid: Cid)
    requires ListsOk(m)
    ensures cid in Cids(m.lists, ts) <==> cid in m.live && m.logins[cid].token in ts
  {
    if cid in m.live {
      assert LoginListed(m, cid);
    }
    forall t, x | t in ts && t in m.lists && x in m.lists[t] && x.cid == cid
      ensures cid in m.live && m.logins[cid].token == t
    {
      assert ListOk(m, t) && EntryOk(m, t, x);
    }
  }

  lemma DroppedKeepsLists(m: Members, ts: set<Token>)
    requires ListsOk(m)
    ensures ListsOk(Dropped(m, ts))
  {
    var d := Dropped(m, ts);
    forall t <- d.lists ensures ListOk(d, t) {
      assert ListOk(m, t);
      forall x <- d.lists[t] ensures EntryOk(d, t, x) {
        assert EntryOk(m, t, x);
        CidsExactly(m, ts, x.cid);
      }
    }
    forall cid <- d.live ensures LoginListed(d, cid) {
      assert LoginListed(m, cid);
    }
  }

  lemma JoinedKeepsLists(m: Members, cid: Cid, login: Login)
    requires ListsOk(m) && cid !in m.logins && cid !in m.gone
    ensures ListsOk(Joined(m, cid, login))
  {
    var d, x := Joined(m, cid, login), Entry(cid, login.ws);
    var old_list := ListOf(m, login.token);
    forall t <- d.lists ensures ListOk(d, t) {
      if t in m.lists {
        assert ListOk(m, t);
        assert forall y <- m.lists[t] :: EntryOk(m, t, y) && EntryOk(d, t, y) && y.cid != cid;
      }
      if t == login.token {
        assert forall y <- d.lists[t] :: y in old_list || y == x;
      }
    }
    forall c <- d.live ensures LoginListed(d, c) {
      if c == cid {
        assert d.lists[login.token][|old_list|] == x;
      } else {
        assert LoginListed(m, c);
        assert forall y <- old_list :: y in d.lists[login.token];
      }
    }
  }

  lemma LeftKeepsLists(m: Members, cid: Cid)
    requires ListsOk(m) && cid in m.logins
    ensures ListsOk(Left(m, cid, m.logins[cid].token))
  {
    var t := m.logins[cid].token;
    var d := Left(m, cid, t);
    OthersExactly(ListOf(m, t), cid);
    forall u <- d.lists ensures ListOk(d, u) {
      assert ListOk(m, u);
      forall x <- d.lists[u] ensures EntryOk(d, u, x) {
        assert EntryOk(m, u, x);
      }
    }
    forall c <- d.live ensures LoginListed(d, c) {
      assert LoginListed(m, c);
    }
  }

  /** The lists do not depend on the indexes and the client maps. */
  lemma SameLists(m: Members, d: Members)
    requires ListsOk(m) && d.lists == m.lists && d.logins == m.logins && d.live == m.live && d.gone == m.gone
    ensures ListsOk(d)
  {
    forall t <- d.lists ensures ListOk(d, t) {
      assert ListOk(m, t);
      assert forall x <- d.lists[t] :: EntryOk(m, t, x) && EntryOk(d, t, x);
    }
    assert forall cid <- d.live :: LoginListed(m, cid) && LoginListed(d, cid);
  }

  lemma LoginKeepsLists(s: Registry, e: Event)
    requires ListsOk(s.members) && ClientsOk(s.members) && Enabled(s, e) && (e.EReverseLogin? || e.EConnectorLogin?)
    ensures ListsOk(Apply(s, e).members)
  {
    var m := s.members;
    if e.EConnectorLogin? {
      var login := Login(e.token, e.ws, "", false);
      JoinedKeepsLists(m, e.cid, login);
      if e.token in s.names.connectors { SameLists(Joined(m, e.cid, login), Apply(s, e).members); }
    } else if e.token in s.names.tokens {
      var login := Login(if Manages(s.names, e.token) then e.inst else e.token, e.ws, e.inst, true);
      JoinedKeepsLists(m, e.cid, login);
      SameLists(Joined(m, e.cid, login), Apply(s, e).members);
    }
  }

  lemma StepKeepsLists(s: Registry, e: Event)
    requires ListsOk(s.members) && ClientsOk(s.members) && Enabled(s, e)
    ensures ListsOk(Apply(s, e).members)
  {
    var m, d := s.members, Apply(s, e).members;
    match e {
      case ERemove(t) =>
        DroppedKeepsLists(m, {t});
        DroppedKeepsLists(m, Doomed(s.names, t));
        if t !in s.names.connectors && t in s.names.tokens { SameLists(Dropped(m, Doomed(s.names, t)), d); }
      case EReverseLogin(_, _, _, _) => LoginKeepsLists(s, e);
      case EConnectorLogin(_, _, _) => LoginKeepsLists(s, e);
      case ECleanup(cid) => if cid in m.logins { LeftKeepsLists(m, cid); }
      case _ => SameLists(m, d);
    }
  }

  lemma StepKeepsClients(s: Registry, e: Event)
    requires ListsOk(s.members) && ClientsOk(s.members) && Enabled(s, e)
    ensures ClientsOk(Apply(s, e).members)
  {
  }

  // ---------------------------------------------------------------- kinds

  lemma RemoveKeepsKinds(s: Registry, t: Token)
    requires Inv(s)
    ensures KindsOk(Remove(s, t).names, Remove(s, t).members)
  {
    var d := Remove(s, t);
    forall cid <- d.members.live ensures KindOk(d.names, d.members.logins[cid]) {
      assert cid in s.members.live && KindOk(s.names, s.members.logins[cid]);
      CidsExactly(s.members, {t}, cid);
      CidsExactly(s.members, Doomed(s.names, t), cid);
    }
  }

  lemma LoginKeepsKinds(s: Registry, e: Event)
    requires Inv(s) && Enabled(s, e) && (e.EReverseLogin? || e.EConnectorLogin?)
    ensures KindsOk(Apply(s, e).names, Apply(s, e).members)
  {
    var d := Apply(s, e);
    forall cid <- d.members.live ensures cid in d.members.logins && KindOk(d.names, d.members.logins[cid]) {
      if cid in s.members.live {
        assert KindOk(s.names, s.members.logins[cid]);
      }
    }
  }

  lemma StepKeepsKinds(s: Registry, e: Event)
    requires Inv(s) && Enabled(s, e)
    ensures KindsOk(Apply(s, e).names, Apply(s, e).members)
  {
    match e {
      case ERemove(t) => RemoveKeepsKinds(s, t);
      case EReverseLogin(_, _, _, _) => LoginKeepsKinds(s, e);
      case EConnectorLogin(_, _, _) => LoginKeepsKinds(s, e);
      case _ =>
        var d := Apply(s, e);
        forall cid <- d.members.live ensures KindOk(d.names, d.members.logins[cid]) {
          assert KindOk(s.names, s.members.logins[cid]);
        }
    }
  }

  // ---------------------------------------------------------------- every run

  lemma StepKeepsInv(s: Registry, e: Event)
    requires Inv(s) && Enabled(s, e)
    ensures Inv(Apply(s, e))
  {
    StepKeepsKeys(s, e);
    StepKeepsPorts(s, e);
    StepKeepsLists(s, e);
    StepKeepsClients(s, e);
    StepKeepsKinds(s, e);
  }

  lemma StartInv(pool: set<int>)
    ensures Inv(Start(pool))
  {
    assert forall t, p :: !Holds(Start(pool).names, t, p);
  }

  lemma {:induction false} RunKeepsInv(s: Registry, events: seq<Event>)
    requires Inv(s) && Runs(s, events)
    ensures Inv(Run(s, events))
    decreases |events|
  {
    if events != [] {
      StepKeepsInv(s, events[0]);
      RunKeepsInv(Apply(s, events[0]), events[1..]);
    }
  }

  /** Over every sequence of additions, cascading removals, logins, disconnections and picks: tokens
      and options have the same keys and each has a lock; the target of every connector token has a
      lock and, unless it is an instance, is still registered. */
  lemma NamesStayConsistent(pool: set<int>, events: seq<Event>)
    requires Runs(Start(pool), events)
    ensures var n := Run(Start(pool), events).names;
            && n.tokens.Keys == n.options.Keys && n.tokens.Keys <= n.locks
            && (forall ct <- n.connectors :: n.connectors[ct] in n.locks)
            && (forall ct <- n.connectors :: n.connectors[ct] !in n.instances ==> n.connectors[ct] in n.tokens)
  {
    StartInv(pool);
    RunKeepsInv(Start(pool), events);
  }

  /** ... the ports in use are exactly the ports held by tokens, and no two tokens share one. */
  lemma PortsConserved(pool: set<int>, events: seq<Event>)
    requires Runs(Start(pool), events)
    ensures var s := Run(Start(pool), events);
            && s.ports.used == (set t | t in s.names.tokens && s.names.tokens[t] != NO_PORT :: s.names.tokens[t])
            && (forall t <- s.names.tokens, u <- s.names.tokens ::
                  t != u && s.names.tokens[t] == s.names.tokens[u] ==> s.names.tokens[t] == NO_PORT)
  {
    StartInv(pool);
    RunKeepsInv(Start(pool), events);
    var s := Run(Start(pool), events);
    assert forall t <- s.names.tokens :: Holds(s.names, t, s.names.tokens[t]);
    forall p
      ensures p in s.ports.used
              <==> p in set t | t in s.names.tokens && s.names.tokens[t] != NO_PORT :: s.names.tokens[t]
    {
      if p in s.ports.used {
        assert Held(s.names, p);
      }
    }
  }

  /** A request for any port is refused only when tokens hold every port of the pool. */
  lemma RefusedOnlyWhenFull(s: Registry, after: set<int>)
    requires Inv(s) && PortPool.Granted(s.ports.pool, s.ports.used, None, None, after)
    ensures forall p <- s.ports.pool :: p != NO_PORT && Held(s.names, p)
  {
  }

  /** ... every connection that has been cleaned up is in no list and in no client map; every
      connection in a list is registered under that token only, and in the client map or arriving. */
  lemma ClientsConsistent(pool: set<int>, events: seq<Event>)
    requires Runs(Start(pool), events)
    ensures var m := Run(Start(pool), events).members;
            && (forall t <- m.lists :: m.lists[t] != [])
            && (forall cid <- m.gone :: cid !in m.clients && cid !in m.arriving)
            && (forall t <- m.lists, x <- m.lists[t] ::
                  x.cid !in m.gone && (x.cid in m.clients || x.cid in m.arriving))
            && (forall t <- m.lists, u <- m.lists, x <- m.lists[t], y <- m.lists[u] ::
                  x.cid == y.cid ==> t == u && x == y)
  {
    StartInv(pool);
    RunKeepsInv(Start(pool), events);
    var m := Run(Start(pool), events).members;
    forall t <- m.lists, x <- m.lists[t] ensures EntryOk(m, t, x) {
      assert ListOk(m, t);
    }
  }

  // ---------------------------------------------------------------- single operations

  /** Removing a token closes the connections logged in under it, under its instances and under the
      connector tokens that lead to it, and forgets them; every other connection stays where it is. */
  lemma RemoveDisconnectsExactly(s: Registry, t: Token)
    requires Inv(s) && (t in s.names.tokens || t in s.names.connectors)
    ensures var d, doomed := Remove(s, t), if t in s.names.connectors then {t} else Doomed(s.names, t);
            && (forall cid <- s.members.live :: cid in d.members.live <==> s.members.logins[cid].token !in doomed)
            && (forall cid <- s.members.live :: cid !in d.members.live ==>
                  cid !in d.members.clients && s.members.logins[cid].ws in d.jobs.closing)
            && (forall u :: u !in doomed ==> ListOf(d.members, u) == ListOf(s.members, u))
            && (forall cid <- s.members.clients ::
                  cid !in s.members.live || cid in d.members.live ==> cid in d.members.clients)
            && d.members.live <= s.members.live
  {
    var doomed := if t in s.names.connectors then {t} else Doomed(s.names, t);
    forall cid
      ensures cid in Cids(s.members.lists, doomed) <==> cid in s.members.live && s.members.logins[cid].token in doomed
    {
      CidsExactly(s.members, doomed, cid);
    }
    forall cid | cid in s.members.live && s.members.logins[cid].token in doomed
      ensures s.members.logins[cid].ws in Sockets(s.members.lists, doomed)
    {
      assert LoginListed(s.members, cid);
    }
  }

  /** A removal leaves a connector token without a registered target exactly when the target was an
      instance of the token removed (or had lost its registration before). */
  lemma RemoveStrandsExactly(s: Registry, t: Token, ct: Token)
    requires Inv(s) && t in s.names.tokens && ct in Remove(s, t).names.connectors
    ensures var d, target := Remove(s, t), s.names.connectors[ct];
            d.names.connectors[ct] == target && target in d.names.locks
            && (target !in d.names.tokens <==> target in InternalsOf(s.names, t) || target !in s.names.tokens)
  {
    StepKeepsKeys(s, ERemove(t));
  }

  lemma {:induction false} RunsThen(s: Registry, events: seq<Event>, e: Event)
    requires Runs(s, events) && Enabled(Run(s, events), e)
    ensures Runs(s, events + [e]) && Run(s, events + [e]) == Apply(Run(s, events), e)
    decreases |events|
  {
    if events == [] {
      assert events + [e] == [e] && [e][1..] == [];
    } else {
      assert (events + [e])[1..] == events[1..] + [e];
      RunsThen(Apply(s, events[0]), events[1..], e);
    }
  }

  /** An autonomy token with one connection, which presents the instance id "i". */
  lemma OneInstance(options: Options, ws: Conn) returns (events: seq<Event>)
    requires options.manage
    ensures Runs(Start({}), events)
    ensures var s := Run(Start({}), events);
            && s.names == Names(map["t" := NO_PORT, "i" := NO_PORT], map["t" := options, "i" := options], {"t", "i"},
                                map[], map["t" := ["i"]], {"i"})
            && s.members.lists == map["i" := [Entry(0, ws)]] && s.members.logins.Keys == {0}
            && s.members.indexes == map["i" := 0]
  {
    events := [];
    RunsThen(Start({}), events, EAddReverse("t", None, options, None));
    events := events + [EAddReverse("t", None, options, None)];
    assert Manages(Run(Start({}), events).names, "t");
    RunsThen(Start({}), events, EReverseLogin("t", "i", 0, ws));
    events := events + [EReverseLogin("t", "i", 0, ws)];
    assert [] + ["i"] == ["i"] && [] + [Entry(0, ws)] == [Entry(0, ws)];
  }

  /** A connector token for the instance: removing the autonomy token leaves it registered, without a
      target. */
  lemma StrandedConnector(options: Options, ws: Conn) returns (events: seq<Event>)
    requires options.manage
    ensures Runs(Start({}), events)
    ensures var n := Run(Start({}), events).names;
            && "t" in n.tokens && n.connectors == map["c" := "i"] && "i" in n.tokens
    ensures var d := Remove(Run(Start({}), events), "t").names;
            d.connectors == map["c" := "i"] && "i" !in d.tokens
  {
    events := OneInstance(options, ws);
    RunsThen(Start({}), events, EAddConnector("c", "i"));
    events := events + [EAddConnector("c", "i")];
    var n := Run(Start({}), events).names;
    assert "i" in InternalsOf(n, "t") && Bound(n, "t") == {};
  }

  /** A connection that presents an instance's token, and the same id as its instance: the token is now an
      instance of its own, and its removal raises. */
  lemma SelfInstance(options: Options, ws: Conn, other: Conn) returns (events: seq<Event>)
    requires options.manage
    ensures Runs(Start({}), events) && Raises(Run(Start({}), events).names, "i")
  {
    events := OneInstance(options, ws);
    assert Manages(Run(Start({}), events).names, "i");
    RunsThen(Start({}), events, EReverseLogin("i", "i", 1, other));
    events := events + [EReverseLogin("i", "i", 1, other)];
    assert "i" in InternalsOf(Run(Start({}), events).names, "i");
  }

  /** A removal that raises has forgotten the token all the same, with its instances, their connections and
      the connector tokens that lead to it; only the token's lock is left behind. */
  lemma RaisedAllTheSame(s: Registry, t: Token)
    requires Inv(s) && Raises(s.names, t)
    ensures var d := Remove(s, t);
            && Inv(d) && t !in d.names.tokens && t !in d.names.options && t !in d.members.lists
            && (forall ct <- d.names.connectors :: d.names.connectors[ct] != t)
            && t in d.names.locks && d.ports == s.ports && s.names.tokens[t] == NO_PORT
  {
    StepKeepsInv(s, ERemove(t));
    assert Internal(s.names, t, t) && Manages(s.names, t);
  }

  /** A connection of the empty token that has ended, and is picked for the next request. */
  lemma EmptyTokenStays(options: Options, ws: Conn) returns (events: seq<Event>)
    requires !options.manage
    ensures Runs(Start({1}), events) && events != [] && events[|events| - 1] == ECleanup(0)
    ensures var s := Run(Start({1}), events); 0 in s.members.live && PickNext(s, "").1 == Some(ws)
  {
    events := [];
    RunsThen(Start({1}), events, EAddReverse("", Some(1), options, Some(1)));
    events := events + [EAddReverse("", Some(1), options, Some(1))];
    assert !Manages(Run(Start({1}), events).names, "");
    RunsThen(Start({1}), events, EReverseLogin("", "i", 0, ws));
    events := events + [EReverseLogin("", "i", 0, ws)];
    assert [] + [Entry(0, ws)] == [Entry(0, ws)];
    RunsThen(Start({1}), events, ECleanup(0));
    events := events + [ECleanup(0)];
  }

  lemma RegisteredThenUnregistered(n: Names, t: Token, p: int, o: Options)
    requires KeysOk(n) && t !in n.tokens && t !in n.instances && t !in n.internals
    ensures Unregistered(Registered(n, t, p, o), t) == n && Doomed(Registered(n, t, p, o), t) == {t}
  {
    var a := Registered(n, t, p, o);
    assert Bound(a, t) == {} && InternalsOf(a, t) == {};
    assert t !in n.locks && t !in n.options;
    var d := Unregistered(a, t);
    assert d.tokens == n.tokens && d.options == n.options && d.locks == n.locks;
    assert d.connectors == n.connectors && d.internals == n.internals;
  }

  lemma NothingToDrop(m: Members, t: Token)
    requires t !in m.lists
    ensures Dropped(m, {t}) == m && Sockets(m.lists, {t}) == {}
  {
    assert Cids(m.lists, {t}) == {};
    assert m.lists - {t} == m.lists && m.clients - {} == m.clients;
  }

  /** Only registered tokens have lists. */
  lemma ListNamed(s: Registry, t: Token)
    requires ListsOk(s.members) && KindsOk(s.names, s.members) && t in s.members.lists
    ensures t in s.names.tokens || t in s.names.connectors
  {
    var x := s.members.lists[t][0];
    assert ListOk(s.members, t) && EntryOk(s.members, t, x) && KindOk(s.names, s.members.logins[x.cid]);
  }

  /** Removing a token just added gives back everything: names, locks, port and connections. */
  lemma AddThenRemove(s: Registry, t: Token, request: Option<int>, options: Options, granted: Option<int>)
    requires Inv(s) && Enabled(s, EAddReverse(t, request, options, granted))
    requires t !in s.names.tokens && t !in s.names.internals && (options.manage || granted.Some?)
    ensures var d := Remove(AddReverse(s, t, options, granted), t);
            && d.names == s.names && d.ports.used == s.ports.used
            && d.members.(indexes := map[]) == s.members.(indexes := map[]) && d.jobs.closing == s.jobs.closing
  {
    var p := if options.manage then NO_PORT else granted.value;
    RegisteredThenUnregistered(s.names, t, p, options);
    if t in s.members.lists { ListNamed(s, t); }
    NothingToDrop(s.members, t);
    assert p !in s.ports.used;
  }

  /** The end of a connection takes exactly its own entry out of its own list, unless its token is the
      empty one: then it stays registered. */
  lemma CleanupExactly(s: Registry, cid: Cid)
    requires Inv(s) && cid in s.members.live
    ensures var m, d := s.members, Cleanup(s, cid).members;
            var t := m.logins[cid].token;
            && (cid !in d.live <==> t != "")
            && (t == "" ==> d == m)
            && (t != "" ==>
                  && (exists k :: 0 <= k < |m.lists[t]| && m.lists[t][k].cid == cid
                                  && ListOf(d, t) == m.lists[t][..k] + m.lists[t][k + 1..])
                  && (forall u :: u != t ==> ListOf(d, u) == ListOf(m, u))
                  && d.clients == m.clients - {cid} && d.live == m.live - {cid}
                  && d.indexes == (if t in d.lists then m.indexes else m.indexes - {t}))
  {
    var m := s.members;
    assert LoginListed(m, cid);
    var t := m.logins[cid].token;
    assert ListOk(m, t);
    var k := OthersCuts(m.lists[t], cid);
  }

  lemma {:induction false} OthersCuts(list: seq<Entry>, cid: Cid) returns (k: nat)
    requires Distinct(list) && exists x :: x in list && x.cid == cid
    ensures k < |list| && list[k].cid == cid && Others(list, cid) == list[..k] + list[k + 1..]
  {
    if list[0].cid == cid {
      k := 0;
      OthersAll(list[1..], cid);
    } else {
      var x :| x in list && x.cid == cid;
      assert x in list[1..];
      var j := OthersCuts(list[1..], cid);
      k := j + 1;
    }
  }

  lemma {:induction false} OthersAll(list: seq<Entry>, cid: Cid)
    requires forall x <- list :: x.cid != cid
    ensures Others(list, cid) == list
  {
    if list != [] {
      OthersAll(list[1..], cid);
    }
  }
}
