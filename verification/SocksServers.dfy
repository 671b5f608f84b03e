/** The SOCKS servers of the tokens' ports: every connected reverse client's port has an entry for one,
    and the server behind it runs until it ends by itself, after which nothing restarts it. */
module SocksServers {
  import opened Bytes
  import opened Registry
  import opened RegistryInvariant

  // ---------------------------------------------------------------- entries

  /** The port of a connected reverse client has an entry for its SOCKS server. */
  ghost predicate Serves(s: Registry, cid: Cid) {
    cid in s.members.logins && s.members.logins[cid].reverse ==>
      forall p :: Holds(s.names, s.members.logins[cid].token, p) && p > 0 ==> p in s.ports.tasks
  }

  ghost predicate ServedOk(s: Registry) {
    forall cid <- s.members.live :: Serves(s, cid)
  }

  lemma RemoveKeepsServed(s: Registry, t: Token, cid: Cid)
    requires Inv(s) && ServedOk(s) && cid in Remove(s, t).members.live
    ensures Serves(Remove(s, t), cid)
  {
    var d, login := Remove(s, t), s.members.logins[cid];
    assert cid in s.members.live && KindOk(s.names, login) && Serves(s, cid);
    CidsExactly(s.members, Doomed(s.names, t), cid);
    forall p | Holds(d.names, login.token, p) && p > 0 && login.reverse ensures p in d.ports.tasks {
      assert Holds(s.names, login.token, p);
      if t !in s.names.connectors && t in s.names.tokens {
        assert Holds(s.names, t, s.names.tokens[t]);
      }
    }
  }

  lemma LoginKeepsServed(s: Registry, e: Event, cid: Cid)
    requires Inv(s) && ServedOk(s) && Enabled(s, e) && (e.EReverseLogin? || e.EConnectorLogin?)
    requires cid in Apply(s, e).members.live
    ensures Serves(Apply(s, e), cid)
  {
    var d := Apply(s, e);
    if cid in s.members.live {
      var login := s.members.logins[cid];
      assert KindOk(s.names, login) && Serves(s, cid);
      forall p | Holds(d.names, login.token, p) && p > 0 ensures Holds(s.names, login.token, p) {}
    }
  }

  lemma StepKeepsServed(s: Registry, e: Event)
    requires Inv(s) && ServedOk(s) && Enabled(s, e)
    ensures ServedOk(Apply(s, e))
  {
    var d := Apply(s, e);
    forall cid <- d.members.live ensures Serves(d, cid) {
      match e {
        case ERemove(t) => RemoveKeepsServed(s, t, cid);
        case EReverseLogin(_, _, _, _) => LoginKeepsServed(s, e, cid);
        case EConnectorLogin(_, _, _) => LoginKeepsServed(s, e, cid);
        case _ =>
          var login := s.members.logins[cid];
          assert KindOk(s.names, login) && Serves(s, cid);
          forall p | Holds(d.names, login.token, p) && login.reverse ensures Holds(s.names, login.token, p) {}
      }
    }
  }

  lemma {:induction false} RunKeepsServed(s: Registry, events: seq<Event>)
    requires Inv(s) && ServedOk(s) && Runs(s, events)
    ensures ServedOk(Run(s, events))
    decreases |events|
  {
    if events != [] {
      StepKeepsInv(s, events[0]);
      StepKeepsServed(s, events[0]);
      RunKeepsServed(Apply(s, events[0]), events[1..]);
    }
  }

  /** Over every run the port of every connected reverse client has an entry for a SOCKS server. */
  lemma ServedPortsHaveEntries(pool: set<int>, events: seq<Event>, cid: Cid)
    requires Runs(Start(pool), events)
    ensures var s := Run(Start(pool), events);
            cid in s.members.live ==>
              && cid in s.members.logins
              && (s.members.logins[cid].reverse ==>
                    && s.members.logins[cid].token in s.names.tokens
                    && var port := s.names.tokens[s.members.logins[cid].token]; port <= 0 || port in s.ports.tasks)
  {
    StartInv(pool);
    RunKeepsInv(Start(pool), events);
    RunKeepsServed(Start(pool), events);
    var s := Run(Start(pool), events);
    if cid in s.members.live {
      var login := s.members.logins[cid];
      assert KindOk(s.names, login) && Serves(s, cid);
      assert login.reverse ==> Holds(s.names, login.token, s.names.tokens[login.token]);
    }
  }

  // ---------------------------------------------------------------- running servers

  predicate Running(s: Registry, port: int) {
    port in s.ports.tasks && port !in s.ports.dead
  }

  /** No token that holds the port is removed. */
  ghost predicate PortKept(s: Registry, events: seq<Event>, port: int)
    decreases |events|
  {
    events != [] ==>
      && !(events[0].ERemove? && Holds(s.names, events[0].token, port))
      && PortKept(Apply(s, events[0]), events[1..], port)
  }

  lemma StepRunning(s: Registry, e: Event, port: int)
    requires Inv(s) && Enabled(s, e) && port in s.ports.tasks && !(e.ERemove? && Holds(s.names, e.token, port))
    ensures port in Apply(s, e).ports.tasks
    ensures Running(Apply(s, e), port) <==> Running(s, port) && e != ESocksServerEnds(port)
  {
  }

  /** While its token stays, a server once started runs exactly until it ends by itself: no login and no
      other operation starts it again, because its entry stays. */
  lemma {:induction false} RunsUntilItEnds(s: Registry, events: seq<Event>, port: int)
    requires Inv(s) && Runs(s, events) && PortKept(s, events, port) && port in s.ports.tasks
    ensures port in Run(s, events).ports.tasks
    ensures Running(Run(s, events), port) <==> Running(s, port) && ESocksServerEnds(port) !in events
    decreases |events|
  {
    if events != [] {
      StepRunning(s, events[0], port);
      StepKeepsInv(s, events[0]);
      RunsUntilItEnds(Apply(s, events[0]), events[1..], port);
      assert forall e :: e in events <==> e == events[0] || e in events[1..];
    }
  }

  /** A client that logs in after the server of its port has ended is connected and not served. */
  lemma NotRestarted(s: Registry, t: Token, inst: Token, cid: Cid, ws: Conn)
    requires Inv(s) && Enabled(s, EReverseLogin(t, inst, cid, ws)) && t in s.names.tokens && !Manages(s.names, t)
    requires s.names.tokens[t] in s.ports.dead
    ensures var d := Apply(s, EReverseLogin(t, inst, cid, ws));
            cid in d.members.live && d.members.logins[cid].token == t && !Running(d, d.names.tokens[t])
  {
  }

  /** A run that comes to this: the port cannot be bound, and a second client logs in. */
  lemma Unserved(options: Options, ws: Conn, other: Conn) returns (events: seq<Event>)
    requires !options.manage
    ensures Runs(Start({1080}), events)
    ensures var s := Run(Start({1080}), events);
            s.names.tokens == map["t" := 1080] && s.members.live == {0, 1} && !Running(s, 1080)
  {
    var start := Start({1080});
    var add := EAddReverse("t", None, options, Some(1080));
    events := [];
    RunsThen(start, events, add);
    events := events + [add];
    assert !Manages(Run(start, events).names, "t");
    RunsThen(start, events, EReverseLogin("t", "i", 0, ws));
    events := events + [EReverseLogin("t", "i", 0, ws)];
    RunsThen(start, events, ESocksServerEnds(1080));
    events := events + [ESocksServerEnds(1080)];
    RunsThen(start, events, EReverseLogin("t", "j", 1, other));
    events := events + [EReverseLogin("t", "j", 1, other)];
  }
}
