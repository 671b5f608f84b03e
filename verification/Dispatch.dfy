/** The two message dispatchers of the server as the program runs them, on the registry and the
    channel cache it updates in place. */
module Dispatch {
  import opened Bytes
  import opened Registry
  import opened Routing
  import W = Routing
  import C = ConnectorCache
  import Server

  class Dispatcher {
    const server: Server.Server
    const cache: C.ChannelCache
    var local: set<Channel>
    var log: seq<Sent>
    ghost var ending: multiset<Channel>
    ghost var serving: map<Conn, Serving>
    ghost var adders: map<Token, Cid>

    ghost function Value(): World
      reads this, server, server.pool, cache
    {
      World(server.Value(), cache.Value(), local, ending, serving, adders, log)
    }

    constructor (server: Server.Server, cache: C.ChannelCache)
      ensures this.server == server && this.cache == cache
      ensures local == {} && log == [] && ending == multiset{} && serving == map[] && adders == map[]
    {
      this.server, this.cache := server, cache;
      local, log, ending, serving, adders := {}, [], multiset{}, map[], map[];
    }

    /** A Connect from a connector whose dispatcher captured the reverse token. */
    method OnConnect(c: Conn, reverseToken: Token, ch: Channel)
      requires c in serving && serving[c].target == reverseToken && reverseToken in server.locks
      modifies this`log, server`indexes, cache
      ensures Value() == Connected(old(Value()), c, ch)
    {
      var picked := server.GetNextWebsocket(reverseToken);
      if picked.None? {
        log := log + [Sent(ToConnector, Response, ch, c, c)];
        return;
      }
      cache.AddChannel(ch, c, picked.value, reverseToken);
      log := log + [Sent(ToClient, Connect, ch, c, picked.value)];
    }

    method OnConnectorData(c: Conn, ch: Channel)
      requires c in serving
      modifies this`log
      ensures Value() == ConnectorSays(old(Value()), Data, ch, c)
      ensures forall x, r | Joins(Value(), ch, x, r) :: log == old(log) + [Sent(ToClient, Data, ch, c, r)]
      ensures forall other, x, r :: Joins(old(Value()), other, x, r) ==> Joins(Value(), other, x, r)
    {
      if ch in cache.toClient {
        log := log + [Sent(ToClient, Data, ch, c, cache.toClient[ch])];
      }
    }

    /** A Disconnect is passed on first; the channel is dropped once it has been sent. */
    method OnConnectorDisconnect(c: Conn, ch: Channel)
      requires c in serving
      modifies this`log, this`ending
      ensures Value() == ConnectorSays(old(Value()), Disconnect, ch, c)
      ensures forall x, r | Joins(Value(), ch, x, r) :: log == old(log) + [Sent(ToClient, Disconnect, ch, c, r)]
      ensures forall other, x, r :: Joins(old(Value()), other, x, r) ==> Joins(Value(), other, x, r)
    {
      if ch in cache.toClient {
        log := log + [Sent(ToClient, Disconnect, ch, c, cache.toClient[ch])];
      }
      ending := ending + multiset{ch};
    }

    method EndDisconnect(ch: Channel)
      requires ch in ending
      modifies this`ending, cache
      ensures Value() == W.Apply(old(Value()), Drop(ch))
      ensures forall x, r :: !Joins(Value(), ch, x, r)
      ensures forall other, x, r | other != ch :: Joins(old(Value()), other, x, r) ==> Joins(Value(), other, x, r)
    {
      cache.RemoveChannel(ch);
      ending := ending - multiset{ch};
    }

    /** Data and ConnectResponse from a reverse client. */
    method OnClientMessage(kind: Kind, ch: Channel, r: Conn)
      requires kind == Data || kind == Response
      modifies this`log
      ensures Value() == ClientSays(old(Value()), kind, ch, r)
      ensures forall c, x | Joins(Value(), ch, c, x) && ch !in local ::
                log == old(log) + [Sent(ToConnector, kind, ch, r, c)]
      ensures forall other, c, x :: Joins(old(Value()), other, c, x) ==> Joins(Value(), other, c, x)
    {
      if ch !in local {
        if ch in cache.toConnector {
          log := log + [Sent(ToConnector, kind, ch, r, cache.toConnector[ch])];
        }
      }
    }

    /** May the connection manage connector tokens, and under which token? */
    method Permission(cid: Cid) returns (token: Option<Token>)
      requires ListsOk(server.Logged())
      ensures token == if MayManage(server.Value(), cid) then TokenOf(server.Logged(), cid) else None
    {
      token := server.FindToken(cid);
      if token.Some? {
        if token.value == "" || token.value !in server.options || !server.options[token.value].manage {
          token := None;
        }
      }
    }

    /** A reverse client asks for a connector token to itself.  The empty token is registered, and yet
        refused. */
    method OnAddConnector(cid: Cid, ct: Token) returns (success: bool)
      requires ListsOk(server.Logged()) && adders.Keys <= server.connectors.Keys
      modifies this`adders, server`connectors
      ensures Value() == AddedOver(old(Value()), cid, ct)
      ensures ct !in old(server.connectors) && ct in server.connectors <==>
                old(MayManage(server.Value(), cid) && TokenOf(server.Logged(), cid).value in server.tokens
                    && ct !in server.connectors)
      ensures success <==> ct !in old(server.connectors) && ct in server.connectors && ct != ""
    {
      var token := Permission(cid);
      if token.None? {
        return false;
      }
      AddedOverExactly(Value(), cid, ct);
      var added := server.AddConnectorToken(ct, token.value);
      if added.Some? {
        adders := adders[ct := cid];
      }
      return added.Some? && added.value != "";
    }

    /** ... or for the removal of a token: any token, not only one of its own.  When the removal raises
        there is no answer, and the connection ends. */
    method OnRemoveConnector(cid: Cid, t: Token) returns (r: Outcome)
      requires Inv(server.Value())
      modifies this`adders, server, server.pool
      ensures Value() == W.Apply(old(Value()), RemoveOver(cid, t))
      ensures r.Raised? <==> old(MayManage(server.Value(), cid) && Raises(server.Who(), t))
    {
      var token := Permission(cid);
      if token.None? {
        return Answered(false);
      }
      r := server.RemoveToken(t);
      adders := map ct | ct in adders && ct in server.connectors :: adders[ct];
    }

    /** A scheduled clean-up runs. */
    method RunCleanup(t: Token)
      requires t in server.cleanups
      modifies server`cleanups, cache
      ensures Value() == W.Apply(old(Value()), CleanupTask(t))
    {
      cache.CleanupToken(t);
      server.cleanups := server.cleanups - {t};
    }
  }
}
