/** The server's two-way map between channels and the two connections each of them joins, with a
    list of channels per token for cleaning up. */
module ConnectorCache {
  type Channel = nat
  type Conn = nat
  type Token = string

  /** `toClient` leads to the reverse client, `toConnector` to the connector. */
  datatype Cache = Cache(toClient: map<Channel, Conn>, toConnector: map<Channel, Conn>, lists: map<Token, seq<Channel>>)

  const Empty := Cache(map[], map[], map[])

  function Listed(lists: map<Token, seq<Channel>>, token: Token): seq<Channel> {
    if token in lists then lists[token] else []
  }

  function Elements(s: seq<Channel>): set<Channel> {
    set ch | ch in s
  }

  // ---------------------------------------------------------------- the operations as values

  function Added(c: Cache, ch: Channel, connector: Conn, client: Conn, token: Token): Cache {
    Cache(c.toClient[ch := client], c.toConnector[ch := connector],
          c.lists[token := Listed(c.lists, token) + [ch]])
  }

  function Removed(c: Cache, ch: Channel): Cache {
    c.(toClient := c.toClient - {ch}, toConnector := c.toConnector - {ch})
  }

  function Cleaned(c: Cache, token: Token): Cache {
    var gone := Elements(Listed(c.lists, token));
    Cache(c.toClient - gone, c.toConnector - gone, c.lists - {token})
  }

  // ---------------------------------------------------------------- the class

  class ChannelCache {
    var toClient: map<Channel, Conn>
    var toConnector: map<Channel, Conn>
    var lists: map<Token, seq<Channel>>

    ghost function Value(): Cache
      reads this
    {
      Cache(toClient, toConnector, lists)
    }

    constructor ()
      ensures Value() == Empty
    {
      toClient, toConnector, lists := map[], map[], map[];
    }

    method AddChannel(ch: Channel, connector: Conn, client: Conn, token: Token)
      modifies this
      ensures Value() == Added(old(Value()), ch, connector, client, token)
    {
      toConnector := toConnector[ch := connector];
      toClient := toClient[ch := client];
      if token !in lists {
        lists := lists[token := []];
      }
      lists := lists[token := lists[token] + [ch]];
    }

    method RemoveChannel(ch: Channel)
      modifies this
      ensures Value() == Removed(old(Value()), ch)
    {
      if ch in toConnector {
        toConnector := toConnector - {ch};
      }
      if ch in toClient {
        toClient := toClient - {ch};
      }
    }

    method CleanupToken(token: Token)
      modifies this
      ensures Value() == Cleaned(old(Value()), token)
    {
      if token in lists {
        var list := lists[token];
        var i := 0;
        while i < |list|
          invariant 0 <= i <= |list|
          invariant lists == old(lists)
          invariant toClient == old(toClient) - Elements(list[..i])
          invariant toConnector == old(toConnector) - Elements(list[..i])
        {
          var ch := list[i];
          if ch in toConnector {
            toConnector := toConnector - {ch};
          }
          if ch in toClient {
            toClient := toClient - {ch};
          }
          assert list[..i + 1] == list[..i] + [ch];
          assert Elements(list[..i + 1]) == Elements(list[..i]) + {ch};
          i := i + 1;
        }
        assert list[..i] == list;
        lists := lists - {token};
      }
    }
  }

  // ---------------------------------------------------------------- one simple map

  /** What the cache stands for: each live channel with its connections and its token. */
  datatype Binding = Binding(connector: Conn, client: Conn, token: Token)

  datatype Op =
    | Add(ch: Channel, connector: Conn, client: Conn, token: Token)
    | Remove(ch: Channel)
    | Cleanup(token: Token)

  function Apply(c: Cache, op: Op): Cache {
    match op
    case Add(ch, connector, client, token) => Added(c, ch, connector, client, token)
    case Remove(ch) => Removed(c, ch)
    case Cleanup(token) => Cleaned(c, token)
  }

  /** The same operations on the simple map. */
  function Simple(m: map<Channel, Binding>, op: Op): map<Channel, Binding> {
    match op
    case Add(ch, connector, client, token) => m[ch := Binding(connector, client, token)]
    case Remove(ch) => m - {ch}
    case Cleanup(token) => map ch | ch in m && m[ch].token != token :: m[ch]
  }

  /** The token each channel id has been used under. */
  function Homes(homes: map<Channel, Token>, op: Op): map<Channel, Token> {
    if op.Add? then homes[op.ch := op.token] else homes
  }

  /** Each channel id is used under one token only. */
  predicate OneToken(homes: map<Channel, Token>, op: Op) {
    op.Add? && op.ch in homes ==> homes[op.ch] == op.token
  }

  /** The two channel maps have the same keys and say what the simple map says. */
  ghost predicate Mirrors(c: Cache, m: map<Channel, Binding>) {
    && c.toClient.Keys == m.Keys && c.toConnector.Keys == m.Keys
    && (forall ch <- m :: m[ch].client == c.toClient[ch] && m[ch].connector == c.toConnector[ch])
  }

  /** Every live channel is in its token's list. */
  ghost predicate AllListed(c: Cache, homes: map<Channel, Token>, m: map<Channel, Binding>) {
    forall ch <- m :: ch in homes && homes[ch] == m[ch].token && ch in Listed(c.lists, m[ch].token)
  }

  ghost predicate ListedAt(c: Cache, t: Token, ch: Channel) {
    ch in Listed(c.lists, t)
  }

  /** A list holds only channels of its token, with whatever stale and duplicate entries earlier
      channels left behind. */
  ghost predicate AllHomed(c: Cache, homes: map<Channel, Token>) {
    forall t, ch :: ListedAt(c, t, ch) ==> ch in homes && homes[ch] == t
  }

  ghost predicate Represents(c: Cache, homes: map<Channel, Token>, m: map<Channel, Binding>) {
    Mirrors(c, m) && AllListed(c, homes, m) && AllHomed(c, homes)
  }

  lemma AddRepresents(c: Cache, homes: map<Channel, Token>, m: map<Channel, Binding>, op: Op)
    requires Represents(c, homes, m) && op.Add? && OneToken(homes, op)
    ensures Represents(Apply(c, op), Homes(homes, op), Simple(m, op))
  {
    var d := Apply(c, op);
    assert Mirrors(d, Simple(m, op));
    assert forall t :: t != op.token ==> Listed(d.lists, t) == Listed(c.lists, t);
    assert Listed(d.lists, op.token) == Listed(c.lists, op.token) + [op.ch];
    assert AllListed(d, Homes(homes, op), Simple(m, op));
    forall t, ch | ListedAt(d, t, ch) ensures ch in Homes(homes, op) && Homes(homes, op)[ch] == t {
      assert ListedAt(c, t, ch) || (t == op.token && ch == op.ch);
    }
  }

  lemma RemoveRepresents(c: Cache, homes: map<Channel, Token>, m: map<Channel, Binding>, ch: Channel)
    requires Represents(c, homes, m)
    ensures Represents(Removed(c, ch), homes, Simple(m, Remove(ch)))
  {
    var d := Removed(c, ch);
    assert forall t, x :: ListedAt(d, t, x) == ListedAt(c, t, x);
  }

  lemma CleanupRepresents(c: Cache, homes: map<Channel, Token>, m: map<Channel, Binding>, token: Token)
    requires Represents(c, homes, m)
    ensures Represents(Cleaned(c, token), homes, Simple(m, Cleanup(token)))
  {
    var d := Cleaned(c, token);
    var gone := Elements(Listed(c.lists, token));
    forall ch <- m ensures ch in gone <==> m[ch].token == token {
      assert ch in gone <==> ListedAt(c, token, ch);
    }
    assert Mirrors(d, Simple(m, Cleanup(token)));
    forall t, ch | ListedAt(d, t, ch) ensures ch in homes && homes[ch] == t {
      assert ListedAt(c, t, ch);
    }
  }

  /** When one clean-up agrees with the simple map: exactly when every live channel the token's list
      mentions, however stale the entry, is a channel of that token now. */
  lemma CleanupExactly(c: Cache, m: map<Channel, Binding>, token: Token)
    requires Mirrors(c, m) && forall ch <- m :: ListedAt(c, m[ch].token, ch)
    ensures Mirrors(Cleaned(c, token), Simple(m, Cleanup(token)))
            <==> forall ch <- m :: ListedAt(c, token, ch) ==> m[ch].token == token
  {
    var d, n := Cleaned(c, token), Simple(m, Cleanup(token));
    var gone := Elements(Listed(c.lists, token));
    assert forall ch :: ch in gone <==> ListedAt(c, token, ch);
    if ch :| ch in m && ListedAt(c, token, ch) && m[ch].token != token {
      assert ch in n && ch !in d.toClient;
    }
  }

  /** Refinement: each operation on the cache is the operation on the simple map.  In particular
      cleaning up a token removes exactly that token's live channels. */
  lemma Refines(c: Cache, homes: map<Channel, Token>, m: map<Channel, Binding>, op: Op)
    requires Represents(c, homes, m) && OneToken(homes, op)
    ensures Represents(Apply(c, op), Homes(homes, op), Simple(m, op))
  {
    match op {
      case Add(_, _, _, _) => AddRepresents(c, homes, m, op);
      case Remove(ch) => RemoveRepresents(c, homes, m, ch);
      case Cleanup(token) => CleanupRepresents(c, homes, m, token);
    }
  }

  predicate OneTokenEach(homes: map<Channel, Token>, ops: seq<Op>)
    decreases |ops|
  {
    ops != [] ==> OneToken(homes, ops[0]) && OneTokenEach(Homes(homes, ops[0]), ops[1..])
  }

  function Run(c: Cache, ops: seq<Op>): Cache
    decreases |ops|
  {
    if ops == [] then c else Run(Apply(c, ops[0]), ops[1..])
  }

  function SimpleRun(m: map<Channel, Binding>, ops: seq<Op>): map<Channel, Binding>
    decreases |ops|
  {
    if ops == [] then m else SimpleRun(Simple(m, ops[0]), ops[1..])
  }

  lemma {:induction false} RunRepresents(c: Cache, homes: map<Channel, Token>, m: map<Channel, Binding>, ops: seq<Op>)
    returns (after: map<Channel, Token>)
    requires Represents(c, homes, m) && OneTokenEach(homes, ops)
    ensures Represents(Run(c, ops), after, SimpleRun(m, ops))
    decreases |ops|
  {
    if ops == [] {
      after := homes;
    } else {
      Refines(c, homes, m, ops[0]);
      after := RunRepresents(Apply(c, ops[0]), Homes(homes, ops[0]), Simple(m, ops[0]), ops[1..]);
    }
  }

  /** After any run of operations both look-ups answer what the simple map says. */
  lemma LookupsAgree(ops: seq<Op>)
    requires OneTokenEach(map[], ops)
    ensures var c, m := Run(Empty, ops), SimpleRun(map[], ops);
            && c.toClient == (map ch | ch in m :: m[ch].client)
            && c.toConnector == (map ch | ch in m :: m[ch].connector)
  {
    var homes := RunRepresents(Empty, map[], map[], ops);
  }

  /** Used under two tokens, a channel is dropped by cleaning up the one it left: the entry the
      first use put in that token's list is stale and still believed. */
  lemma TwoTokens(ch: Channel, a: Conn, b: Conn)
    ensures var ops := [Add(ch, a, b, "old"), Remove(ch), Add(ch, a, b, "new"), Cleanup("old")];
            !OneTokenEach(map[], ops)
            && Run(Empty, ops).toClient == map[] && SimpleRun(map[], ops) == map[ch := Binding(a, b, "new")]
  {
    var ops := [Add(ch, a, b, "old"), Remove(ch), Add(ch, a, b, "new"), Cleanup("old")];
    var c1 := Apply(Empty, ops[0]);
    assert Listed(Empty.lists, "old") + [ch] == [ch];
    assert c1 == Cache(map[ch := b], map[ch := a], map["old" := [ch]]);
    var c2 := Apply(c1, ops[1]);
    assert c2 == Cache(map[], map[], map["old" := [ch]]);
    var c3 := Apply(c2, ops[2]);
    assert Listed(c2.lists, "new") + [ch] == [ch];
    assert c3.toClient == map[ch := b] && c3.lists == map["old" := [ch], "new" := [ch]];
    var c4 := Apply(c3, ops[3]);
    assert Elements(Listed(c3.lists, "old")) == {ch};
    assert c4.toClient == map[];
    var m1 := Simple(map[], ops[0]);
    var m3 := Simple(Simple(m1, ops[1]), ops[2]);
    assert m3 == map[ch := Binding(a, b, "new")];
    assert Simple(m3, ops[3]) == m3;
    assert ops[1..] == [ops[1], ops[2], ops[3]] && ops[1..][1..] == [ops[2], ops[3]];
    assert [ops[2], ops[3]][1..] == [ops[3]] && [ops[3]][1..] == [];
    assert Run(Empty, ops) == c4 by {
      assert Run(c3, [ops[3]]) == c4;
      assert Run(c2, [ops[2], ops[3]]) == c4;
    }
    assert SimpleRun(map[], ops) == m3 by {
      assert SimpleRun(m3, [ops[3]]) == m3;
      assert SimpleRun(Simple(m1, ops[1]), [ops[2], ops[3]]) == m3;
    }
    assert !OneTokenEach(Homes(Homes(map[], ops[0]), ops[1]), [ops[2], ops[3]]);
  }
}
