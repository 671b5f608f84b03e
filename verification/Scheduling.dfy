/** The round robin at work in the registry: who is picked while other operations go on. */
module Scheduling {
  import opened Bytes
  import opened Registry
  import R = Registry
  import RR = RoundRobin
  import RI = RegistryInvariant

  // ---------------------------------------------------------------- picks in a row

  /** The connections k picks in a row go to. */
  function Picked(s: Registry, t: Token, k: nat): seq<Option<Conn>>
    decreases k
  {
    if k == 0 then [] else [PickNext(s, t).1] + Picked(PickNext(s, t).0, t, k - 1)
  }

  lemma OnePick(s: Registry, t: Token)
    requires ListOf(s.members, t) != []
    ensures var list, next := ListOf(s.members, t), RR.Advance(StoredIndex(s.members, t), |ListOf(s.members, t)|);
            && PickNext(s, t).1 == Some(list[next].ws)
            && ListOf(PickNext(s, t).0.members, t) == list && StoredIndex(PickNext(s, t).0.members, t) == next
  {
  }

  /** They are the entries of the list at the positions of the round robin, */
  lemma {:induction false} PicksFollowRoundRobin(s: Registry, t: Token, k: nat, i: nat)
    requires ListOf(s.members, t) != [] && i < k
    ensures var list := ListOf(s.members, t);
            var at := RR.Picks(StoredIndex(s.members, t), |list|, k);
            |Picked(s, t, k)| == k && at[i] < |list| && Picked(s, t, k)[i] == Some(list[at[i]].ws)
    decreases k
  {
    OnePick(s, t);
    if k > 1 {
      PicksFollowRoundRobin(PickNext(s, t).0, t, k - 1, if i == 0 then 0 else i - 1);
    }
  }

  /** How many of the picks went to a connection. */
  function Share(picked: seq<Option<Conn>>, ws: Conn): nat {
    if picked == [] then 0 else (if picked[0] == Some(ws) then 1 else 0) + Share(picked[1..], ws)
  }

  ghost predicate OwnSockets(list: seq<Entry>) {
    forall i, j | 0 <= i < j < |list| :: list[i].ws != list[j].ws
  }

  lemma {:induction false} ShareIsTimes(s: Registry, t: Token, k: nat, j: nat)
    requires j < |ListOf(s.members, t)| && OwnSockets(ListOf(s.members, t))
    ensures var list := ListOf(s.members, t);
            Share(Picked(s, t, k), list[j].ws) == RR.Times(RR.Picks(StoredIndex(s.members, t), |list|, k), j)
    decreases k
  {
    if k > 0 {
      var list := ListOf(s.members, t);
      OnePick(s, t);
      ShareIsTimes(PickNext(s, t).0, t, k - 1, j);
      var next := RR.Advance(StoredIndex(s.members, t), |list|);
      assert RR.Picks(StoredIndex(s.members, t), |list|, k)[1..] == RR.Picks(next, |list|, k - 1);
      assert Picked(s, t, k)[1..] == Picked(PickNext(s, t).0, t, k - 1);
    }
  }

  /** so of k picks in a row every registered connection gets k/n, rounded down or up. */
  lemma PicksAreBalanced(s: Registry, t: Token, k: nat, j: nat)
    requires j < |ListOf(s.members, t)| && OwnSockets(ListOf(s.members, t))
    ensures var n, share := |ListOf(s.members, t)|, Share(Picked(s, t, k), ListOf(s.members, t)[j].ws);
            k / n <= share <= (k + n - 1) / n
  {
    ShareIsTimes(s, t, k, j);
    RR.Balance(StoredIndex(s.members, t), |ListOf(s.members, t)|, k, j);
  }

  // ---------------------------------------------------------------- waiting for one's turn

  /** The event picks from the token, adds a connection at the end of its list without touching its
      index, or leaves both alone. */
  ghost predicate Steady(s: Registry, e: Event, t: Token) {
    var m, d := s.members, R.Apply(s, e).members;
    e == EPickNext(t) ||
    (StoredIndex(d, t) == StoredIndex(m, t) && ListOf(m, t) <= ListOf(d, t) && |ListOf(d, t)| <= |ListOf(m, t)| + 1)
  }

  ghost predicate SteadyRun(s: Registry, events: seq<Event>, t: Token)
    decreases |events|
  {
    events != [] ==> Steady(s, events[0], t) && SteadyRun(R.Apply(s, events[0]), events[1..], t)
  }

  /** The run as the scheduler of the token sees it. */
  ghost function Seen(s: Registry, events: seq<Event>, t: Token): seq<RR.Event>
    decreases |events|
  {
    if events == [] then []
    else
      var d := R.Apply(s, events[0]);
      (if events[0] == EPickNext(t) then [RR.Pick]
       else if |ListOf(d.members, t)| > |ListOf(s.members, t)| then [RR.Join] else [])
      + Seen(d, events[1..], t)
  }

  /** Some pick of the run goes to the entry. */
  ghost predicate Served(s: Registry, events: seq<Event>, t: Token, x: Entry)
    decreases |events|
  {
    events != [] &&
    ((events[0] == EPickNext(t) && PickNext(s, t).1 == Some(x.ws)) || Served(R.Apply(s, events[0]), events[1..], t, x))
  }

  /** The run's first event as the scheduler sees it. */
  lemma SteadyFirst(s: Registry, events: seq<Event>, t: Token)
    requires events != [] && Steady(s, events[0], t)
    ensures var m, d := s.members, R.Apply(s, events[0]);
            var rest := Seen(d, events[1..], t);
            if events[0] == EPickNext(t) then Seen(s, events, t) == [RR.Pick] + rest
            else
              && ListOf(m, t) <= ListOf(d.members, t) && StoredIndex(d.members, t) == StoredIndex(m, t)
              && if |ListOf(d.members, t)| > |ListOf(m, t)| then
                   Seen(s, events, t) == [RR.Join] + rest && |ListOf(d.members, t)| == |ListOf(m, t)| + 1
                 else Seen(s, events, t) == rest
  {
    var rest := Seen(R.Apply(s, events[0]), events[1..], t);
    assert [] + rest == rest;
  }

  lemma {:induction false} ChosenIsServed(s: Registry, events: seq<Event>, t: Token, p: nat, x: Entry)
    requires p < |ListOf(s.members, t)| && ListOf(s.members, t)[p] == x && SteadyRun(s, events, t)
    requires RR.Chosen(StoredIndex(s.members, t), |ListOf(s.members, t)|, Seen(s, events, t), p)
    ensures Served(s, events, t, x)
    decreases |events|
  {
    var d := R.Apply(s, events[0]);
    if !(events[0] == EPickNext(t) && PickNext(s, t).1 == Some(x.ws)) {
      ChosenLater(s, events, t, p, x);
      ChosenIsServed(d, events[1..], t, p, x);
    }
  }

  lemma ChosenLater(s: Registry, events: seq<Event>, t: Token, p: nat, x: Entry)
    requires p < |ListOf(s.members, t)| && ListOf(s.members, t)[p] == x && events != [] && Steady(s, events[0], t)
    requires RR.Chosen(StoredIndex(s.members, t), |ListOf(s.members, t)|, Seen(s, events, t), p)
    requires !(events[0] == EPickNext(t) && PickNext(s, t).1 == Some(x.ws))
    ensures var d := R.Apply(s, events[0]);
            && p < |ListOf(d.members, t)| && ListOf(d.members, t)[p] == x
            && RR.Chosen(StoredIndex(d.members, t), |ListOf(d.members, t)|, Seen(d, events[1..], t), p)
  {
    SteadyFirst(s, events, t);
    RR.ChosenStep(StoredIndex(s.members, t), |ListOf(s.members, t)|, Seen(R.Apply(s, events[0]), events[1..], t), p);
    if events[0] == EPickNext(t) { OnePick(s, t); }
  }

  /** Bounded waiting: a connection registered when its token had n is picked within n picks and one
      more for every connection that joins meanwhile, whatever index was stored before. */
  lemma ServedInTurn(s: Registry, events: seq<Event>, t: Token, x: Entry)
    requires x in ListOf(s.members, t) && SteadyRun(s, events, t)
    requires RR.Count(Seen(s, events, t), RR.Pick) >= |ListOf(s.members, t)| + RR.Count(Seen(s, events, t), RR.Join)
    ensures Served(s, events, t, x)
  {
    var p :| 0 <= p < |ListOf(s.members, t)| && ListOf(s.members, t)[p] == x;
    RR.BoundedWaiting(StoredIndex(s.members, t), |ListOf(s.members, t)|, Seen(s, events, t), p);
    ChosenIsServed(s, events, t, p, x);
  }

  lemma LeavesAlone(s: Registry, e: Event, t: Token)
    requires e != EPickNext(t) && !e.ERemove? && !e.EReverseLogin? && !e.EConnectorLogin?
    requires !(e.ECleanup? && e.cid in s.members.logins && s.members.logins[e.cid].token == t)
    ensures var m, d := s.members, R.Apply(s, e).members;
            ListOf(d, t) == ListOf(m, t) && StoredIndex(d, t) == StoredIndex(m, t)
  {
  }

  /** For a token with a port every operation is steady but removals and the end of one of its own
      connections. */
  lemma SharedTokensAreSteady(s: Registry, e: Event, t: Token)
    requires Inv(s) && R.Enabled(s, e) && t in s.names.tokens && !Manages(s.names, t)
    requires !e.ERemove? && !(e.ECleanup? && e.cid in s.members.logins && s.members.logins[e.cid].token == t)
    ensures Steady(s, e, t)
  {
    if e != EPickNext(t) && !e.EReverseLogin? && !e.EConnectorLogin? { LeavesAlone(s, e, t); }
  }

  /** Not so for the token of an instance: another login of the instance sends the round robin back
      to the start, so it is steady exactly when the index is there already. */
  lemma LoginsOfInstancesExactly(s: Registry, t: Token, inst: Token, cid: Cid, ws: Conn)
    requires Inv(s) && R.Enabled(s, EReverseLogin(t, inst, cid, ws)) && t in s.names.tokens && Manages(s.names, t)
    ensures Steady(s, EReverseLogin(t, inst, cid, ws), inst) <==> StoredIndex(s.members, inst) == 0
  {
  }

  // ---------------------------------------------------------------- waiting among the connections of an instance

  /** The event picks from the token, adds a connection at the end and sends the index back to 0, or
      leaves list and index alone. */
  ghost predicate Resetting(s: Registry, e: Event, t: Token) {
    var m, d := s.members, R.Apply(s, e).members;
    || e == EPickNext(t)
    || (ListOf(d, t) == ListOf(m, t) && StoredIndex(d, t) == StoredIndex(m, t))
    || (ListOf(m, t) <= ListOf(d, t) && |ListOf(d, t)| == |ListOf(m, t)| + 1 && StoredIndex(d, t) == 0)
  }

  ghost predicate ResettingRun(s: Registry, events: seq<Event>, t: Token)
    decreases |events|
  {
    events != [] ==> Resetting(s, events[0], t) && ResettingRun(R.Apply(s, events[0]), events[1..], t)
  }

  /** Some pick of the run chooses position p of the list. */
  ghost predicate ServedAt(s: Registry, events: seq<Event>, t: Token, p: nat)
    decreases |events|
  {
    events != [] &&
    (|| (events[0] == EPickNext(t) && p < |ListOf(s.members, t)|
         && RR.Advance(StoredIndex(s.members, t), |ListOf(s.members, t)|) == p)
     || ServedAt(R.Apply(s, events[0]), events[1..], t, p))
  }

  /** The run's first event as the scheduler sees it. */
  lemma SeenFirst(s: Registry, events: seq<Event>, t: Token)
    requires events != [] && Resetting(s, events[0], t)
    ensures var m, d := s.members, R.Apply(s, events[0]);
            var rest := Seen(d, events[1..], t);
            if events[0] == EPickNext(t) then Seen(s, events, t) == [RR.Pick] + rest
            else if |ListOf(d.members, t)| > |ListOf(m, t)| then
              Seen(s, events, t) == [RR.Join] + rest && |ListOf(d.members, t)| == |ListOf(m, t)| + 1
              && StoredIndex(d.members, t) == 0
            else
              Seen(s, events, t) == rest && ListOf(d.members, t) == ListOf(m, t)
              && StoredIndex(d.members, t) == StoredIndex(m, t)
  {
    var rest := Seen(R.Apply(s, events[0]), events[1..], t);
    assert [] + rest == rest;
  }

  lemma {:induction false} ServedAsChosen(s: Registry, events: seq<Event>, t: Token, p: nat)
    requires p < |ListOf(s.members, t)| && ResettingRun(s, events, t)
    ensures ServedAt(s, events, t, p)
            <==> RR.ChosenDespite(StoredIndex(s.members, t), |ListOf(s.members, t)|, Seen(s, events, t), p)
    decreases |events|
  {
    if events != [] {
      var d := R.Apply(s, events[0]);
      SeenFirst(s, events, t);
      if events[0] == EPickNext(t) { OnePick(s, t); }
      ServedAsChosen(d, events[1..], t, p);
      RR.ChosenDespiteStep(StoredIndex(s.members, t), |ListOf(s.members, t)|, Seen(d, events[1..], t), p);
    }
  }

  /** For the token of an instance every operation is of that kind but removals and the end of one of its
      own connections. */
  lemma InstanceTokensReset(s: Registry, e: Event, inst: Token)
    requires Inv(s) && R.Enabled(s, e) && inst in s.names.tokens && Manages(s.names, inst)
    requires !e.ERemove? && !(e.ECleanup? && e.cid in s.members.logins && s.members.logins[e.cid].token == inst)
    ensures Resetting(s, e, inst)
  {
    if e != EPickNext(inst) && !e.EReverseLogin? && !e.EConnectorLogin? { LeavesAlone(s, e, inst); }
  }

  /** Among the connections of an instance one is picked exactly when some stretch of picks between two
      logins is long enough to reach it, from the index stored before or from 0 behind a login. */
  lemma InstanceServedExactly(s: Registry, events: seq<Event>, t: Token, p: nat)
    requires p < |ListOf(s.members, t)| && ResettingRun(s, events, t)
    ensures ServedAt(s, events, t, p)
            <==> exists a, k ::
                   RR.LongEnough(StoredIndex(s.members, t), |ListOf(s.members, t)|, Seen(s, events, t), p, a, k)
  {
    ServedAsChosen(s, events, t, p);
    RR.ChosenDespiteExactly(StoredIndex(s.members, t), |ListOf(s.members, t)|, Seen(s, events, t), p);
  }

  /** The bound that remains for them. */
  lemma InstanceServedInTurn(s: Registry, events: seq<Event>, t: Token, p: nat)
    requires p < |ListOf(s.members, t)| && ResettingRun(s, events, t)
    requires var n, joins := |ListOf(s.members, t)|, RR.Count(Seen(s, events, t), RR.Join);
             RR.Count(Seen(s, events, t), RR.Pick) >= n + joins * (n + joins)
    ensures ServedAt(s, events, t, p)
  {
    ServedAsChosen(s, events, t, p);
    RR.BoundedDespite(StoredIndex(s.members, t), |ListOf(s.members, t)|, Seen(s, events, t), p);
  }

  /** There the bound of other tokens fails: among three connections of an instance the first is not picked in
      five picks during which one more logs in. */
  lemma InstanceOvertaken(s: Registry, t: Token, inst: Token, cid: Cid, ws: Conn)
    requires t in s.names.tokens && Manages(s.names, t)
    requires |ListOf(s.members, inst)| == 3 && StoredIndex(s.members, inst) == 0
    requires forall k | 1 <= k < 3 :: ListOf(s.members, inst)[k].ws != ListOf(s.members, inst)[0].ws
    requires ws != ListOf(s.members, inst)[0].ws
    ensures var pick := EPickNext(inst);
            !Served(s, [pick, pick, EReverseLogin(t, inst, cid, ws), pick, pick, pick], inst,
                ListOf(s.members, inst)[0])
  {
    var pick, login, x := EPickNext(inst), EReverseLogin(t, inst, cid, ws), ListOf(s.members, inst)[0];
    OnePick(s, inst);
    var s1 := R.Apply(s, pick);
    OnePick(s1, inst);
    var s2 := R.Apply(s1, pick);
    var s3 := R.Apply(s2, login);
    assert ListOf(s3.members, inst) == ListOf(s.members, inst) + [Entry(cid, ws)] && StoredIndex(s3.members, inst) == 0;
    NotYet(s3, inst, x);
    var tail := [pick, pick, pick];
    assert ([login] + tail)[1..] == tail && !Served(s2, [login] + tail, inst, x);
    assert ([pick, login] + tail)[1..] == [login] + tail && !Served(s1, [pick, login] + tail, inst, x);
    assert ([pick, pick, login] + tail)[1..] == [pick, login] + tail;
    assert [pick, pick, login] + tail == [pick, pick, login, pick, pick, pick];
  }

  /** From the start of a list of four, three picks leave out the first. */
  lemma NotYet(s: Registry, t: Token, x: Entry)
    requires |ListOf(s.members, t)| == 4 && StoredIndex(s.members, t) == 0
    requires forall k | 1 <= k < 4 :: ListOf(s.members, t)[k].ws != x.ws
    ensures !Served(s, [EPickNext(t), EPickNext(t), EPickNext(t)], t, x)
  {
    var pick := EPickNext(t);
    OnePick(s, t);
    var s1 := R.Apply(s, pick);
    OnePick(s1, t);
    var s2 := R.Apply(s1, pick);
    OnePick(s2, t);
    assert [pick][1..] == [] && [pick, pick][1..] == [pick] && [pick, pick, pick][1..] == [pick, pick];
    assert !Served(s2, [pick], t, x);
    assert !Served(s1, [pick, pick], t, x);
  }

  /** One more connection of the instance logs in. */
  lemma AnotherConnection(before: seq<Event>, options: Options, list: seq<Entry>, cid: Cid, ws: Conn)
    returns (events: seq<Event>)
    requires options.manage && R.Runs(Start({}), before) && OnlyInstance(R.Run(Start({}), before), options, list)
    requires forall x <- R.Run(Start({}), before).members.logins :: x < cid
    ensures R.Runs(Start({}), events) && OnlyInstance(R.Run(Start({}), events), options, list + [Entry(cid, ws)])
    ensures forall x <- R.Run(Start({}), events).members.logins :: x <= cid
  {
    RI.RunsThen(Start({}), before, EReverseLogin("t", "i", cid, ws));
    events := before + [EReverseLogin("t", "i", cid, ws)];
  }

  /** The connections are those of one instance of an autonomy token. */
  predicate OnlyInstance(s: Registry, options: Options, list: seq<Entry>) {
    && s.names.connectors == map[] && Manages(s.names, "t") && "t" in s.names.tokens && "i" in s.names.instances
    && ListOf(s.members, "i") == list && StoredIndex(s.members, "i") == 0
  }

  /** A run that comes to this: an autonomy token and three connections of one instance. */
  lemma Overtaken(options: Options) returns (events: seq<Event>)
    requires options.manage
    ensures R.Runs(Start({}), events)
    ensures var s, pick := R.Run(Start({}), events), EPickNext("i");
            && ListOf(s.members, "i") == [Entry(0, 10), Entry(1, 11), Entry(2, 12)]
            && !Served(s, [pick, pick, EReverseLogin("t", "i", 3, 13), pick, pick, pick], "i", Entry(0, 10))
  {
    events := RI.OneInstance(options, 10);
    events := AnotherConnection(events, options, [Entry(0, 10)], 1, 11);
    assert [Entry(0, 10)] + [Entry(1, 11)] == [Entry(0, 10), Entry(1, 11)];
    events := AnotherConnection(events, options, [Entry(0, 10), Entry(1, 11)], 2, 12);
    assert [Entry(0, 10), Entry(1, 11)] + [Entry(2, 12)] == [Entry(0, 10), Entry(1, 11), Entry(2, 12)];
    InstanceOvertaken(R.Run(Start({}), events), "t", "i", 3, 13);
  }
}
