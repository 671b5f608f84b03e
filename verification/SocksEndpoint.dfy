/** The channel maps on the SOCKS side: what is left in them once a request has ended. */
module SocksEndpoint {
  import opened Bytes
  import opened Endpoint

  /** A request waits for its answer and then forwards. */
  datatype Stage = Waiting | Relaying | Over

  /** `forwarded` records that forwarding began, `told` that a Disconnect has arrived since. */
  datatype Request = Request(stage: Stage, forwarded: bool, told: bool, udp: bool)

  datatype Relayed = Relayed(maps: Maps, requests: map<Channel, Request>)

  const Nothing := Relayed(Idle, map[])

  datatype Event =
    | Opened(ch: Channel, udp: bool)         // a queue for the answer is installed
    | Answered(ch: Channel, task: Task)      // forwarding begins, with a queue of its own
    | Datagram(ch: Channel, addr: string)    // the SOCKS client's address is noted
    | Told(ch: Channel)                      // a Disconnect arrives
    | GivenUp(ch: Channel)                   // no answer, or a refusal
    | Stopped(ch: Channel)                     // forwarding ends
    | Fires(ch: Channel)                     // a delayed clean-up runs

  function StageOf(s: Relayed, ch: Channel): Option<Stage> {
    if ch in s.requests then Some(s.requests[ch].stage) else None
  }

  function After(s: Relayed, e: Event): Relayed {
    match e
    case Opened(ch, udp) =>
      Relayed(s.maps.(queues := s.maps.queues + {ch}), s.requests[ch := Request(Waiting, false, false, udp)])
    case Answered(ch, task) =>
      if StageOf(s, ch) == Some(Waiting) then
        var r := s.requests[ch].(stage := Relaying, forwarded := true, told := false);
        Relayed(Stored(s.maps.(queues := s.maps.queues + {ch}), ch, task, r.udp), s.requests[ch := r])
      else s
    case Datagram(ch, addr) =>
      if StageOf(s, ch) == Some(Relaying) then s.(maps := s.maps.(addrs := s.maps.addrs[ch := addr])) else s
    case Told(ch) =>
      var d := s.(maps := Disconnected(s.maps, ch, false));
      if ch in s.requests then d.(requests := s.requests[ch := s.requests[ch].(told := true)]) else d
    case GivenUp(ch) =>
      if StageOf(s, ch) == Some(Waiting) then
        Relayed(s.maps.(queues := s.maps.queues - {ch}), s.requests[ch := s.requests[ch].(stage := Over)])
      else s
    case Stopped(ch) =>
      if StageOf(s, ch) == Some(Relaying) then
        Relayed(s.maps.(queues := s.maps.queues - {ch}, addrs := s.maps.addrs - {ch}),
                s.requests[ch := s.requests[ch].(stage := Over)])
      else s
    case Fires(ch) => if ch in s.maps.timers then s.(maps := Fired(s.maps, ch)) else s
  }

  /** Request ids are fresh. */
  predicate Possible(s: Relayed, events: seq<Event>)
    decreases |events|
  {
    events != [] ==> (events[0].Opened? ==> events[0].ch !in s.requests) && Possible(After(s, events[0]), events[1..])
  }

  function Final(s: Relayed, events: seq<Event>): Relayed
    decreases |events|
  {
    if events == [] then s else Final(After(s, events[0]), events[1..])
  }

  predicate RequestOk(m: Maps, ch: Channel, r: Request) {
    && ch !in m.successes
    && (HasTask(m, ch) <==> r.forwarded && !r.told)
    && (r.stage == Over ==> ch !in m.queues && ch !in m.addrs)
    && (r.stage == Waiting ==> ch !in m.addrs && !r.forwarded)
  }

  predicate Kept(s: Relayed, ch: Channel) {
    if ch in s.requests then RequestOk(s.maps, ch, s.requests[ch]) else InNoMap(s.maps, ch)
  }

  lemma OthersKept(s: Relayed, e: Event, ch: Channel)
    requires Kept(s, ch) && e.ch != ch
    ensures Kept(After(s, e), ch)
  {
    DisconnectedOthers(s.maps, e.ch, false, ch);
  }

  lemma StepKeeps(s: Relayed, e: Event, ch: Channel)
    requires Kept(s, ch) && (e.Opened? ==> e.ch !in s.requests)
    ensures Kept(After(s, e), ch)
  {
    if e.ch != ch { OthersKept(s, e, ch); }
  }

  lemma {:induction false} RunKeeps(s: Relayed, events: seq<Event>, ch: Channel)
    requires Kept(s, ch) && Possible(s, events)
    ensures Kept(Final(s, events), ch)
    decreases |events|
  {
    if events != [] {
      StepKeeps(s, events[0], ch);
      RunKeeps(After(s, events[0]), events[1..], ch);
    }
  }

  /** The request begins to forward, and no Disconnect arrives after that. */
  predicate ForwardsUntold(s: Relayed, events: seq<Event>, ch: Channel)
    decreases |events|
  {
    events != [] &&
    ((events[0].Answered? && events[0].ch == ch && StageOf(s, ch) == Some(Waiting) && Told(ch) !in events[1..])
     || ForwardsUntold(After(s, events[0]), events[1..], ch))
  }

  predicate IsUntold(s: Relayed, ch: Channel) {
    ch in s.requests && s.requests[ch].forwarded && !s.requests[ch].told
  }

  lemma StepUntold(s: Relayed, e: Event, ch: Channel)
    requires e.Opened? ==> e.ch !in s.requests
    ensures IsUntold(After(s, e), ch)
            <==> (IsUntold(s, ch) && e != Told(ch)) || (e.Answered? && e.ch == ch && StageOf(s, ch) == Some(Waiting))
  {
  }

  lemma {:induction false} RunUntold(s: Relayed, events: seq<Event>, ch: Channel)
    requires Possible(s, events)
    ensures IsUntold(Final(s, events), ch)
            <==> (IsUntold(s, ch) && Told(ch) !in events) || ForwardsUntold(s, events, ch)
    decreases |events|
  {
    if events != [] {
      StepUntold(s, events[0], ch);
      RunUntold(After(s, events[0]), events[1..], ch);
      assert Told(ch) in events <==> events[0] == Told(ch) || Told(ch) in events[1..];
    }
  }

  /** Once a request is over its channel is in none of the maps unless it began to forward and no
      Disconnect has arrived since: nothing else takes the forwarder out of its map. */
  lemma LeftBehindExactly(events: seq<Event>, ch: Channel)
    requires Possible(Nothing, events)
    ensures var s := Final(Nothing, events);
            StageOf(s, ch) == Some(Over) ==> (InNoMap(s.maps, ch) <==> !ForwardsUntold(Nothing, events, ch))
  {
    RunKeeps(Nothing, events, ch);
    RunUntold(Nothing, events, ch);
  }

  /** ... so a connector, which is never sent a Disconnect, keeps the entry of every request. */
  lemma EntryStays(ch: Channel, task: Task)
    ensures var events := [Opened(ch, false), Answered(ch, task), Stopped(ch)];
            Possible(Nothing, events) && StageOf(Final(Nothing, events), ch) == Some(Over)
            && ch in Final(Nothing, events).maps.tcp
  {
    var events := [Opened(ch, false), Answered(ch, task), Stopped(ch)];
    var s1 := After(Nothing, events[0]);
    var s2 := After(s1, events[1]);
    assert events[1..] == [events[1], events[2]] && events[1..][1..] == [events[2]] && [events[2]][1..] == [];
    assert Final(s2, [events[2]]) == After(s2, events[2]);
    assert Final(s1, [events[1], events[2]]) == After(s2, events[2]);
    assert Possible(s2, [events[2]]) && Possible(s1, [events[1], events[2]]);
  }
}
