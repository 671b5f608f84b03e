/** The channel protocol between the SOCKS side and the network side of a relay: many TCP channels
    over one FIFO link in each direction.  Every stretch of code between two suspension points is
    one event, and the events of different tasks and channels interleave freely. */
module Stream {
  import opened Bytes

  type Channel = nat

  datatype Side = Socks | Net

  datatype Msg =
    | Connect(ch: Channel)
    | Response(ch: Channel, ok: bool)
    | Data(ch: Channel, bytes: seq<Byte>)
    | Disconnect(ch: Channel)

  /** Where the connection handler of one side stands. */
  datatype Phase = Absent | Waiting | Answered | Forwarding | Closing | Ended

  /** One side of one channel.
      `mapped`: the channel has an entry in the queue map; `owned`: the queue the forwarder reads
      exists; `reader`, `writer`: the two forwarding tasks are alive; `tasked`: the reader is in
      its map; `timers`: delayed queue clean-ups not yet run; `answer`: the ConnectResponse
      in the connect queue.  `readTotal`, `written`, `early` and `lost` are histories: what came out
      of the local socket, what went into it, what arrived before the forwarder's queue existed,
      and what arrived after the queue had left the map. */
  datatype End = End(
    phase: Phase, mapped: bool, owned: bool, reader: bool, writer: bool, tasked: bool, timers: nat,
    answer: Option<bool>,
    queue: seq<seq<Byte>>, inHand: seq<Byte>, outHand: seq<Byte>,
    readTotal: seq<Byte>, written: seq<Byte>, early: seq<Byte>, lost: seq<Byte>,
    disconnects: nat)

  const FreshSocks := End(Waiting, true, false, false, false, false, 0, None, [], [], [], [], [], [], [], 0)
  const FreshNet := End(Absent, false, false, false, false, false, 0, None, [], [], [], [], [], [], [], 0)

  datatype Pair = Pair(socks: End, net: End) {
    function On(side: Side): End {
      if side == Socks then socks else net
    }

    function With(side: Side, e: End): Pair {
      if side == Socks then this.(socks := e) else this.(net := e)
    }
  }

  /** `up` runs from the SOCKS side to the network side, `down` the other way. */
  datatype State = State(chans: map<Channel, Pair>, up: seq<Msg>, down: seq<Msg>)

  const Init := State(map[], [], [])

  /** What one task does on its own side of one channel. */
  datatype Act =
    | Answer(ok: bool)        // the network side reports the outcome of its connect
    | Abort                   // ... or fails without managing to report it
    | Start                   // the network side begins forwarding
    | TakeAnswer              // the SOCKS side gets the response from its queue
    | Swap                    // the SOCKS side installs a new queue and begins forwarding
    | GiveUp                  // the SOCKS side times out or fails before forwarding
    | Read(bytes: seq<Byte>)  // the reader gets bytes from its socket
    | Send                    // ... and puts them on the link
    | Eof                     // ... or finds the socket closed
    | Take                    // the writer gets a chunk from the queue
    | Write(n: nat)           // ... and its socket accepts n more bytes
    | Fault                   // ... or fails
    | Finish                  // one forwarding task is done: both are cancelled
    | Close                   // the handler sends Disconnect and cleans up
    | Timer                   // a delayed clean-up runs

  datatype Event =
    | Open(ch: Channel)
    | Deliver(to: Side)
    | Local(side: Side, ch: Channel, act: Act)

  // ---------------------------------------------------------------- one side

  /** `disconnect_channel` with its default delay. */
  function DisconnectChannel(e: End): End {
    e.(reader := e.reader && !e.tasked, tasked := false, timers := if e.mapped then e.timers + 1 else e.timers)
  }

  predicate CanAct(side: Side, e: End, a: Act) {
    match a
    case Answer(_) => side == Net && e.phase == Waiting
    case Abort => side == Net && e.phase in {Waiting, Answered}
    case Start => side == Net && e.phase == Answered
    case TakeAnswer => side == Socks && e.phase == Waiting && e.answer.Some?
    case Swap => side == Socks && e.phase == Answered
    case GiveUp => side == Socks && e.phase in {Waiting, Answered}
    case Read(bytes) => e.reader && e.inHand == [] && bytes != []
    case Send => e.reader && e.inHand != []
    case Eof => e.reader && e.inHand == []
    case Take => e.writer && e.outHand == [] && e.queue != []
    case Write(n) => e.writer && 0 < n <= |e.outHand|
    case Fault => e.writer
    case Finish => e.phase == Forwarding && (!e.reader || !e.writer)
    case Close => e.phase == Closing
    case Timer => e.timers > 0
  }

  function Act1(side: Side, ch: Channel, e: End, a: Act): (End, seq<Msg>)
    requires CanAct(side, e, a)
  {
    match a
    case Answer(ok) => (e.(phase := if ok then Answered else Closing), [Response(ch, ok)])
    case Abort => (e.(phase := Closing), [])
    case Start =>
      if e.mapped then
        (e.(phase := Forwarding, reader := true, writer := true, tasked := true), [])
      else
        (e.(phase := Closing), [Response(ch, false)])
    case TakeAnswer =>
      if e.answer.value then (e.(phase := Answered), []) else (e.(phase := Ended, mapped := false), [])
    case Swap =>
      (e.(phase := Forwarding, mapped := true, owned := true, reader := true, writer := true, tasked := true), [])
    case GiveUp => (e.(phase := Ended, mapped := false), [])
    case Read(bytes) => (e.(readTotal := e.readTotal + bytes, inHand := bytes), [])
    case Send => (e.(inHand := []), [Data(ch, e.inHand)])
    case Eof => (e.(reader := false), [])
    case Take => (e.(outHand := e.queue[0], queue := e.queue[1..]), [])
    case Write(n) => (e.(written := e.written + e.outHand[..n], outHand := e.outHand[n..]), [])
    case Fault => (e.(writer := false), [])
    case Finish => (e.(phase := Closing, reader := false, writer := false), [])
    case Close =>
      var done := e.(phase := Ended, disconnects := e.disconnects + 1);
      (if side == Net then DisconnectChannel(done) else done.(mapped := false), [Disconnect(ch)])
    case Timer => (e.(timers := e.timers - 1, mapped := false), [])
  }

  /** The dispatcher hands one message to its side of the channel. */
  function Arrive(side: Side, e: End, m: Msg): End {
    match m
    case Connect(_) =>
      if side == Net then e.(phase := Waiting, mapped := true, owned := true) else e
    case Response(_, ok) =>
      if side == Socks && e.phase == Waiting && e.mapped && e.answer.None? then e.(answer := Some(ok)) else e
    case Data(_, bytes) =>
      if !e.owned then e.(early := e.early + bytes)
      else if e.mapped then e.(queue := e.queue + [bytes])
      else e.(lost := e.lost + bytes)
    case Disconnect(_) => DisconnectChannel(e)
  }

  // ---------------------------------------------------------------- the system

  function Inbound(s: State, to: Side): seq<Msg> {
    if to == Net then s.up else s.down
  }

  predicate Enabled(s: State, e: Event) {
    match e
    case Open(ch) => ch !in s.chans
    case Deliver(to) => Inbound(s, to) != [] && Inbound(s, to)[0].ch in s.chans
    case Local(side, ch, a) => ch in s.chans && CanAct(side, s.chans[ch].On(side), a)
  }

  function Next(s: State, e: Event): State
    requires Enabled(s, e)
  {
    match e
    case Open(ch) => State(s.chans[ch := Pair(FreshSocks, FreshNet)], s.up + [Connect(ch)], s.down)
    case Deliver(to) =>
      var m := Inbound(s, to)[0];
      var pair := s.chans[m.ch];
      var chans := s.chans[m.ch := pair.With(to, Arrive(to, pair.On(to), m))];
      if to == Net then State(chans, s.up[1..], s.down) else State(chans, s.up, s.down[1..])
    case Local(side, ch, a) =>
      var pair := s.chans[ch];
      var (after, out) := Act1(side, ch, pair.On(side), a);
      var chans := s.chans[ch := pair.With(side, after)];
      if side == Socks then State(chans, s.up + out, s.down) else State(chans, s.up, s.down + out)
  }

  /** The events can happen one after the other. */
  predicate Runs(s: State, events: seq<Event>)
    decreases |events|
  {
    events != [] ==> Enabled(s, events[0]) && Runs(Next(s, events[0]), events[1..])
  }

  function Run(s: State, events: seq<Event>): State
    requires Runs(s, events)
    decreases |events|
  {
    if events == [] then s else Run(Next(s, events[0]), events[1..])
  }

  // ---------------------------------------------------------------- accounting

  /** The payload bytes of one channel that are on a link. */
  function InFlight(link: seq<Msg>, ch: Channel): seq<Byte> {
    if link == [] then []
    else (if link[0].Data? && link[0].ch == ch then link[0].bytes else []) + InFlight(link[1..], ch)
  }

  lemma {:induction false} FlatAppend(chunks: seq<seq<Byte>>, chunk: seq<Byte>)
    ensures Flat(chunks + [chunk]) == Flat(chunks) + chunk
  {
    if chunks == [] {
      assert Flat([chunk]) == chunk + Flat([]);
    } else {
      assert (chunks + [chunk])[1..] == chunks[1..] + [chunk];
      FlatAppend(chunks[1..], chunk);
    }
  }

  lemma {:induction false} InFlightAppend(link: seq<Msg>, more: seq<Msg>, ch: Channel)
    ensures InFlight(link + more, ch) == InFlight(link, ch) + InFlight(more, ch)
  {
    if link == [] {
      assert [] + more == more;
    } else {
      assert (link + more)[1..] == link[1..] + more;
      InFlightAppend(link[1..], more, ch);
    }
  }

  /** Everything that has arrived at this end, in order of arrival. */
  function Arrived(e: End): seq<Byte> {
    e.early + (e.written + e.outHand + Flat(e.queue) + e.lost)
  }

  /** Once bytes are lost the queue is out of the map for good; before the queue exists nothing
      has been queued, written or lost. */
  predicate EndOk(side: Side, e: End) {
    && (e.lost != [] ==> e.owned && !e.mapped)
    && (!e.owned ==> e.written == [] && e.outHand == [] && e.queue == [] && e.lost == [])
    && (side == Socks && e.phase in {Waiting, Answered} ==> !e.owned && !e.reader)
    && (side == Socks && !e.owned ==> e.readTotal == [] && !e.reader)
    && (side == Net ==> (e.owned <==> e.phase != Absent))
    && (e.phase == Absent ==> side == Net && !e.reader)
    && (e.disconnects == if e.phase == Ended && (side == Net || e.owned) then 1 else 0)
    && (side == Socks && e.phase == Closing ==> e.owned)
    && (side == Socks && e.phase == Forwarding ==> e.owned)
  }

  /** One direction: what was read equals what arrived, what is on the link and what is in hand. */
  predicate Flow(src: End, link: seq<Byte>, dst: End) {
    src.readTotal == Arrived(dst) + (link + src.inHand)
  }

  predicate PairOk(p: Pair, up: seq<Byte>, down: seq<Byte>) {
    && EndOk(Socks, p.socks) && EndOk(Net, p.net)
    && Flow(p.socks, up, p.net) && Flow(p.net, down, p.socks)
    && (p.net.phase == Absent ==>
          p.socks.readTotal == [] && p.socks.answer != Some(true) && p.socks.phase in {Waiting, Ended})
    && p.net.early == []
    && (p.socks.phase == Answered || p.socks.owned ==> p.socks.answer == Some(true))
  }

  predicate ChannelOk(s: State, ch: Channel)
    requires ch in s.chans
  {
    PairOk(s.chans[ch], InFlight(s.up, ch), InFlight(s.down, ch))
  }

  /** A Connect is on its way exactly while the network side has not seen it, and at most once;
      responses come from a network side that has. */
  predicate UpOk(s: State) {
    && (forall i | 0 <= i < |s.up| :: s.up[i].ch in s.chans)
    && (forall i | 0 <= i < |s.up| && s.up[i].Connect? :: s.chans[s.up[i].ch].net.phase == Absent)
    && (forall i, j | 0 <= i < j < |s.up| && s.up[i].Connect? && s.up[j].Connect? :: s.up[i].ch != s.up[j].ch)
  }

  predicate DownOk(s: State) {
    && (forall i | 0 <= i < |s.down| :: s.down[i].ch in s.chans && !s.down[i].Connect?)
    && (forall i | 0 <= i < |s.down| && s.down[i].Response? :: s.chans[s.down[i].ch].net.phase != Absent)
  }

  predicate Inv(s: State) {
    && (forall ch <- s.chans :: ChannelOk(s, ch))
    && UpOk(s) && DownOk(s)
  }

  // ---------------------------------------------------------------- one step

  lemma ControlOnly(msgs: seq<Msg>, ch: Channel)
    requires |msgs| <= 1 && (msgs != [] ==> !msgs[0].Data?)
    ensures InFlight(msgs, ch) == []
  {
  }

  lemma ActKeepsEnd(side: Side, ch: Channel, e: End, a: Act)
    requires CanAct(side, e, a) && EndOk(side, e)
    ensures EndOk(side, Act1(side, ch, e, a).0)
  {
  }

  /** Handling a chunk on its way out does not change what has arrived. */
  lemma ActKeepsArrived(side: Side, ch: Channel, e: End, a: Act)
    requires CanAct(side, e, a)
    ensures Arrived(Act1(side, ch, e, a).0) == Arrived(e)
  {
    var after := Act1(side, ch, e, a).0;
    match a {
      case Take =>
        assert e.outHand + Flat(e.queue) == after.outHand + Flat(after.queue);
        Grow2(e.written, e.outHand, Flat(e.queue));
        Grow2(e.written, after.outHand, Flat(after.queue));
      case Write(n) =>
        assert e.outHand == e.outHand[..n] + e.outHand[n..];
        Grow2(e.written, e.outHand[..n], e.outHand[n..]);
      case _ =>
    }
  }

  function Gained(a: Act): seq<Byte> {
    if a.Read? then a.bytes else []
  }

  /** What a task reads ends up in its hand and from there on the link. */
  lemma ActKeepsHand(side: Side, ch: Channel, e: End, a: Act)
    requires CanAct(side, e, a)
    ensures var (after, msgs) := Act1(side, ch, e, a);
            && after.readTotal == e.readTotal + Gained(a)
            && InFlight(msgs, ch) + after.inHand == e.inHand + Gained(a)
  {
    var (after, msgs) := Act1(side, ch, e, a);
    assert e.readTotal + [] == e.readTotal;
    if a.Send? {
      assert msgs == [msgs[0]];
      assert InFlight(msgs, ch) == e.inHand + InFlight([], ch);
    } else {
      ControlOnly(msgs, ch);
    }
  }

  /** A task on one side keeps what it reads and writes in the accounts. */
  lemma ActKeepsFlow(side: Side, ch: Channel, e: End, a: Act, other: End, out: seq<Byte>, back: seq<Byte>)
    requires CanAct(side, e, a)
    requires Flow(e, out, other) && Flow(other, back, e)
    ensures var (after, msgs) := Act1(side, ch, e, a);
            Flow(after, out + InFlight(msgs, ch), other) && Flow(other, back, after)
  {
    var (after, msgs) := Act1(side, ch, e, a);
    ActKeepsArrived(side, ch, e, a);
    ActKeepsHand(side, ch, e, a);
    Grow2(Arrived(other), out + e.inHand, Gained(a));
    Grow2(out, e.inHand, Gained(a));
    Grow2(out, InFlight(msgs, ch), after.inHand);
  }

  lemma ArriveKeepsEnd(side: Side, e: End, m: Msg)
    requires EndOk(side, e) && (m.Connect? && side == Net ==> e.phase == Absent)
    ensures EndOk(side, Arrive(side, e, m))
  {
  }

  lemma DataArrives(side: Side, e: End, m: Msg)
    requires EndOk(side, e) && m.Data?
    ensures Arrived(Arrive(side, e, m)) == Arrived(e) + m.bytes
  {
    var core := e.written + e.outHand + Flat(e.queue);
    if !e.owned {
      assert core + e.lost == [];
      assert e.early + m.bytes + [] == e.early + [] + m.bytes;
    } else if e.mapped {
      FlatAppend(e.queue, m.bytes);
      Grow2(e.written + e.outHand, Flat(e.queue), m.bytes);
      assert core + m.bytes + [] == core + m.bytes && core + [] == core;
      Grow2(e.early, core, m.bytes);
    } else {
      Grow2(core, e.lost, m.bytes);
      Grow2(e.early, core + e.lost, m.bytes);
    }
  }

  lemma ArriveGains(side: Side, e: End, m: Msg)
    requires EndOk(side, e)
    ensures var after := Arrive(side, e, m);
            && Arrived(after) == Arrived(e) + (if m.Data? then m.bytes else [])
            && after.readTotal == e.readTotal && after.inHand == e.inHand
  {
    if m.Data? {
      DataArrives(side, e, m);
    } else {
      assert Arrived(e) + [] == Arrived(e);
    }
  }

  /** A delivered message moves its bytes from the link to the end it reaches. */
  lemma ArriveKeepsFlow(side: Side, e: End, m: Msg, other: End, inbound: seq<Byte>, back: seq<Byte>)
    requires EndOk(side, e)
    requires Flow(other, (if m.Data? then m.bytes else []) + inbound, e) && Flow(e, back, other)
    ensures var after := Arrive(side, e, m);
            Flow(other, inbound, after) && Flow(after, back, other)
  {
    ArriveGains(side, e, m);
    var bytes := if m.Data? then m.bytes else [];
    Grow2(bytes, inbound, other.inHand);
    Grow2(Arrived(e), bytes, inbound + other.inHand);
  }

  /** Messages about one channel do not change the accounts of another. */
  lemma OtherChannel(msgs: seq<Msg>, ch: Channel)
    requires |msgs| <= 1 && (msgs != [] ==> msgs[0].ch != ch)
    ensures InFlight(msgs, ch) == []
  {
  }

  lemma LocalKeepsPair(p: Pair, up: seq<Byte>, down: seq<Byte>, side: Side, ch: Channel, a: Act)
    requires PairOk(p, up, down) && CanAct(side, p.On(side), a)
    ensures var (after, out) := Act1(side, ch, p.On(side), a);
            if side == Socks then PairOk(p.With(side, after), up + InFlight(out, ch), down)
            else PairOk(p.With(side, after), up, down + InFlight(out, ch))
  {
    ActKeepsEnd(side, ch, p.On(side), a);
    if side == Socks {
      ActKeepsFlow(Socks, ch, p.socks, a, p.net, up, down);
    } else {
      ActKeepsFlow(Net, ch, p.net, a, p.socks, down, up);
    }
  }

  lemma LocalKeepsLinks(s: State, side: Side, ch: Channel, a: Act)
    requires UpOk(s) && DownOk(s) && Enabled(s, Local(side, ch, a))
    requires EndOk(side, s.chans[ch].On(side))
    ensures UpOk(Next(s, Local(side, ch, a))) && DownOk(Next(s, Local(side, ch, a)))
  {
    var (after, out) := Act1(side, ch, s.chans[ch].On(side), a);
    assert |out| <= 1 && (out != [] ==> out[0].ch == ch && !out[0].Connect?);
    assert out != [] && out[0].Response? ==> side == Net && after.phase != Absent;
    assert side == Net ==> s.chans[ch].net.phase == Absent ==> after.phase == Absent;
    assert side == Net ==> s.chans[ch].net.phase != Absent ==> after.phase != Absent;
  }

  lemma LocalKeepsChannel(s: State, side: Side, ch: Channel, a: Act, c: Channel)
    requires Inv(s) && Enabled(s, Local(side, ch, a)) && c in s.chans
    ensures ChannelOk(Next(s, Local(side, ch, a)), c)
  {
    var (after, out) := Act1(side, ch, s.chans[ch].On(side), a);
    assert ChannelOk(s, c);
    InFlightAppend(if side == Socks then s.up else s.down, out, c);
    if c == ch {
      LocalKeepsPair(s.chans[ch], InFlight(s.up, ch), InFlight(s.down, ch), side, ch, a);
    } else {
      OtherChannel(out, c);
      assert InFlight(s.up, c) + [] == InFlight(s.up, c);
      assert InFlight(s.down, c) + [] == InFlight(s.down, c);
    }
  }

  lemma LocalKeepsInv(s: State, side: Side, ch: Channel, a: Act)
    requires Inv(s) && Enabled(s, Local(side, ch, a))
    ensures Inv(Next(s, Local(side, ch, a)))
  {
    assert ChannelOk(s, ch);
    LocalKeepsLinks(s, side, ch, a);
    forall c <- s.chans ensures ChannelOk(Next(s, Local(side, ch, a)), c) {
      LocalKeepsChannel(s, side, ch, a, c);
    }
  }

  lemma DeliverKeepsPair(p: Pair, up: seq<Byte>, down: seq<Byte>, to: Side, m: Msg)
    requires m.Connect? ==> to == Net && p.net.phase == Absent
    requires m.Response? && m.ok && to == Socks ==> p.net.phase != Absent
    requires var bytes := if m.Data? then m.bytes else [];
             if to == Net then PairOk(p, bytes + up, down) else PairOk(p, up, bytes + down)
    ensures PairOk(p.With(to, Arrive(to, p.On(to), m)), up, down)
  {
    ArriveKeepsEnd(to, p.On(to), m);
    if to == Net {
      ArriveKeepsFlow(Net, p.net, m, p.socks, up, down);
      if m.Data? && p.net.phase == Absent {
        assert |p.socks.readTotal| == |Arrived(p.net)| + |m.bytes + up + p.socks.inHand|;
        assert m.bytes == [];
      }
    } else {
      ArriveKeepsFlow(Socks, p.socks, m, p.net, down, up);
    }
  }

  lemma DeliverKeepsLinks(s: State, to: Side)
    requires UpOk(s) && DownOk(s) && Enabled(s, Deliver(to))
    ensures UpOk(Next(s, Deliver(to))) && DownOk(Next(s, Deliver(to)))
  {
    var m := Inbound(s, to)[0];
    var t := Next(s, Deliver(to));
    assert to == Net ==> forall i | 0 <= i < |t.up| :: t.up[i] == s.up[i + 1];
    assert to == Socks ==> forall i | 0 <= i < |t.down| :: t.down[i] == s.down[i + 1];
    assert to == Net && !m.Connect? ==> t.chans[m.ch].net.phase == s.chans[m.ch].net.phase;
  }

  lemma PopFront(link: seq<Msg>, ch: Channel)
    requires link != []
    ensures InFlight(link, ch)
            == (if link[0].Data? && link[0].ch == ch then link[0].bytes else []) + InFlight(link[1..], ch)
    ensures link[0].ch != ch ==> InFlight(link, ch) == InFlight(link[1..], ch)
  {
    assert [] + InFlight(link[1..], ch) == InFlight(link[1..], ch);
  }

  lemma DeliverKeepsOwn(s: State, to: Side)
    requires Inv(s) && Enabled(s, Deliver(to))
    ensures ChannelOk(Next(s, Deliver(to)), Inbound(s, to)[0].ch)
  {
    var t := Next(s, Deliver(to));
    var m := Inbound(s, to)[0];
    assert ChannelOk(s, m.ch);
    PopFront(Inbound(s, to), m.ch);
    DeliverKeepsPair(s.chans[m.ch], InFlight(t.up, m.ch), InFlight(t.down, m.ch), to, m);
  }

  lemma DeliverKeepsInv(s: State, to: Side)
    requires Inv(s) && Enabled(s, Deliver(to))
    ensures Inv(Next(s, Deliver(to)))
  {
    var t := Next(s, Deliver(to));
    DeliverKeepsOwn(s, to);
    DeliverKeepsLinks(s, to);
    forall c <- t.chans ensures ChannelOk(t, c) {
      if c != Inbound(s, to)[0].ch {
        assert ChannelOk(s, c);
        PopFront(Inbound(s, to), c);
      }
    }
  }

  lemma OpenKeepsChannel(s: State, ch: Channel, c: Channel)
    requires Inv(s) && Enabled(s, Open(ch)) && (c in s.chans || c == ch)
    ensures ChannelOk(Next(s, Open(ch)), c)
  {
    assert c != ch ==> ChannelOk(s, c);
    ControlOnly([Connect(ch)], c);
    InFlightAppend(s.up, [Connect(ch)], c);
    assert InFlight(s.up, c) + [] == InFlight(s.up, c);
    if c == ch {
      Untouched(s.up, ch);
      Untouched(s.down, ch);
    }
  }

  lemma OpenKeepsLinks(s: State, ch: Channel)
    requires UpOk(s) && DownOk(s) && Enabled(s, Open(ch))
    ensures UpOk(Next(s, Open(ch))) && DownOk(Next(s, Open(ch)))
  {
  }

  lemma OpenKeepsInv(s: State, ch: Channel)
    requires Inv(s) && Enabled(s, Open(ch))
    ensures Inv(Next(s, Open(ch)))
  {
    var t := Next(s, Open(ch));
    OpenKeepsLinks(s, ch);
    forall c <- t.chans ensures ChannelOk(t, c) {
      OpenKeepsChannel(s, ch, c);
    }
  }

  lemma {:induction false} Untouched(link: seq<Msg>, ch: Channel)
    requires forall i | 0 <= i < |link| :: link[i].ch != ch
    ensures InFlight(link, ch) == []
  {
    if link != [] {
      Untouched(link[1..], ch);
    }
  }

  // ---------------------------------------------------------------- main theorems

  lemma {:induction false} RunKeepsInv(s: State, events: seq<Event>)
    requires Inv(s) && Runs(s, events)
    ensures Inv(Run(s, events))
    decreases |events|
  {
    if events != [] {
      match events[0] {
        case Open(ch) => OpenKeepsInv(s, ch);
        case Deliver(to) => DeliverKeepsInv(s, to);
        case Local(side, ch, a) => LocalKeepsInv(s, side, ch, a);
      }
      RunKeepsInv(Next(s, events[0]), events[1..]);
    }
  }

  /** One direction spelled out, with the position of what was delivered. */
  lemma FlowInFull(src: End, link: seq<Byte>, dst: End)
    requires Flow(src, link, dst)
    ensures src.readTotal
            == dst.early + dst.written + dst.outHand + Flat(dst.queue) + dst.lost + link + src.inHand
    ensures |dst.early| <= |src.readTotal| && dst.written <= src.readTotal[|dst.early|..]
  {
    var rest := dst.outHand + Flat(dst.queue) + dst.lost;
    var tail := link + src.inHand;
    Grow4(dst.early, dst.written, dst.outHand, Flat(dst.queue), dst.lost);
    Grow2(Arrived(dst), link, src.inHand);
    Grow3(dst.written, dst.outHand, Flat(dst.queue), dst.lost);
    Grow2(dst.early, dst.written + rest, tail);
    Grow2(dst.written, rest, tail);
    assert src.readTotal == dst.early + (dst.written + (rest + tail));
    assert src.readTotal[|dst.early|..] == dst.written + (rest + tail);
  }

  lemma Reached(events: seq<Event>, ch: Channel)
    requires Runs(Init, events) && ch in Run(Init, events).chans
    ensures var s := Run(Init, events);
            var p := s.chans[ch];
            && Flow(p.socks, InFlight(s.up, ch), p.net) && Flow(p.net, InFlight(s.down, ch), p.socks)
            && p.net.early == [] && EndOk(Socks, p.socks) && EndOk(Net, p.net)
  {
    RunKeepsInv(Init, events);
    assert ChannelOk(Run(Init, events), ch);
  }

  /** Conservation, towards the network: whatever the interleaving of the channels and tasks, the
      bytes read from the SOCKS socket are, in order, those written to the target, in the writer's
      hand, queued, dropped after the queue was discarded, on the link, and in the reader's hand;
      so what the target has received is always a prefix of what was sent. */
  lemma UpstreamConservation(events: seq<Event>, ch: Channel)
    requires Runs(Init, events) && ch in Run(Init, events).chans
    ensures var s := Run(Init, events);
            var (socks, net) := (s.chans[ch].socks, s.chans[ch].net);
            && socks.readTotal
               == net.written + net.outHand + Flat(net.queue) + net.lost + InFlight(s.up, ch) + socks.inHand
            && net.written <= socks.readTotal
  {
    Reached(events, ch);
    var s := Run(Init, events);
    var net := s.chans[ch].net;
    FlowInFull(s.chans[ch].socks, InFlight(s.up, ch), net);
    assert [] + net.written == net.written;
  }

  /** Conservation, towards the SOCKS client: what is delivered is the target's stream from the
      point where the forwarder's queue was installed, without a gap; what was dispatched before
      that is never delivered. */
  lemma DownstreamConservation(events: seq<Event>, ch: Channel)
    requires Runs(Init, events) && ch in Run(Init, events).chans
    ensures var s := Run(Init, events);
            var (socks, net) := (s.chans[ch].socks, s.chans[ch].net);
            && net.readTotal
               == socks.early + socks.written + socks.outHand + Flat(socks.queue) + socks.lost
                  + InFlight(s.down, ch) + net.inHand
            && |socks.early| <= |net.readTotal|
            && socks.written <= net.readTotal[|socks.early|..]
  {
    Reached(events, ch);
    var s := Run(Init, events);
    FlowInFull(s.chans[ch].net, InFlight(s.down, ch), s.chans[ch].socks);
  }

  /** Data for the channel is delivered to the SOCKS side before it has installed its second queue. */
  predicate DataBeforeSwap(s: State, events: seq<Event>, ch: Channel, swapped: bool)
    requires Runs(s, events)
    decreases |events|
  {
    events != [] &&
    var early := events[0] == Deliver(Socks) && s.down[0].Data? && s.down[0].ch == ch && s.down[0].bytes != [];
    (early && !swapped)
    || DataBeforeSwap(Next(s, events[0]), events[1..], ch, swapped || events[0] == Local(Socks, ch, Swap))
  }

  ghost predicate SwapSeen(s: State, ch: Channel, swapped: bool) {
    if ch in s.chans then s.chans[ch].socks.owned == swapped else !swapped
  }

  ghost predicate NothingEarly(s: State, ch: Channel) {
    ch in s.chans ==> s.chans[ch].socks.early == []
  }

  lemma ActEarly(ch: Channel, e: End, a: Act)
    requires CanAct(Socks, e, a)
    ensures var after := Act1(Socks, ch, e, a).0;
            after.early == e.early && after.owned == (e.owned || a == Swap)
  {
  }

  lemma ArriveEarly(e: End, m: Msg)
    ensures var after := Arrive(Socks, e, m);
            after.owned == e.owned && after.early == e.early + (if m.Data? && !e.owned then m.bytes else [])
  {
    assert e.early + [] == e.early;
  }

  lemma LocalEarly(s: State, side: Side, c: Channel, a: Act, ch: Channel)
    requires Enabled(s, Local(side, c, a)) && ch in s.chans
    ensures var was, now := s.chans[ch].socks, Next(s, Local(side, c, a)).chans[ch].socks;
            now.early == was.early && now.owned == (was.owned || Local(side, c, a) == Local(Socks, ch, Swap))
  {
    if c == ch && side == Socks { ActEarly(ch, s.chans[ch].socks, a); }
  }

  lemma DeliverEarly(s: State, to: Side, ch: Channel)
    requires Enabled(s, Deliver(to)) && ch in s.chans
    ensures var was, now := s.chans[ch].socks, Next(s, Deliver(to)).chans[ch].socks;
            var m := Inbound(s, to)[0];
            && now.owned == was.owned
            && now.early == was.early + (if to == Socks && m.Data? && m.ch == ch && !was.owned then m.bytes else [])
  {
    var was := s.chans[ch].socks;
    assert was.early + [] == was.early;
    ArriveEarly(was, Inbound(s, to)[0]);
  }

  lemma StepEarly(s: State, e: Event, ch: Channel, swapped: bool)
    requires Enabled(s, e) && SwapSeen(s, ch, swapped)
    ensures SwapSeen(Next(s, e), ch, swapped || e == Local(Socks, ch, Swap))
    ensures NothingEarly(Next(s, e), ch) <==>
              NothingEarly(s, ch)
              && !(e == Deliver(Socks) && s.down[0].Data? && s.down[0].ch == ch && s.down[0].bytes != [] && !swapped)
  {
    if ch in s.chans {
      match e {
        case Local(side, c, a) => LocalEarly(s, side, c, a, ch);
        case Deliver(to) => DeliverEarly(s, to, ch);
        case Open(_) =>
      }
    }
  }

  lemma {:induction false} RunEarly(s: State, events: seq<Event>, ch: Channel, swapped: bool)
    requires Runs(s, events) && SwapSeen(s, ch, swapped)
    ensures NothingEarly(Run(s, events), ch) <==> NothingEarly(s, ch) && !DataBeforeSwap(s, events, ch, swapped)
    decreases |events|
  {
    if events != [] {
      StepEarly(s, events[0], ch, swapped);
      RunEarly(Next(s, events[0]), events[1..], ch, swapped || events[0] == Local(Socks, ch, Swap));
    }
  }

  /** Delivery is a prefix of the target's whole stream, with nothing skipped, exactly when no data of
      the channel is delivered to the SOCKS side before it installs its second queue. */
  lemma NothingSkippedExactly(events: seq<Event>, ch: Channel)
    requires Runs(Init, events) && ch in Run(Init, events).chans
    ensures var (socks, net) := (Run(Init, events).chans[ch].socks, Run(Init, events).chans[ch].net);
            && (socks.early == [] <==> !DataBeforeSwap(Init, events, ch, false))
            && (!DataBeforeSwap(Init, events, ch, false) ==> socks.written <= net.readTotal)
  {
    RunEarly(Init, events, ch, false);
    DownstreamConservation(events, ch);
    var net := Run(Init, events).chans[ch].net;
    assert net.readTotal[0..] == net.readTotal;
  }

  lemma {:induction false} RunsThen(s: State, events: seq<Event>, e: Event)
    requires Runs(s, events) && Enabled(Run(s, events), e)
    ensures Runs(s, events + [e]) && Run(s, events + [e]) == Next(Run(s, events), e)
    decreases |events|
  {
    if events == [] {
      assert events + [e] == [e] && [e][1..] == [];
    } else {
      assert (events + [e])[1..] == events[1..] + [e];
      RunsThen(Next(s, events[0]), events[1..], e);
    }
  }

  /** A run from the start, together with the state it leads to. */
  ghost predicate Leads(events: seq<Event>, s: State) {
    Runs(Init, events) && Run(Init, events) == s
  }

  /** The only channel is 0. */
  function Single(socks: End, net: End, up: seq<Msg>, down: seq<Msg>): State {
    State(map[0 := Pair(socks, net)], up, down)
  }

  lemma Then(events: seq<Event>, s: State, e: Event, t: State) returns (longer: seq<Event>)
    requires Leads(events, s) && Enabled(s, e) && Next(s, e) == t
    ensures longer == events + [e] && Leads(longer, t)
  {
    RunsThen(Init, events, e);
    longer := events + [e];
  }

  lemma GreetingSent() returns (events: seq<Event>, net: End)
    ensures net == FreshNet.(phase := Forwarding, mapped := true, owned := true, reader := true, writer := true,
                             tasked := true, readTotal := [7])
    ensures Leads(events, Single(FreshSocks, net, [], [Response(0, true), Data(0, [7])]))
  {
    events := Then([], Init, Open(0), Single(FreshSocks, FreshNet, [Connect(0)], []));
    var n1 := FreshNet.(phase := Waiting, mapped := true, owned := true);
    events := Then(events, Single(FreshSocks, FreshNet, [Connect(0)], []), Deliver(Net),
        Single(FreshSocks, n1, [], []));
    var n2 := n1.(phase := Answered);
    events := Then(events, Single(FreshSocks, n1, [], []), Local(Net, 0, Answer(true)),
                   Single(FreshSocks, n2, [], [Response(0, true)]));
    var n3 := n2.(phase := Forwarding, reader := true, writer := true, tasked := true);
    events := Then(events, Single(FreshSocks, n2, [], [Response(0, true)]), Local(Net, 0, Start),
                   Single(FreshSocks, n3, [], [Response(0, true)]));
    assert n3.readTotal + [7] == [7];
    var n4 := n3.(readTotal := [7], inHand := [7]);
    events := Then(events, Single(FreshSocks, n3, [], [Response(0, true)]), Local(Net, 0, Read([7])),
                   Single(FreshSocks, n4, [], [Response(0, true)]));
    net := n4.(inHand := []);
    events := Then(events, Single(FreshSocks, n4, [], [Response(0, true)]), Local(Net, 0, Send),
                   Single(FreshSocks, net, [], [Response(0, true), Data(0, [7])]));
  }

  lemma GreetingEarly() returns (events: seq<Event>, socks: End, net: End)
    ensures net.readTotal == [7] && net.inHand == [] && net.reader
    ensures socks == FreshSocks.(answer := Some(true), early := [7], phase := Forwarding, owned := true,
                                 reader := true, writer := true, tasked := true)
    ensures Leads(events, Single(socks, net, [], []))
  {
    events, net := GreetingSent();
    var s1 := FreshSocks.(answer := Some(true));
    events := Then(events, Single(FreshSocks, net, [], [Response(0, true), Data(0, [7])]), Deliver(Socks),
                   Single(s1, net, [], [Data(0, [7])]));
    assert s1.early + [7] == [7];
    var s2 := s1.(early := [7]);
    events := Then(events, Single(s1, net, [], [Data(0, [7])]), Deliver(Socks), Single(s2, net, [], []));
    var s3 := s2.(phase := Answered);
    events := Then(events, Single(s2, net, [], []), Local(Socks, 0, TakeAnswer), Single(s3, net, [], []));
    socks := s3.(phase := Forwarding, owned := true, reader := true, writer := true, tasked := true);
    events := Then(events, Single(s3, net, [], []), Local(Socks, 0, Swap), Single(socks, net, [], []));
  }

  lemma SecondByteSent() returns (events: seq<Event>, socks: End, net: End)
    ensures net.readTotal == [7, 8] && socks.written == [] && socks.queue == [] && socks.outHand == []
    ensures socks.owned && socks.mapped && socks.writer
    ensures Leads(events, Single(socks, net, [], [Data(0, [8])]))
  {
    events, socks, net := GreetingEarly();
    assert net.readTotal + [8] == [7, 8];
    var n1 := net.(readTotal := [7, 8], inHand := [8]);
    events := Then(events, Single(socks, net, [], []), Local(Net, 0, Read([8])), Single(socks, n1, [], []));
    net := n1.(inHand := []);
    events := Then(events, Single(socks, n1, [], []), Local(Net, 0, Send), Single(socks, net, [], [Data(0, [8])]));
  }

  /** A target that speaks first can lose its greeting: a run in which the SOCKS client receives
      the second byte of the target's stream and never the first. */
  lemma GreetingLost() returns (events: seq<Event>)
    ensures Runs(Init, events) && 0 in Run(Init, events).chans
    ensures Run(Init, events).chans[0].net.readTotal == [7, 8]
    ensures Run(Init, events).chans[0].socks.written == [8]
  {
    var socks, net;
    events, socks, net := SecondByteSent();
    assert socks.queue + [[8]] == [[8]];
    var s1 := socks.(queue := [[8]]);
    events := Then(events, Single(socks, net, [], [Data(0, [8])]), Deliver(Socks), Single(s1, net, [], []));
    assert s1.queue[1..] == [];
    var s2 := s1.(queue := [], outHand := [8]);
    events := Then(events, Single(s1, net, [], []), Local(Socks, 0, Take), Single(s2, net, [], []));
    assert s2.written + s2.outHand[..1] == [8] && s2.outHand[1..] == [];
    var s3 := s2.(outHand := [], written := [8]);
    events := Then(events, Single(s2, net, [], []), Local(Socks, 0, Write(1)), Single(s3, net, [], []));
  }

  // ---------------------------------------------------------------- closing

  /** The Disconnect messages of one channel on a link. */
  function Disconnects(link: seq<Msg>, ch: Channel): nat {
    if link == [] then 0
    else (if link[0].Disconnect? && link[0].ch == ch then 1 else 0) + Disconnects(link[1..], ch)
  }

  lemma {:induction false} DisconnectsAppend(link: seq<Msg>, more: seq<Msg>, ch: Channel)
    ensures Disconnects(link + more, ch) == Disconnects(link, ch) + Disconnects(more, ch)
  {
    if link == [] {
      assert [] + more == more;
    } else {
      assert (link + more)[1..] == link[1..] + more;
      DisconnectsAppend(link[1..], more, ch);
    }
  }

  function Unfinished(e: End): nat {
    if e.phase == Ended then 0 else 2
  }

  /** What is left of the close exchange of a channel. */
  function CloseMeasure(s: State, ch: Channel): nat
    requires ch in s.chans
  {
    Unfinished(s.chans[ch].socks) + Unfinished(s.chans[ch].net) + Disconnects(s.up, ch) + Disconnects(s.down, ch)
  }

  predicate Closes(s: State, e: Event, ch: Channel) {
    match e
    case Open(_) => false
    case Deliver(to) => Inbound(s, to) != [] && Inbound(s, to)[0] == Disconnect(ch)
    case Local(_, c, a) => c == ch && a == Act.Close
  }

  lemma ActUsesMeasure(side: Side, c: Channel, e: End, a: Act, ch: Channel)
    requires CanAct(side, e, a) && EndOk(side, e)
    ensures var (after, out) := Act1(side, c, e, a);
            && Disconnects(out, ch) == (if c == ch && a == Act.Close then 1 else 0)
            && Unfinished(after) + (if a == Act.Close then 2 else 0) <= Unfinished(e)
  {
    var out := Act1(side, c, e, a).1;
    assert out == [] || out == [out[0]];
  }

  lemma LocalCloseMeasure(s: State, side: Side, c: Channel, a: Act, ch: Channel)
    requires Inv(s) && Enabled(s, Local(side, c, a)) && ch in s.chans
    ensures CloseMeasure(Next(s, Local(side, c, a)), ch) <= CloseMeasure(s, ch)
    ensures c == ch && a == Act.Close ==> CloseMeasure(Next(s, Local(side, c, a)), ch) < CloseMeasure(s, ch)
  {
    assert ChannelOk(s, c);
    ActUsesMeasure(side, c, s.chans[c].On(side), a, ch);
    DisconnectsAppend(if side == Socks then s.up else s.down, Act1(side, c, s.chans[c].On(side), a).1, ch);
  }

  lemma ArriveKeepsUnfinished(side: Side, e: End, m: Msg)
    requires EndOk(side, e) && (m.Connect? && side == Net ==> e.phase == Absent)
    ensures Unfinished(Arrive(side, e, m)) == Unfinished(e)
  {
  }

  lemma DeliverUsesLink(s: State, to: Side, ch: Channel)
    requires Enabled(s, Deliver(to))
    ensures var d, used := Next(s, Deliver(to)), if Inbound(s, to)[0] == Disconnect(ch) then 1 else 0;
            && Disconnects(d.up, ch) + (if to == Net then used else 0) == Disconnects(s.up, ch)
            && Disconnects(d.down, ch) + (if to == Socks then used else 0) == Disconnects(s.down, ch)
  {
  }

  lemma DeliverKeepsUnfinished(s: State, to: Side, ch: Channel)
    requires Inv(s) && Enabled(s, Deliver(to)) && ch in s.chans
    ensures var d := Next(s, Deliver(to));
            && Unfinished(d.chans[ch].socks) == Unfinished(s.chans[ch].socks)
            && Unfinished(d.chans[ch].net) == Unfinished(s.chans[ch].net)
  {
    var m := Inbound(s, to)[0];
    assert EndOk(to, s.chans[m.ch].On(to)) by {
      assert ChannelOk(s, m.ch);
    }
    ArriveKeepsUnfinished(to, s.chans[m.ch].On(to), m);
  }

  lemma DeliverCloseMeasure(s: State, to: Side, ch: Channel)
    requires Inv(s) && Enabled(s, Deliver(to)) && ch in s.chans
    ensures CloseMeasure(Next(s, Deliver(to)), ch) <= CloseMeasure(s, ch)
    ensures Inbound(s, to)[0] == Disconnect(ch) ==> CloseMeasure(Next(s, Deliver(to)), ch) < CloseMeasure(s, ch)
    ensures Disconnects(Next(s, Deliver(to)).up, ch) <= Disconnects(s.up, ch)
    ensures Disconnects(Next(s, Deliver(to)).down, ch) <= Disconnects(s.down, ch)
  {
    DeliverUsesLink(s, to, ch);
    DeliverKeepsUnfinished(s, to, ch);
  }

  /** The close exchange of a channel ends: no event restores it, and sending or receiving a
      Disconnect uses it up.  In particular receiving one never makes a side send one. */
  lemma CloseExchangeEnds(s: State, e: Event, ch: Channel)
    requires Inv(s) && Enabled(s, e) && ch in s.chans
    ensures CloseMeasure(Next(s, e), ch) <= CloseMeasure(s, ch)
    ensures Closes(s, e, ch) ==> CloseMeasure(Next(s, e), ch) < CloseMeasure(s, ch)
    ensures e.Deliver? ==> Disconnects(Next(s, e).up, ch) <= Disconnects(s.up, ch)
                           && Disconnects(Next(s, e).down, ch) <= Disconnects(s.down, ch)
  {
    match e {
      case Open(c) => DisconnectsAppend(s.up, [Connect(c)], ch);
      case Deliver(to) => DeliverCloseMeasure(s, to, ch);
      case Local(side, c, a) => LocalCloseMeasure(s, side, c, a, ch);
    }
  }

  /** Over every run each side sends at most one Disconnect per channel. */
  lemma OneDisconnectEach(events: seq<Event>, ch: Channel, side: Side)
    requires Runs(Init, events) && ch in Run(Init, events).chans
    ensures var e := Run(Init, events).chans[ch].On(side);
            e.disconnects <= 1 && (e.disconnects == 1 ==> e.phase == Ended)
  {
    Reached(events, ch);
  }
}
