/** The client's message dispatcher: received frames are parsed and sorted into queues. */
module ClientDispatch {
  import opened Bytes
  import opened Messages
  import Codec
  import Parser

  /** The queue map is keyed by channel, and by one fixed key for the answer to the login. */
  datatype Key = AuthKey | ChannelKey(channel: Uuid)

  /** A queue: what its reader has taken out, and what still waits. */
  datatype Queue = Queue(got: seq<Message>, waiting: seq<Message>) {
    /** Everything ever put in, in order. */
    function All(): seq<Message> {
      got + waiting
    }
  }

  const Fresh := Queue([], [])

  /** `timers` are the delayed clean-ups under way, `started` the Connects a handler runs for. */
  datatype Inbox = Inbox(queues: map<Key, Queue>, timers: multiset<Uuid>, partners: int, started: seq<Message>)

  const Empty := Inbox(map[], multiset{}, 0, [])

  // ---------------------------------------------------------------- one message

  /** The queue a message is for. */
  function KeyOf(m: Message): Option<Key> {
    match m
    case Data(_, channel, _, _, _, _, _, _) => Some(ChannelKey(channel))
    case ConnectResponse(_, channel, _) => Some(ChannelKey(channel))
    case ConnectorResponse(_, channel, _, _) => Some(ChannelKey(channel))
    case AuthResponse(_, _) => Some(AuthKey)
    case _ => None
  }

  function Put(queues: map<Key, Queue>, k: Key, m: Message): map<Key, Queue> {
    if k in queues then queues[k := Queue(queues[k].got, queues[k].waiting + [m])] else queues
  }

  /** Disconnecting a channel keeps its queue for late messages, until a timer fires. */
  function Released(b: Inbox, channel: Uuid): Inbox {
    if ChannelKey(channel) in b.queues then b.(timers := b.timers + multiset{channel}) else b
  }

  function Delivered(b: Inbox, m: Message): Inbox {
    match m
    case Connect(_, channel, _, _) =>
      b.(queues := b.queues[ChannelKey(channel) := Fresh], started := b.started + [m])
    case Disconnect(channel, _) => Released(b, channel)
    case Partners(count) => b.(partners := count)
    case _ => if KeyOf(m).Some? then b.(queues := Put(b.queues, KeyOf(m).value, m)) else b
  }

  // ---------------------------------------------------------------- everything that touches the queues

  /** Besides the dispatcher: handlers that end, timers, parties that install a queue of their own, for a
      request or to forward, and delete it, and readers. */
  datatype Event =
    | Arrives(message: Message)
    | Ends(channel: Uuid)
    | Fires(channel: Uuid)
    | Installs(key: Key)
    | Deletes(key: Key)
    | Takes(key: Key)

  function Taken(queues: map<Key, Queue>, k: Key): map<Key, Queue> {
    if k in queues && queues[k].waiting != [] then
      queues[k := Queue(queues[k].got + [queues[k].waiting[0]], queues[k].waiting[1..])]
    else
      queues
  }

  function Apply(b: Inbox, e: Event): Inbox {
    match e
    case Arrives(m) => Delivered(b, m)
    case Ends(channel) => Released(b, channel)
    case Fires(channel) =>
      if channel in b.timers then b.(queues := b.queues - {ChannelKey(channel)}, timers := b.timers - multiset{channel})
      else b
    case Installs(k) => b.(queues := b.queues[k := Fresh])
    case Deletes(k) => b.(queues := b.queues - {k})
    case Takes(k) => b.(queues := Taken(b.queues, k))
  }

  function Run(b: Inbox, es: seq<Event>): Inbox
    decreases |es|
  {
    if es == [] then b else Run(Apply(b, es[0]), es[1..])
  }

  // ---------------------------------------------------------------- the client

  function DeliveredAll(b: Inbox, ms: seq<Message>): Inbox
    decreases |ms|
  {
    if ms == [] then b else DeliveredAll(Delivered(b, ms[0]), ms[1..])
  }

  /** The messages among the frames: a frame that does not parse is skipped. */
  function Accepted(f: Foreign, frames: seq<seq<Byte>>): seq<Message>
    decreases |frames|
  {
    if frames == [] then []
    else
      var first := Parser.Parse(f, frames[0]);
      (if first.Success? then [first.value] else []) + Accepted(f, frames[1..])
  }

  class Client {
    var queues: map<Key, Queue>
    var timers: multiset<Uuid>
    var partners: int
    var started: seq<Message>

    ghost function Value(): Inbox
      reads this
    {
      Inbox(queues, timers, partners, started)
    }

    constructor ()
      ensures Value() == Empty
    {
      queues, timers, partners, started := map[], multiset{}, 0, [];
    }

    method PutIn(k: Key, m: Message)
      modifies this`queues
      ensures queues == Put(old(queues), k, m)
    {
      if k in queues {
        queues := queues[k := Queue(queues[k].got, queues[k].waiting + [m])];
      }
    }

    method Dispatch(m: Message)
      modifies this
      ensures Value() == Apply(old(Value()), Arrives(m))
      ensures forall k :: KeyOf(m) != Some(k) && !Opens(Arrives(m), k) ==>
                (k in queues <==> k in old(queues)) && (k in queues ==> queues[k] == old(queues)[k])
    {
      match m {
        case Data(_, channel, _, _, _, _, _, _) => PutIn(ChannelKey(channel), m);
        case Connect(_, channel, _, _) =>
          queues := queues[ChannelKey(channel) := Fresh];
          started := started + [m];
        case ConnectResponse(_, channel, _) => PutIn(ChannelKey(channel), m);
        case AuthResponse(_, _) => PutIn(AuthKey, m);
        case Disconnect(channel, _) =>
          if ChannelKey(channel) in queues {
            timers := timers + multiset{channel};
          }
        case ConnectorResponse(_, channel, _, _) => PutIn(ChannelKey(channel), m);
        case Partners(count) => partners := count;
        case _ =>
      }
    }

    /** The dispatcher's loop over the frames received, in their order. */
    method Receive(f: Foreign, frames: seq<seq<Byte>>)
      modifies this
      ensures Value() == DeliveredAll(old(Value()), Accepted(f, frames))
    {
      var i := 0;
      while i < |frames|
        invariant 0 <= i <= |frames|
        invariant DeliveredAll(Value(), Accepted(f, frames[i..])) == DeliveredAll(old(Value()), Accepted(f, frames))
      {
        var parsed := Parser.Parse(f, frames[i]);
        ghost var later := Accepted(f, frames[i + 1..]);
        assert frames[i..][1..] == frames[i + 1..];
        if parsed.Success? {
          assert ([parsed.value] + later)[1..] == later;
          Dispatch(parsed.value);
        } else {
          assert [] + later == later;
        }
        i := i + 1;
      }
    }
  }

  // ---------------------------------------------------------------- what a queue holds

  /** The messages that arrive for one queue, in order. */
  function For(es: seq<Event>, k: Key): seq<Message> {
    if es == [] then []
    else (if es[0].Arrives? && KeyOf(es[0].message) == Some(k) then [es[0].message] else []) + For(es[1..], k)
  }

  /** The event puts a new queue under the key. */
  predicate Opens(e: Event, k: Key) {
    (e.Arrives? && e.message.Connect? && ChannelKey(e.message.channel) == k) || e == Installs(k)
  }

  /** The event may take the queue away. */
  predicate MayRemove(e: Event, k: Key) {
    e == Deletes(k) || (e.Fires? && ChannelKey(e.channel) == k)
  }

  lemma InOrder(a: seq<Message>, b: seq<Message>, c: seq<Message>)
    ensures a + b + c == a + (b + c)
  {
  }

  lemma ForOne(e: Event, k: Key)
    ensures For([e], k) == if e.Arrives? && KeyOf(e.message) == Some(k) then [e.message] else []
  {
    assert [e][1..] == [];
  }

  lemma PutHolds(queues: map<Key, Queue>, x: Key, m: Message, k: Key)
    requires k in queues
    ensures var d := Put(queues, x, m);
            k in d && d[k].All() == queues[k].All() + (if x == k then [m] else []) && d[k].got == queues[k].got
  {
    var q := queues[k];
    InOrder(q.got, q.waiting, [m]);
    assert q.All() + [] == q.All();
  }

  lemma TakeHolds(queues: map<Key, Queue>, x: Key, k: Key)
    requires k in queues
    ensures var d := Taken(queues, x); k in d && d[k].All() == queues[k].All() && queues[k].got <= d[k].got
  {
    var q := queues[k];
    if x == k && q.waiting != [] {
      InOrder(q.got, [q.waiting[0]], q.waiting[1..]);
      assert [q.waiting[0]] + q.waiting[1..] == q.waiting;
    }
  }

  lemma Untouched(b: Inbox, e: Event, k: Key)
    requires !Opens(e, k) && !MayRemove(e, k) && !e.Takes? && !(e.Arrives? && KeyOf(e.message).Some?)
    ensures k in Apply(b, e).queues <==> k in b.queues
    ensures k in b.queues ==> Apply(b, e).queues[k] == b.queues[k]
  {
  }

  lemma StepHolds(b: Inbox, e: Event, k: Key)
    requires !Opens(e, k) && !MayRemove(e, k)
    ensures k in Apply(b, e).queues <==> k in b.queues
    ensures k in b.queues ==>
              Apply(b, e).queues[k].All() == b.queues[k].All() + For([e], k)
                  && b.queues[k].got <= Apply(b, e).queues[k].got
  {
    ForOne(e, k);
    if e.Takes? {
      if k in b.queues { TakeHolds(b.queues, e.key, k); }
    } else if e.Arrives? && KeyOf(e.message).Some? {
      if k in b.queues { PutHolds(b.queues, KeyOf(e.message).value, e.message, k); }
    } else {
      Untouched(b, e, k);
    }
    if k in b.queues { assert b.queues[k].All() + [] == b.queues[k].All(); }
  }

  lemma ForSplits(es: seq<Event>, k: Key)
    requires es != []
    ensures For(es, k) == For([es[0]], k) + For(es[1..], k)
  {
    assert [es[0]][1..] == [];
    assert For([es[0]], k) + [] == For([es[0]], k);
  }

  /** Between the events that open or may remove it, a queue receives exactly its own messages in the
      order of arrival, whatever arrives for others and also after a Disconnect; its reader gets them in
      that order; and a queue that does not exist receives nothing. */
  lemma {:induction false} QueueHolds(b: Inbox, es: seq<Event>, k: Key)
    requires forall e <- es :: !Opens(e, k) && !MayRemove(e, k)
    ensures k in Run(b, es).queues <==> k in b.queues
    ensures k in b.queues ==>
              Run(b, es).queues[k].All() == b.queues[k].All() + For(es, k)
                  && b.queues[k].got <= Run(b, es).queues[k].got
    decreases |es|
  {
    if es == [] {
      assert k in b.queues ==> b.queues[k].All() + [] == b.queues[k].All();
    } else {
      assert es[0] in es && forall e <- es[1..] :: e in es;
      StepHolds(b, es[0], k);
      QueueHolds(Apply(b, es[0]), es[1..], k);
      if k in b.queues {
        ForSplits(es, k);
        InOrder(b.queues[k].All(), For([es[0]], k), For(es[1..], k));
      }
    }
  }

  lemma {:induction false} RunInTwo(b: Inbox, es: seq<Event>, fs: seq<Event>)
    ensures Run(b, es + fs) == Run(Run(b, es), fs)
    decreases |es|
  {
    if es == [] {
      assert es + fs == fs;
    } else {
      assert (es + fs)[1..] == es[1..] + fs;
      RunInTwo(Apply(b, es[0]), es[1..], fs);
    }
  }

  lemma OneEvent(b: Inbox, before: seq<Event>, e: Event, later: seq<Event>)
    ensures Run(b, before + [e] + later) == Run(Apply(Run(b, before), e), later)
  {
    RunInTwo(b, before + [e], later);
    RunInTwo(b, before, [e]);
    assert [e][1..] == [];
  }

  /** A Connect, or a party that installs its own queue, starts afresh: the queue then holds exactly the
      messages that followed, whatever came before; those of before are lost to it. */
  lemma FreshQueueHolds(b: Inbox, before: seq<Event>, opening: Event, later: seq<Event>, k: Key)
    requires Opens(opening, k) && forall e <- later :: !Opens(e, k) && !MayRemove(e, k)
    ensures var d := Run(b, before + [opening] + later); k in d.queues && d.queues[k].All() == For(later, k)
  {
    OneEvent(b, before, opening, later);
    QueueHolds(Apply(Run(b, before), opening), later, k);
    assert [] + For(later, k) == For(later, k);
  }

  lemma {:induction false} AbsentStays(b: Inbox, es: seq<Event>, k: Key)
    requires k !in b.queues && forall e <- es :: !Opens(e, k)
    ensures k !in Run(b, es).queues
    decreases |es|
  {
    if es != [] {
      assert es[0] in es && forall e <- es[1..] :: e in es;
      AbsentStays(Apply(b, es[0]), es[1..], k);
    }
  }

  /** The delay after a Disconnect: until its timer fires the queue goes on receiving, and from then on
      every message for the channel is dropped until something opens it anew. */
  lemma DisconnectedQueueGoes(b: Inbox, error: Option<string>, channel: Uuid, late: seq<Event>, later: seq<Event>)
    requires ChannelKey(channel) in b.queues
    requires forall e <- late :: !Opens(e, ChannelKey(channel)) && !MayRemove(e, ChannelKey(channel))
    requires forall e <- later :: !Opens(e, ChannelKey(channel))
    ensures var k := ChannelKey(channel);
            var waiting := Run(b, [Arrives(Disconnect(channel, error))] + late);
            && k in waiting.queues && waiting.queues[k].All() == b.queues[k].All() + For(late, k)
            && channel in waiting.timers
            && k !in Run(Apply(waiting, Fires(channel)), later).queues
  {
    var k, e := ChannelKey(channel), Arrives(Disconnect(channel, error));
    assert ([e] + late)[1..] == late;
    QueueHolds(Apply(b, e), late, k);
    TimersStay(Apply(b, e), late, channel);
    AbsentStays(Apply(Run(Apply(b, e), late), Fires(channel)), later, k);
  }

  lemma {:induction false} TimersStay(b: Inbox, es: seq<Event>, channel: Uuid)
    requires channel in b.timers && forall e <- es :: e != Fires(channel)
    ensures channel in Run(b, es).timers
    decreases |es|
  {
    if es != [] {
      assert es[0] in es && forall e <- es[1..] :: e in es;
      TimersStay(Apply(b, es[0]), es[1..], channel);
    }
  }

  /** Nothing but a Disconnect, the end of its handler or a deletion leads to the loss of a queue: without
      them no timer can take it away. */
  lemma {:induction false} QueueStays(b: Inbox, es: seq<Event>, channel: Uuid)
    requires ChannelKey(channel) in b.queues && channel !in b.timers
    requires forall e <- es :: e != Ends(channel) && e != Deletes(ChannelKey(channel))
                               && !(e.Arrives? && e.message.Disconnect? && e.message.channel == channel)
    ensures ChannelKey(channel) in Run(b, es).queues
    decreases |es|
  {
    if es != [] {
      assert es[0] in es && forall e <- es[1..] :: e in es;
      QueueStays(Apply(b, es[0]), es[1..], channel);
    }
  }

  /** From bytes to queues: the frames of well-formed messages are all accepted, as those messages. */
  lemma {:induction false} FramesAccepted(f: Foreign, ms: seq<Message>, frames: seq<seq<Byte>>)
    requires Inverse(f) && |frames| == |ms|
    requires forall i | 0 <= i < |ms| :: Codec.WellFormed(f, ms[i]) && Pack(f, ms[i]) == Success(frames[i])
    ensures Accepted(f, frames) == ms
    decreases |ms|
  {
    if ms != [] {
      Codec.RoundTripExactly(f, ms[0]);
      FramesAccepted(f, ms[1..], frames[1..]);
    }
  }
}
