/** The channel maps of a relay and the life of one network connection handler: what is left in the
    maps once the handler has ended. */
module Endpoint {
  import opened Bytes

  type Channel = nat
  type Task = nat

  /** `timers` are the pending delayed clean-ups, `finished` the tasks that have already ended. */
  datatype Maps = Maps(queues: set<Channel>, tcp: map<Channel, Task>, udp: map<Channel, Task>,
                       addrs: map<Channel, string>, successes: map<Channel, bool>,
                       timers: multiset<Channel>, cancelled: set<Task>, finished: set<Task>)

  const Idle := Maps({}, map[], map[], map[], map[], multiset{}, {}, {})

  function TaskOf(tasks: map<Channel, Task>, ch: Channel): set<Task> {
    if ch in tasks then {tasks[ch]} else {}
  }

  /** What disconnecting a channel does; the queue is kept for late messages unless `atOnce`. */
  function Disconnected(m: Maps, ch: Channel, atOnce: bool): Maps {
    Maps(if atOnce then m.queues - {ch} else m.queues, m.tcp - {ch}, m.udp - {ch}, m.addrs - {ch}, m.successes - {ch},
         if !atOnce && ch in m.queues then m.timers + multiset{ch} else m.timers,
         m.cancelled + (TaskOf(m.tcp, ch) + TaskOf(m.udp, ch) - m.finished), m.finished)
  }

  function Fired(m: Maps, ch: Channel): Maps {
    m.(queues := m.queues - {ch}, timers := m.timers - multiset{ch})
  }

  function Stored(m: Maps, ch: Channel, task: Task, udp: bool): Maps {
    if udp then m.(udp := m.udp[ch := task]) else m.(tcp := m.tcp[ch := task])
  }

  predicate InNoMap(m: Maps, ch: Channel) {
    ch !in m.queues && ch !in m.tcp && ch !in m.udp && ch !in m.addrs && ch !in m.successes
  }

  lemma MinusAbsent<V>(m: map<Channel, V>, ch: Channel)
    requires ch !in m
    ensures m - {ch} == m
  {
  }

  class Relay {
    var queues: set<Channel>
    var tcp: map<Channel, Task>
    var udp: map<Channel, Task>
    var addrs: map<Channel, string>
    var successes: map<Channel, bool>
    var timers: multiset<Channel>
    var cancelled: set<Task>
    var finished: set<Task>

    ghost function Value(): Maps
      reads this
    {
      Maps(queues, tcp, udp, addrs, successes, timers, cancelled, finished)
    }

    constructor ()
      ensures Value() == Idle
    {
      queues, tcp, udp, addrs, successes := {}, map[], map[], map[], map[];
      timers, cancelled, finished := multiset{}, {}, {};
    }

    /** Cancel what a channel has in one of the maps of running tasks, and forget it. */
    method CancelTcp(ch: Channel)
      modifies this`tcp, this`cancelled
      ensures tcp == old(tcp) - {ch} && cancelled == old(cancelled) + (TaskOf(old(tcp), ch) - finished)
    {
      if ch in tcp {
        var task := tcp[ch];
        tcp := tcp - {ch};
        if task !in finished {
          cancelled := cancelled + {task};
        }
      } else {
        MinusAbsent(tcp, ch);
      }
    }

    method CancelUdp(ch: Channel)
      modifies this`udp, this`cancelled
      ensures udp == old(udp) - {ch} && cancelled == old(cancelled) + (TaskOf(old(udp), ch) - finished)
    {
      if ch in udp {
        var task := udp[ch];
        udp := udp - {ch};
        if task !in finished {
          cancelled := cancelled + {task};
        }
      } else {
        MinusAbsent(udp, ch);
      }
    }

    method ForgetDetails(ch: Channel)
      modifies this`addrs, this`successes
      ensures addrs == old(addrs) - {ch} && successes == old(successes) - {ch}
    {
      if ch in addrs {
        addrs := addrs - {ch};
      } else {
        MinusAbsent(addrs, ch);
      }
      if ch in successes {
        successes := successes - {ch};
      } else {
        MinusAbsent(successes, ch);
      }
    }

    /** Drop the queue at once, or after a delay. */
    method ReleaseQueue(ch: Channel, delay: real)
      modifies this`timers, this`queues
      ensures queues == if delay <= 0.0 then old(queues) - {ch} else old(queues)
      ensures timers == if delay > 0.0 && ch in old(queues) then old(timers) + multiset{ch} else old(timers)
    {
      if delay > 0.0 && ch in queues {
        timers := timers + multiset{ch};
      } else if ch in queues {
        queues := queues - {ch};
      }
    }

    method DisconnectChannel(ch: Channel, delay: real)
      modifies this
      ensures Value() == Disconnected(old(Value()), ch, delay <= 0.0)
    {
      CancelTcp(ch);
      CancelUdp(ch);
      ForgetDetails(ch);
      ReleaseQueue(ch, delay);
    }

    /** A delayed clean-up whose time has come. */
    method DelayedQueueCleanup(ch: Channel)
      requires ch in timers
      modifies this`timers, this`queues
      ensures Value() == Fired(old(Value()), ch)
      ensures ch !in queues && forall c | c != ch :: SameFor(old(Value()), Value(), c)
    {
      timers := timers - multiset{ch};
      if ch in queues {
        queues := queues - {ch};
      }
    }
  }

  // ---------------------------------------------------------------- the handler of a connection

  /** `Starting` is a task that has been created and has not run yet; in `Closing` the handler waits
      for its Disconnect to be sent. */
  datatype Phase = Starting | Connecting | Forwarding | Closing | Ended

  /** `cut` records that a cancellation kept the handler from disconnecting its channel, `told` that a
      Disconnect has arrived since the handler last put something in the maps. */
  datatype Handler = Handler(phase: Phase, udp: bool, cut: bool, told: bool)

  datatype State = State(maps: Maps, handlers: map<Channel, Handler>)

  datatype Step =
    | Connect(ch: Channel, udp: bool)   // a Connect arrives
    | Data(ch: Channel)                 // a Data arrives
    | Disconnect(ch: Channel)           // a Disconnect arrives
    | Begin(ch: Channel)                // the handler first runs
    | Forward(ch: Channel, task: Task)  // it is connected and starts to forward
    | Fail(ch: Channel)                 // it is not
    | Stop(ch: Channel)                 // forwarding ends
    | Finish(ch: Channel)               // its Disconnect has been sent
    | Cancel(ch: Channel)               // the server cancels it
    | Fire(ch: Channel)                 // a delayed clean-up runs

  function At(s: State, ch: Channel): Option<Phase> {
    if ch in s.handlers then Some(s.handlers[ch].phase) else None
  }

  function To(s: State, ch: Channel, phase: Phase): State
    requires ch in s.handlers
  {
    s.(handlers := s.handlers[ch := s.handlers[ch].(phase := phase)])
  }

  /** Forwarding needs the queue: when a Disconnect and its timer were faster, the handler fails. */
  function Apply(s: State, step: Step): State {
    match step
    case Connect(ch, udp) =>
      State(s.maps.(queues := s.maps.queues + {ch}), s.handlers[ch := Handler(Starting, udp, false, false)])
    case Data(ch) => s
    case Disconnect(ch) =>
      var s' := s.(maps := Disconnected(s.maps, ch, false));
      if ch in s.handlers then s'.(handlers := s.handlers[ch := s.handlers[ch].(told := true)]) else s'
    case Begin(ch) => if At(s, ch) == Some(Starting) then To(s, ch, Connecting) else s
    case Forward(ch, task) =>
      if At(s, ch) == Some(Connecting) then
        if ch in s.maps.queues then
          var h := s.handlers[ch].(phase := Forwarding, told := false);
          State(Stored(s.maps, ch, task, h.udp), s.handlers[ch := h])
        else To(s, ch, Closing)
      else s
    case Fail(ch) => if At(s, ch) == Some(Connecting) then To(s, ch, Closing) else s
    case Stop(ch) => if At(s, ch) == Some(Forwarding) then To(s, ch, Closing) else s
    case Finish(ch) =>
      if At(s, ch) == Some(Closing) then To(s, ch, Ended).(maps := Disconnected(s.maps, ch, false)) else s
    case Cancel(ch) =>
      if At(s, ch) == Some(Starting) || At(s, ch) == Some(Closing) then
        s.(handlers := s.handlers[ch := s.handlers[ch].(phase := Ended, cut := true)])
      else if At(s, ch) == Some(Connecting) || At(s, ch) == Some(Forwarding) then To(s, ch, Closing)
      else s
    case Fire(ch) => if ch in s.maps.timers then s.(maps := Fired(s.maps, ch)) else s
  }

  /** Channel ids are fresh. */
  predicate Enabled(s: State, step: Step) {
    step.Connect? ==> step.ch !in s.handlers
  }

  predicate Runs(s: State, steps: seq<Step>)
    decreases |steps|
  {
    steps != [] ==> Enabled(s, steps[0]) && Runs(Apply(s, steps[0]), steps[1..])
  }

  function Run(s: State, steps: seq<Step>): State
    decreases |steps|
  {
    if steps == [] then s else Run(Apply(s, steps[0]), steps[1..])
  }

  // ---------------------------------------------------------------- nothing is left behind

  predicate HasTask(m: Maps, ch: Channel) {
    ch in m.tcp || ch in m.udp
  }

  /** All that is left of the channel is a queue whose clean-up is under way. */
  predicate Tidy(m: Maps, ch: Channel) {
    !HasTask(m, ch) && (ch in m.queues ==> ch in m.timers)
  }

  /** What the maps hold for a channel at each point of its handler's life. */
  predicate HandlerOk(m: Maps, ch: Channel, h: Handler) {
    && (h.phase == Starting || h.phase == Connecting ==> !HasTask(m, ch))
    && (h.phase != Ended ==> !h.cut)
    && (h.told || (h.phase == Ended && !h.cut) ==> Tidy(m, ch))
    && (!h.told && (h.phase != Ended || h.cut) ==> HasTask(m, ch) || (ch in m.queues && ch !in m.timers))
  }

  predicate ChannelOk(s: State, ch: Channel) {
    && ch !in s.maps.addrs && ch !in s.maps.successes
    && if ch in s.handlers then HandlerOk(s.maps, ch, s.handlers[ch]) else InNoMap(s.maps, ch) && ch !in s.maps.timers
  }

  /** The maps say the same of the channel. */
  predicate SameFor(m: Maps, d: Maps, c: Channel) {
    && (c in d.queues <==> c in m.queues) && d.timers[c] == m.timers[c]
    && (c in d.tcp <==> c in m.tcp) && (c in d.udp <==> c in m.udp)
    && (c in d.addrs <==> c in m.addrs) && (c in d.successes <==> c in m.successes)
  }

  lemma DisconnectedOthers(m: Maps, ch: Channel, atOnce: bool, c: Channel)
    requires c != ch
    ensures SameFor(m, Disconnected(m, ch, atOnce), c)
  {
  }

  lemma HandlersUntouched(s: State, step: Step, c: Channel)
    requires c != step.ch
    ensures c in Apply(s, step).handlers <==> c in s.handlers
    ensures c in s.handlers ==> Apply(s, step).handlers[c] == s.handlers[c]
  {
  }

  /** A step on one channel touches nothing of another. */
  lemma OthersUntouched(s: State, step: Step, c: Channel)
    requires c != step.ch
    ensures SameFor(s.maps, Apply(s, step).maps, c)
    ensures c in Apply(s, step).handlers <==> c in s.handlers
    ensures c in s.handlers ==> Apply(s, step).handlers[c] == s.handlers[c]
  {
    HandlersUntouched(s, step, c);
    match step {
      case Disconnect(ch) => DisconnectedOthers(s.maps, ch, false, c);
      case Finish(ch) => DisconnectedOthers(s.maps, ch, false, c);
      case Forward(ch, task) => assert SameFor(s.maps, Stored(s.maps, ch, task, true), c)
                                       && SameFor(s.maps, Stored(s.maps, ch, task, false), c);
      case _ =>
    }
  }

  lemma StepKeepsChannel(s: State, step: Step, ch: Channel)
    requires ChannelOk(s, ch) && Enabled(s, step)
    ensures ChannelOk(Apply(s, step), ch)
  {
    if ch != step.ch {
      OthersUntouched(s, step, ch);
    }
  }

  lemma {:induction false} RunKeepsChannel(s: State, steps: seq<Step>, ch: Channel)
    requires ChannelOk(s, ch) && Runs(s, steps)
    ensures ChannelOk(Run(s, steps), ch)
    decreases |steps|
  {
    if steps != [] {
      StepKeepsChannel(s, steps[0], ch);
      RunKeepsChannel(Apply(s, steps[0]), steps[1..], ch);
    }
  }

  /** The handler is cancelled where nothing can catch it: before it first runs, or while it sends its
      Disconnect. */
  predicate CutOff(s: State, steps: seq<Step>, ch: Channel)
    decreases |steps|
  {
    steps != [] &&
    ((steps[0] == Cancel(ch) && (At(s, ch) == Some(Starting) || At(s, ch) == Some(Closing)))
     || CutOff(Apply(s, steps[0]), steps[1..], ch))
  }

  /** The step puts the channel into a map: a Connect, or the beginning of forwarding. */
  predicate Enters(s: State, step: Step, ch: Channel) {
    step.ch == ch && (step.Connect? || (step.Forward? && At(s, ch) == Some(Connecting) && ch in s.maps.queues))
  }

  /** A Disconnect arrives, and the channel does not enter a map after it. */
  predicate ToldLast(s: State, steps: seq<Step>, ch: Channel)
    decreases |steps|
  {
    steps != [] &&
    ((steps[0] == Disconnect(ch) && NoEntry(Apply(s, steps[0]), steps[1..], ch))
     || ToldLast(Apply(s, steps[0]), steps[1..], ch))
  }

  predicate NoEntry(s: State, steps: seq<Step>, ch: Channel)
    decreases |steps|
  {
    steps != [] ==> !Enters(s, steps[0], ch) && NoEntry(Apply(s, steps[0]), steps[1..], ch)
  }

  predicate IsCut(s: State, ch: Channel) {
    ch in s.handlers && s.handlers[ch].cut
  }

  predicate IsTold(s: State, ch: Channel) {
    ch in s.handlers && s.handlers[ch].told
  }

  lemma StepCut(s: State, step: Step, ch: Channel)
    requires Enabled(s, step)
    ensures IsCut(Apply(s, step), ch)
            <==> IsCut(s, ch) || (step == Cancel(ch) && (At(s, ch) == Some(Starting) || At(s, ch) == Some(Closing)))
  {
  }

  lemma {:induction false} RunCut(s: State, steps: seq<Step>, ch: Channel)
    requires Runs(s, steps)
    ensures IsCut(Run(s, steps), ch) <==> IsCut(s, ch) || CutOff(s, steps, ch)
    decreases |steps|
  {
    if steps != [] {
      StepCut(s, steps[0], ch);
      RunCut(Apply(s, steps[0]), steps[1..], ch);
    }
  }

  lemma StepTold(s: State, step: Step, ch: Channel)
    requires Enabled(s, step) && (step == Disconnect(ch) ==> ch in s.handlers)
    ensures IsTold(Apply(s, step), ch) <==> (IsTold(s, ch) && !Enters(s, step, ch)) || step == Disconnect(ch)
  {
  }

  lemma {:induction false} RunTold(s: State, steps: seq<Step>, ch: Channel)
    requires Runs(s, steps) && ch in s.handlers
    ensures IsTold(Run(s, steps), ch) <==> (IsTold(s, ch) && NoEntry(s, steps, ch)) || ToldLast(s, steps, ch)
    decreases |steps|
  {
    if steps != [] {
      StepTold(s, steps[0], ch);
      RunTold(Apply(s, steps[0]), steps[1..], ch);
    }
  }

  /** Before its Connect nothing is recorded of a channel, and a Disconnect counts for nothing. */
  lemma {:induction false} RunToldFromStart(s: State, steps: seq<Step>, ch: Channel)
    requires Runs(s, steps) && ch !in s.handlers && ch in Run(s, steps).handlers
    ensures IsTold(Run(s, steps), ch) <==> ToldLast(s, steps, ch)
    decreases |steps|
  {
    if steps != [] {
      var d := Apply(s, steps[0]);
      if ch in d.handlers {
        RunTold(d, steps[1..], ch);
      } else {
        RunToldFromStart(d, steps[1..], ch);
        if steps[0] == Disconnect(ch) { EntersSometime(d, steps[1..], ch); }
      }
    }
  }

  lemma {:induction false} EntersSometime(s: State, steps: seq<Step>, ch: Channel)
    requires ch !in s.handlers && ch in Run(s, steps).handlers
    ensures !NoEntry(s, steps, ch)
    decreases |steps|
  {
    if ch !in Apply(s, steps[0]).handlers {
      EntersSometime(Apply(s, steps[0]), steps[1..], ch);
    }
  }

  /** Nothing left behind, exactly: once the handler of a channel has ended and its delays have
      passed, the channel is in none of the maps unless a cancellation cut the handler off before it
      ran or while it was sending its Disconnect, and no Disconnect has arrived since it entered one. */
  lemma NothingLeftBehindExactly(steps: seq<Step>, ch: Channel)
    requires Runs(State(Idle, map[]), steps)
    ensures var start := State(Idle, map[]);
            var s := Run(start, steps);
            At(s, ch) == Some(Ended) && ch !in s.maps.timers ==>
              (InNoMap(s.maps, ch) <==> !CutOff(start, steps, ch) || ToldLast(start, steps, ch))
  {
    var start := State(Idle, map[]);
    RunKeepsChannel(start, steps, ch);
    RunCut(start, steps, ch);
    if ch in Run(start, steps).handlers { RunToldFromStart(start, steps, ch); }
  }

  /** A cancellation before the handler's first step leaves the queue for good. */
  lemma CancelledTooEarly(ch: Channel)
    ensures var steps := [Connect(ch, false), Cancel(ch)];
            var s := Run(State(Idle, map[]), steps);
            Runs(State(Idle, map[]), steps) && At(s, ch) == Some(Ended) && ch !in s.maps.timers && ch in s.maps.queues
  {
    var s0, steps := State(Idle, map[]), [Connect(ch, false), Cancel(ch)];
    var s1 := Apply(s0, steps[0]);
    var s2 := Apply(s1, steps[1]);
    assert steps[1..] == [steps[1]] && steps[1..][1..] == [];
    assert Run(s1, [steps[1]]) == s2;
  }

  // ---------------------------------------------------------------- it winds down

  function Rank(phase: Phase): nat {
    match phase
    case Starting => 8
    case Connecting => 6
    case Forwarding => 4
    case Closing => 2
    case Ended => 0
  }

  /** The steps a channel can still take before its handler has ended and its timers have fired. */
  function Ahead(s: State, ch: Channel): nat {
    s.maps.timers[ch] + if ch in s.handlers then Rank(s.handlers[ch].phase) else 0
  }

  /** Whenever no more messages arrive on a channel every step on it brings its end nearer, and as
      long as it has not ended there is a step to take. */
  lemma WindsDown(s: State, step: Step)
    requires !step.Connect? && !step.Data? && !step.Disconnect? && Apply(s, step) != s
    ensures Ahead(Apply(s, step), step.ch) < Ahead(s, step.ch)
  {
  }

  lemma SomeStep(s: State, ch: Channel) returns (step: Step)
    requires Ahead(s, ch) > 0
    ensures step.ch == ch && !step.Connect? && !step.Data? && !step.Disconnect? && Apply(s, step) != s
  {
    if ch in s.maps.timers {
      step := Fire(ch);
      assert Apply(s, step).maps.timers[ch] < s.maps.timers[ch];
    } else {
      var h := s.handlers[ch];
      step := match h.phase
        case Starting => Begin(ch)
        case Connecting => Fail(ch)
        case Forwarding => Stop(ch)
        case _ => Finish(ch);
      assert Apply(s, step).handlers[ch].phase != h.phase;
    }
  }
}
