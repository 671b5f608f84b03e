/** Listening sockets shared by port, counted by their users, and closed by a timer some time
    after the last user has released them. */
module SocketManager {
  import opened Bytes

  type PortNo = int
  type SocketId = nat

  /** A managed socket.  `since` is the time it last became idle: 0 at first, and 0 again when it is
      released while others hold it; taking it up again leaves it as it was. */
  datatype Entry = Entry(id: SocketId, since: nat, refs: int)

  /** A clean-up task sleeping until `due`. */
  datatype Timer = Timer(port: PortNo, due: nat)

  /** `open` are the sockets the operating system has open, `nextId` the next one it will create,
      `now` the event loop's clock. */
  datatype Sockets = Sockets(
    grace: nat, sockets: map<PortNo, Entry>, timers: multiset<Timer>,
    open: set<SocketId>, nextId: SocketId, now: nat)

  datatype Event =
    | Get(port: PortNo)
    | Release(port: PortNo)
    | Tick(d: nat)
    | Fire(timer: Timer)

  // ---------------------------------------------------------------- the operations as values

  function Got(s: Sockets, port: PortNo): Sockets {
    if port in s.sockets then
      s.(sockets := s.sockets[port := s.sockets[port].(refs := s.sockets[port].refs + 1)])
    else
      s.(sockets := s.sockets[port := Entry(s.nextId, 0, 1)], open := s.open + {s.nextId}, nextId := s.nextId + 1)
  }

  function Released(s: Sockets, port: PortNo): Sockets {
    if port !in s.sockets then s
    else if s.sockets[port].refs - 1 <= 0 then
      s.(sockets := s.sockets[port := Entry(s.sockets[port].id, s.now, 0)],
         timers := s.timers + multiset{Timer(port, s.now + s.grace)})
    else
      s.(sockets := s.sockets[port := Entry(s.sockets[port].id, 0, s.sockets[port].refs - 1)])
  }

  /** The guard of the clean-up: nobody holds the socket and it is marked idle. */
  predicate Idle(s: Sockets, port: PortNo) {
    port in s.sockets && s.sockets[port].refs == 0 && s.sockets[port].since > 0
  }

  function Fired(s: Sockets, timer: Timer): Sockets {
    var left := s.(timers := s.timers - multiset{timer});
    if Idle(s, timer.port) then
      left.(sockets := s.sockets - {timer.port}, open := s.open - {s.sockets[timer.port].id})
    else
      left
  }

  function Apply(s: Sockets, e: Event): Sockets {
    match e
    case Get(port) => Got(s, port)
    case Release(port) => Released(s, port)
    case Tick(d) => s.(now := s.now + d)
    case Fire(timer) => Fired(s, timer)
  }

  /** A new manager; the clock of the event loop has started. */
  function Start(grace: nat): Sockets {
    Sockets(grace, map[], multiset{}, {}, 0, 1)
  }

  // ---------------------------------------------------------------- the class

  class Manager {
    const grace: nat
    var sockets: map<PortNo, Entry>
    var timers: multiset<Timer>
    var open: set<SocketId>
    var nextId: SocketId
    var now: nat

    ghost function Value(): Sockets
      reads this
    {
      Sockets(grace, sockets, timers, open, nextId, now)
    }

    constructor (grace: nat)
      ensures Value() == Start(grace)
    {
      this.grace := grace;
      sockets, timers, open, nextId, now := map[], multiset{}, {}, 0, 1;
    }

    /** The caller holds an open socket of the port, the only one; no socket is closed and no other port
        is touched. */
    method GetSocket(port: PortNo, ghost users: map<PortNo, nat>) returns (id: SocketId)
      modifies this
      ensures Value() == Got(old(Value()), port)
      ensures ManagedAt(Value(), id, port) && (port in old(sockets) ==> id == old(sockets)[port].id)
      ensures open == if port in old(sockets) then old(open) else old(open) + {id}
      ensures forall p | p != port :: SameAt(old(Value()), Value(), p)
      ensures Inv(old(Value()), users) ==> Inv(Value(), UsersAfter(users, Get(port))) && id in open
    {
      if Inv(Value(), users) { GetKeepsInv(Value(), users, port); }
      if port in sockets {
        var entry := sockets[port];
        sockets := sockets[port := entry.(refs := entry.refs + 1)];
        return entry.id;
      }
      id := nextId;
      open, nextId := open + {id}, nextId + 1;
      sockets := sockets[port := Entry(id, 0, 1)];
    }

    /** No socket is closed and no other port is touched; the last user leaves the socket idle from now
        on, with a timer of its own. */
    method ReleaseSocket(port: PortNo, ghost users: map<PortNo, nat>)
      modifies this
      ensures Value() == Released(old(Value()), port)
      ensures open == old(open) && forall p | p != port :: SameAt(old(Value()), Value(), p)
      ensures Inv(old(Value()), users) && Users(users, port) > 0 ==>
                && Inv(Value(), UsersAfter(users, Release(port)))
                && (Idle(Value(), port) <==> Users(users, port) == 1)
                && (Users(users, port) == 1 ==> sockets[port].since == now && Timer(port, now + grace) in timers)
    {
      if Inv(Value(), users) && Users(users, port) > 0 { ReleaseKeepsInv(Value(), users, port); }
      if port !in sockets {
        return;
      }
      var entry := sockets[port];
      var refs := entry.refs - 1;
      if refs <= 0 {
        sockets := sockets[port := Entry(entry.id, now, 0)];
        timers := timers + multiset{Timer(port, now + grace)};
      } else {
        sockets := sockets[port := Entry(entry.id, 0, refs)];
      }
    }

    /** Only the socket of the timer's port can be closed, and it is exactly when nobody uses it. */
    method CleanupSocket(timer: Timer, ghost users: map<PortNo, nat>)
      modifies this
      ensures Value() == Fired(old(Value()), timer)
      ensures forall p | p != timer.port :: SameAt(old(Value()), Value(), p)
      ensures Inv(old(Value()), users) && Enabled(old(Value()), users, Fire(timer)) ==>
                && Inv(Value(), users)
                && (timer.port in old(sockets) ==>
                      (timer.port !in sockets <==> Users(users, timer.port) == 0)
                      && (old(sockets)[timer.port].id !in open <==> Users(users, timer.port) == 0))
    {
      if Inv(Value(), users) && Enabled(Value(), users, Fire(timer)) { FireKeepsInv(Value(), users, timer); }
      timers := timers - multiset{timer};
      if timer.port !in sockets {
        return;
      }
      var entry := sockets[timer.port];
      if entry.refs == 0 && entry.since > 0 {
        open := open - {entry.id};
        sockets := sockets - {timer.port};
      }
    }

    /** Shutdown: cancel every clean-up task, then close every socket. */
    method Close()
      modifies this
      ensures sockets == map[] && timers == multiset{}
      ensures open == old(open) - (set port | port in old(sockets) :: old(sockets)[port].id)
      ensures nextId == old(nextId) && now == old(now)
    {
      timers := multiset{};
      ghost var before := sockets;
      ghost var closed: set<PortNo> := {};
      var left := sockets.Keys;
      while left != {}
        invariant timers == multiset{} && nextId == old(nextId) && now == old(now)
        invariant left <= before.Keys && closed == before.Keys - left
        invariant sockets == before - closed
        invariant open == old(open) - (set port | port in closed :: before[port].id)
        decreases left
      {
        ghost var some := Member(left);
        var port: PortNo :| port in left;
        open := open - {sockets[port].id};
        sockets := sockets - {port};
        left := left - {port};
        closed := closed + {port};
      }
      assert sockets == map[];
    }
  }

  // ---------------------------------------------------------------- what every run keeps

  /** The number of users of each port, counted from the calls themselves. */
  function Users(users: map<PortNo, nat>, port: PortNo): nat {
    if port in users then users[port] else 0
  }

  function UsersAfter(users: map<PortNo, nat>, e: Event): map<PortNo, nat> {
    match e
    case Get(port) => users[port := Users(users, port) + 1]
    case Release(port) => if Users(users, port) > 0 then users[port := Users(users, port) - 1] else users
    case _ => users
  }

  /** Calls are paired, and a clean-up wakes up no earlier than it is due. */
  predicate Enabled(s: Sockets, users: map<PortNo, nat>, e: Event) {
    match e
    case Release(port) => Users(users, port) > 0
    case Fire(timer) => timer in s.timers && timer.due <= s.now
    case _ => true
  }

  /** The reference counts are the outstanding gets. */
  ghost predicate Counted(s: Sockets, users: map<PortNo, nat>) {
    && (forall p <- s.sockets :: s.sockets[p].refs == Users(users, p))
    && (forall p :: Users(users, p) > 0 ==> p in s.sockets)
  }

  /** Every idle socket has a clean-up due at its idle time plus the grace. */
  ghost predicate Covered(s: Sockets) {
    && s.now > 0
    && (forall p <- s.sockets :: s.sockets[p].refs == 0 ==>
          0 < s.sockets[p].since <= s.now && Timer(p, s.sockets[p].since + s.grace) in s.timers)
  }

  /** Nothing has changed for the port. */
  ghost predicate SameAt(s: Sockets, t: Sockets, p: PortNo) {
    (p in t.sockets <==> p in s.sockets) && (p in s.sockets ==> t.sockets[p] == s.sockets[p])
  }

  ghost predicate ManagedAt(s: Sockets, id: SocketId, p: PortNo) {
    p in s.sockets && s.sockets[p].id == id
  }

  /** The open sockets are exactly the managed ones, a different one for each port. */
  ghost predicate OnePerPort(s: Sockets) {
    && (forall p <- s.sockets :: s.sockets[p].id in s.open && s.sockets[p].id < s.nextId)
    && (forall id <- s.open :: exists p :: ManagedAt(s, id, p))
    && (forall p <- s.sockets, q <- s.sockets :: p != q ==> s.sockets[p].id != s.sockets[q].id)
  }

  ghost predicate Inv(s: Sockets, users: map<PortNo, nat>) {
    Counted(s, users) && Covered(s) && OnePerPort(s)
  }

  lemma ManagedKeepsOnePerPort(s: Sockets, t: Sockets)
    requires OnePerPort(s) && t.open == s.open && t.nextId == s.nextId
    requires t.sockets.Keys == s.sockets.Keys && forall p <- s.sockets :: t.sockets[p].id == s.sockets[p].id
    ensures OnePerPort(t)
  {
    forall id <- t.open ensures exists p :: ManagedAt(t, id, p) {
      var p :| ManagedAt(s, id, p);
      assert ManagedAt(t, id, p);
    }
  }

  lemma CreateKeepsOnePerPort(s: Sockets, port: PortNo)
    requires OnePerPort(s) && port !in s.sockets
    ensures OnePerPort(Got(s, port))
  {
    var t := Got(s, port);
    forall id <- t.open ensures exists p :: ManagedAt(t, id, p) {
      if id == s.nextId {
        assert ManagedAt(t, id, port);
      } else {
        var p :| ManagedAt(s, id, p);
        assert ManagedAt(t, id, p);
      }
    }
  }

  lemma GetKeepsCounted(s: Sockets, users: map<PortNo, nat>, port: PortNo)
    requires Counted(s, users)
    ensures Counted(Got(s, port), UsersAfter(users, Get(port)))
  {
    var t, after := Got(s, port), UsersAfter(users, Get(port));
    assert forall p :: Users(after, p) == if p == port then Users(users, p) + 1 else Users(users, p);
    assert port !in s.sockets ==> Users(users, port) == 0;
  }

  lemma GetKeepsCovered(s: Sockets, users: map<PortNo, nat>, port: PortNo)
    requires Counted(s, users) && Covered(s)
    ensures Covered(Got(s, port))
  {
    var t := Got(s, port);
    assert t.sockets[port].refs > 0;
    assert t.timers == s.timers;
  }

  lemma GetKeepsInv(s: Sockets, users: map<PortNo, nat>, port: PortNo)
    requires Inv(s, users)
    ensures Inv(Got(s, port), UsersAfter(users, Get(port)))
  {
    GetKeepsCounted(s, users, port);
    GetKeepsCovered(s, users, port);
    if port in s.sockets {
      ManagedKeepsOnePerPort(s, Got(s, port));
    } else {
      CreateKeepsOnePerPort(s, port);
    }
  }

  lemma ReleaseKeepsCounted(s: Sockets, users: map<PortNo, nat>, port: PortNo)
    requires Counted(s, users) && Users(users, port) > 0
    ensures Counted(Released(s, port), UsersAfter(users, Release(port)))
  {
    var after := UsersAfter(users, Release(port));
    assert forall p :: Users(after, p) == if p == port then Users(users, p) - 1 else Users(users, p);
  }

  lemma ReleaseKeepsCovered(s: Sockets, port: PortNo)
    requires Covered(s)
    ensures Covered(Released(s, port))
  {
    var t := Released(s, port);
    assert forall x :: x in s.timers ==> x in t.timers;
  }

  lemma ReleaseKeepsInv(s: Sockets, users: map<PortNo, nat>, port: PortNo)
    requires Inv(s, users) && Enabled(s, users, Release(port))
    ensures Inv(Released(s, port), UsersAfter(users, Release(port)))
  {
    ReleaseKeepsCounted(s, users, port);
    ReleaseKeepsCovered(s, port);
    ManagedKeepsOnePerPort(s, Released(s, port));
  }

  lemma FireKeepsInv(s: Sockets, users: map<PortNo, nat>, timer: Timer)
    requires Inv(s, users) && Enabled(s, users, Fire(timer))
    ensures Inv(Fired(s, timer), users)
  {
    var t := Fired(s, timer);
    if Idle(s, timer.port) {
      forall id <- t.open ensures exists p :: ManagedAt(t, id, p) {
        var p :| ManagedAt(s, id, p);
        assert ManagedAt(t, id, p);
      }
    } else {
      ManagedKeepsOnePerPort(s, t);
    }
  }

  /** The states a run of events goes through from a given state. */
  ghost predicate Runs(s: Sockets, users: map<PortNo, nat>, events: seq<Event>)
    decreases |events|
  {
    events != [] ==>
      Enabled(s, users, events[0]) && Runs(Apply(s, events[0]), UsersAfter(users, events[0]), events[1..])
  }

  ghost function Run(s: Sockets, users: map<PortNo, nat>, events: seq<Event>): (Sockets, map<PortNo, nat>)
    requires Runs(s, users, events)
    decreases |events|
  {
    if events == [] then (s, users) else Run(Apply(s, events[0]), UsersAfter(users, events[0]), events[1..])
  }

  lemma StepKeepsInv(s: Sockets, users: map<PortNo, nat>, e: Event)
    requires Inv(s, users) && Enabled(s, users, e)
    ensures Inv(Apply(s, e), UsersAfter(users, e))
  {
    match e {
      case Get(port) => GetKeepsInv(s, users, port);
      case Release(port) => ReleaseKeepsInv(s, users, port);
      case Tick(_) => ManagedKeepsOnePerPort(s, Apply(s, e));
      case Fire(timer) => FireKeepsInv(s, users, timer);
    }
  }

  lemma {:induction false} RunKeepsInv(s: Sockets, users: map<PortNo, nat>, events: seq<Event>)
    requires Inv(s, users) && Runs(s, users, events)
    ensures Inv(Run(s, users, events).0, Run(s, users, events).1)
    decreases |events|
  {
    if events != [] {
      StepKeepsInv(s, users, events[0]);
      RunKeepsInv(Apply(s, events[0]), UsersAfter(users, events[0]), events[1..]);
    }
  }

  /** Over every order of paired gets and releases, clock ticks and timer firings from the start:
      reference counts, clean-up cover and one open socket per port. */
  lemma ManagedSockets(grace: nat, events: seq<Event>)
    requires Runs(Start(grace), map[], events)
    ensures var (s, users) := Run(Start(grace), map[], events);
            Counted(s, users) && Covered(s) && OnePerPort(s)
  {
    RunKeepsInv(Start(grace), map[], events);
  }

  /** A timer closes a socket exactly when it is managed and nobody holds it; no other event
      closes one. */
  lemma ClosedOnlyWhenFree(s: Sockets, users: map<PortNo, nat>, e: Event, p: PortNo)
    requires Inv(s, users) && Enabled(s, users, e) && p in s.sockets
    ensures s.sockets[p].id !in Apply(s, e).open <==> e.Fire? && e.timer.port == p && Users(users, p) == 0
  {
    StepKeepsInv(s, users, e);
    var t := Apply(s, e);
    if e.Fire? && e.timer.port != p {
      assert p in t.sockets;
    }
    if p in t.sockets {
      assert t.sockets[p].id == s.sockets[p].id;
    }
  }

  /** No idle socket outlives its grace: once the timers that are due have fired, every idle
      socket is younger than the grace. */
  lemma NoneOutlivesGrace(s: Sockets, users: map<PortNo, nat>, p: PortNo)
    requires Inv(s, users) && Idle(s, p)
    requires forall timer <- s.timers :: timer.due > s.now
    ensures s.now < s.sockets[p].since + s.grace
  {
    assert Timer(p, s.sockets[p].since + s.grace) in s.timers;
  }

  /** Time passes and clean-ups run; nobody gets or releases. */
  predicate Quiet(events: seq<Event>) {
    forall i :: 0 <= i < |events| ==> events[i].Tick? || events[i].Fire?
  }

  /** The moment something happens at the end of a run of events. */
  ghost predicate ClosesBefore(s: Sockets, users: map<PortNo, nat>, p: PortNo, deadline: nat) {
    exists events ::
      Quiet(events) && Runs(s, users, events)
      && p !in Run(s, users, events).0.sockets && Run(s, users, events).0.now < deadline
  }

  lemma QuietStep(s: Sockets, users: map<PortNo, nat>, e: Event, p: PortNo, deadline: nat)
    requires Enabled(s, users, e) && (e.Tick? || e.Fire?) && Idle(s, p) && s.now < deadline
    requires forall timer <- s.timers :: timer.port == p ==> timer.due >= deadline
    ensures Idle(Apply(s, e), p)
    ensures forall timer <- Apply(s, e).timers :: timer.port == p ==> timer.due >= deadline
  {
  }

  lemma {:induction false} QuietRun(s: Sockets, users: map<PortNo, nat>, events: seq<Event>, p: PortNo, deadline: nat)
    requires Quiet(events) && Runs(s, users, events) && Idle(s, p)
    requires forall timer <- s.timers :: timer.port == p ==> timer.due >= deadline
    requires Run(s, users, events).0.now < deadline
    ensures p in Run(s, users, events).0.sockets
    decreases |events|
  {
    if events != [] {
      TimeGrows(s, users, events);
      assert Quiet(events[1..]);
      QuietStep(s, users, events[0], p, deadline);
      QuietRun(Apply(s, events[0]), UsersAfter(users, events[0]), events[1..], p, deadline);
    }
  }

  lemma {:induction false} TimeGrows(s: Sockets, users: map<PortNo, nat>, events: seq<Event>)
    requires Runs(s, users, events)
    ensures s.now <= Run(s, users, events).0.now
    decreases |events|
  {
    if events != [] {
      TimeGrows(Apply(s, events[0]), UsersAfter(users, events[0]), events[1..]);
    }
  }

  /** The grace is a promise only when no timer is left over from an earlier release: an idle
      socket can be closed before a deadline exactly when some clean-up for its port, whichever
      release started it, is due before then (and the deadline has not passed). */
  lemma EarlyCloseExactly(s: Sockets, users: map<PortNo, nat>, p: PortNo, deadline: nat)
    requires Inv(s, users) && Idle(s, p)
    ensures ClosesBefore(s, users, p, deadline)
            <==> s.now < deadline && exists timer <- s.timers :: timer.port == p && timer.due < deadline
  {
    if s.now < deadline && exists timer <- s.timers :: timer.port == p && timer.due < deadline {
      var timer :| timer in s.timers && timer.port == p && timer.due < deadline;
      var events := [Tick(if timer.due > s.now then timer.due - s.now else 0), Fire(timer)];
      var t := Apply(s, events[0]);
      assert events[1..] == [Fire(timer)] && [Fire(timer)][1..] == [];
      assert Runs(t, users, [Fire(timer)]);
      assert Run(t, users, [Fire(timer)]) == (Fired(t, timer), users);
      assert Quiet(events) && Runs(s, users, events);
    } else {
      forall events | Quiet(events) && Runs(s, users, events)
        ensures p in Run(s, users, events).0.sockets || Run(s, users, events).0.now >= deadline
      {
        TimeGrows(s, users, events);
        if Run(s, users, events).0.now < deadline {
          QuietRun(s, users, events, p, deadline);
        }
      }
    }
  }

  /** A stale timer: the socket, idle since 6 with a grace of 10, can be closed before 16, by the timer of
      the release at 1. */
  lemma StaleTimer()
    ensures var events := [Get(7), Release(7), Get(7), Tick(5), Release(7)];
            var (s, users) := Run(Start(10), map[], events);
            Runs(Start(10), map[], events) && Idle(s, 7) && s.sockets[7].since + s.grace == 16
                && ClosesBefore(s, users, 7, 16)
  {
    var e0, e1, e2, e3, e4 := Get(7), Release(7), Get(7), Tick(5), Release(7);
    var s0 := Start(10);
    var s1, u1 := Apply(s0, e0), UsersAfter(map[], e0);
    var s2, u2 := Apply(s1, e1), UsersAfter(u1, e1);
    var s3, u3 := Apply(s2, e2), UsersAfter(u2, e2);
    var s4, u4 := Apply(s3, e3), UsersAfter(u3, e3);
    var s5, u5 := Apply(s4, e4), UsersAfter(u4, e4);
    assert [e0, e1, e2, e3, e4][1..] == [e1, e2, e3, e4] && [e1, e2, e3, e4][1..] == [e2, e3, e4];
    assert [e2, e3, e4][1..] == [e3, e4] && [e3, e4][1..] == [e4] && [e4][1..] == [];
    assert Runs(s5, u5, []) && Run(s5, u5, []) == (s5, u5);
    assert Runs(s4, u4, [e4]) && Run(s4, u4, [e4]) == (s5, u5);
    assert Runs(s3, u3, [e3, e4]) && Run(s3, u3, [e3, e4]) == (s5, u5);
    assert Runs(s2, u2, [e2, e3, e4]) && Run(s2, u2, [e2, e3, e4]) == (s5, u5);
    assert Runs(s1, u1, [e1, e2, e3, e4]) && Run(s1, u1, [e1, e2, e3, e4]) == (s5, u5);
    ManagedSockets(10, [e0, e1, e2, e3, e4]);
    assert Timer(7, 11) in s5.timers;
    EarlyCloseExactly(s5, u5, 7, 16);
  }
}
