/** One channel in connector mode, seen alone: the SOCKS side at a connector, the network side at a
    reverse client, and the server between them, with a link to either. */
module TwoHops {
  import opened Bytes
  import opened Stream

  /** `up` and `upFar` lead from the SOCKS side to the server and on to the network side, `down` and
      `downFar` back.  `known`: the server has the channel in its cache; `placed`: its Connect has
      been passed on.  `lostUp` and `lostDown` are
      histories: the payload the server has dropped because it does not know the channel. */
  datatype Pipe = Pipe(pair: Pair, up: seq<Msg>, lostUp: seq<Byte>, upFar: seq<Msg>,
                       down: seq<Msg>, lostDown: seq<Byte>, downFar: seq<Msg>, known: bool, placed: bool)

  /** What the server makes of a Connect. */
  datatype Verdict = Passed | Refused | Ignored

  datatype Happening =
    | Acts(side: Side, act: Act)
    | Arrives(to: Side)
    | Relays(from: Side, verdict: Verdict)
    | Forgets

  predicate CanHappen(p: Pipe, h: Happening) {
    match h
    case Acts(side, a) => CanAct(side, p.pair.On(side), a)
    case Arrives(to) => (if to == Net then p.upFar else p.downFar) != []
    case Relays(from, _) => (if from == Socks then p.up else p.down) != []
    case Forgets => true
  }

  function RelayedUp(p: Pipe, ch: Channel, v: Verdict): Pipe
    requires p.up != []
  {
    var m, q := p.up[0], p.(up := p.up[1..]);
    match m
    case Connect(_) =>
      if v == Passed then q.(upFar := p.upFar + [m], known := true, placed := true)
      else if v == Refused then q.(downFar := p.downFar + [Response(ch, false)])
      else q
    case Data(_, bytes) => if p.known then q.(upFar := p.upFar + [m]) else q.(lostUp := p.lostUp + bytes)
    case Disconnect(_) => if p.known then q.(upFar := p.upFar + [m]) else q
    case Response(_, _) => q
  }

  /** A Disconnect is not passed on to a connector. */
  function RelayedDown(p: Pipe): Pipe
    requires p.down != []
  {
    var m, q := p.down[0], p.(down := p.down[1..]);
    match m
    case Data(_, bytes) => if p.known then q.(downFar := p.downFar + [m]) else q.(lostDown := p.lostDown + bytes)
    case Response(_, _) => if p.known then q.(downFar := p.downFar + [m]) else q
    case _ => q
  }

  function After(p: Pipe, ch: Channel, h: Happening): Pipe
    requires CanHappen(p, h)
  {
    match h
    case Acts(side, a) =>
      var (after, out) := Act1(side, ch, p.pair.On(side), a);
      var q := p.(pair := p.pair.With(side, after));
      if side == Socks then q.(up := p.up + out) else q.(down := p.down + out)
    case Arrives(to) =>
      var m := if to == Net then p.upFar[0] else p.downFar[0];
      var q := p.(pair := p.pair.With(to, Arrive(to, p.pair.On(to), m)));
      if to == Net then q.(upFar := p.upFar[1..]) else q.(downFar := p.downFar[1..])
    case Relays(from, v) => if from == Socks then RelayedUp(p, ch, v) else RelayedDown(p)
    case Forgets => p.(known := false)
  }

  // ---------------------------------------------------------------- what is kept

  function Connects(link: seq<Msg>): nat {
    if link == [] then 0 else (if link[0].Connect? then 1 else 0) + Connects(link[1..])
  }

  lemma {:induction false} ConnectsAppend(link: seq<Msg>, more: seq<Msg>)
    ensures Connects(link + more) == Connects(link) + Connects(more)
  {
    if link == [] {
      assert [] + more == more;
    } else {
      assert (link + more)[1..] == link[1..] + more;
      ConnectsAppend(link[1..], more);
    }
  }

  predicate NoGrant(link: seq<Msg>) {
    forall m <- link :: !(m.Response? && m.ok)
  }

  predicate AllOf(link: seq<Msg>, ch: Channel) {
    forall m <- link :: m.ch == ch
  }

  predicate LinksOk(p: Pipe, ch: Channel) {
    AllOf(p.up, ch) && AllOf(p.upFar, ch) && AllOf(p.down, ch) && AllOf(p.downFar, ch)
  }

  lemma AllOfParts(link: seq<Msg>, more: seq<Msg>, ch: Channel)
    requires AllOf(link, ch) && AllOf(more, ch)
    ensures AllOf(link + more, ch) && (link != [] ==> AllOf(link[1..], ch) && AllOf([link[0]], ch))
  {
  }

  /** The payload between the two ends, the part that will arrive first in front. */
  function UpBytes(p: Pipe, ch: Channel): seq<Byte> {
    InFlight(p.upFar, ch) + (p.lostUp + InFlight(p.up, ch))
  }

  function DownBytes(p: Pipe, ch: Channel): seq<Byte> {
    InFlight(p.downFar, ch) + (p.lostDown + InFlight(p.down, ch))
  }

  /** The one Connect is on its way exactly until the network side has seen it. */
  predicate ConnectsOk(p: Pipe) {
    && Connects(p.up) + Connects(p.upFar) <= 1 && Connects(p.down) == Connects(p.downFar) == 0
    && (Connects(p.up) + Connects(p.upFar) == 1 ==> p.pair.net.phase == Absent)
    && (Connects(p.up) == 1 ==> p.up[0].Connect? && !p.known && !p.placed && p.lostUp == [] && p.lostDown == [])
    && (p.pair.net.phase == Absent ==> p.down == [] && NoGrant(p.downFar))
  }

  /** Nothing is dropped while the channel is known. */
  predicate PipeOk(p: Pipe, ch: Channel) {
    && PairOk(p.pair, UpBytes(p, ch), DownBytes(p, ch)) && ConnectsOk(p)
    && (p.known ==> p.lostUp == [] && p.lostDown == []) && LinksOk(p, ch)
  }

  lemma OneAct(side: Side, ch: Channel, e: End, a: Act)
    requires CanAct(side, e, a) && EndOk(side, e)
    ensures var (after, out) := Act1(side, ch, e, a);
            && AllOf(out, ch) && Connects(out) == 0
            && (after.phase == Absent <==> e.phase == Absent) && (e.phase == Absent ==> out == [])
  {
    var out := Act1(side, ch, e, a).1;
    if out != [] { assert out == [out[0]] && out[1..] == []; }
  }

  lemma ActsBytes(p: Pipe, ch: Channel, side: Side, a: Act)
    requires CanHappen(p, Acts(side, a))
    ensures var q, out := After(p, ch, Acts(side, a)), InFlight(Act1(side, ch, p.pair.On(side), a).1, ch);
            && UpBytes(q, ch) == (if side == Socks then UpBytes(p, ch) + out else UpBytes(p, ch))
            && DownBytes(q, ch) == (if side == Net then DownBytes(p, ch) + out else DownBytes(p, ch))
  {
    var out := Act1(side, ch, p.pair.On(side), a).1;
    var link, lost, far := if side == Socks then p.up else p.down, if side == Socks then p.lostUp else p.lostDown,
        if side == Socks then p.upFar else p.downFar;
    InFlightAppend(link, out, ch);
    Grow2(lost, InFlight(link, ch), InFlight(out, ch));
    Grow2(InFlight(far, ch), lost + InFlight(link, ch), InFlight(out, ch));
  }

  lemma ActsKeeps(p: Pipe, ch: Channel, side: Side, a: Act)
    requires PipeOk(p, ch) && CanHappen(p, Acts(side, a))
    ensures PipeOk(After(p, ch, Acts(side, a)), ch)
  {
    OneAct(side, ch, p.pair.On(side), a);
    ActsBytes(p, ch, side, a);
    LocalKeepsPair(p.pair, UpBytes(p, ch), DownBytes(p, ch), side, ch, a);
    ConnectsAppend(if side == Socks then p.up else p.down, Act1(side, ch, p.pair.On(side), a).1);
  }

  lemma ArrivesBytes(p: Pipe, ch: Channel, to: Side)
    requires CanHappen(p, Arrives(to)) && AllOf(if to == Net then p.upFar else p.downFar, ch)
    ensures var q, m := After(p, ch, Arrives(to)), if to == Net then p.upFar[0] else p.downFar[0];
            var bytes := if m.Data? then m.bytes else [];
            && UpBytes(p, ch) == (if to == Net then bytes + UpBytes(q, ch) else UpBytes(q, ch))
            && DownBytes(p, ch) == (if to == Socks then bytes + DownBytes(q, ch) else DownBytes(q, ch))
  {
    var link := if to == Net then p.upFar else p.downFar;
    var lost := if to == Net then p.lostUp + InFlight(p.up, ch) else p.lostDown + InFlight(p.down, ch);
    PopFront(link, ch);
    assert link[0] in link;
    Grow2(if link[0].Data? then link[0].bytes else [], InFlight(link[1..], ch), lost);
  }

  lemma ArriveKeepsPhase(side: Side, e: End, m: Msg)
    ensures Arrive(side, e, m).phase == if m.Connect? && side == Net then Waiting else e.phase
  {
  }

  /** A delivered message leaves its link. */
  lemma ArrivesRest(p: Pipe, ch: Channel, to: Side)
    requires ConnectsOk(p) && LinksOk(p, ch) && CanHappen(p, Arrives(to))
    ensures ConnectsOk(After(p, ch, Arrives(to))) && LinksOk(After(p, ch, Arrives(to)), ch)
  {
    var link := if to == Net then p.upFar else p.downFar;
    ArriveKeepsPhase(to, p.pair.On(to), link[0]);
    AllOfParts(link, [], ch);
    assert forall x <- link[1..] :: x in link;
  }

  lemma ArrivesKeeps(p: Pipe, ch: Channel, to: Side)
    requires PipeOk(p, ch) && CanHappen(p, Arrives(to))
    ensures PipeOk(After(p, ch, Arrives(to)), ch)
  {
    var q, m := After(p, ch, Arrives(to)), if to == Net then p.upFar[0] else p.downFar[0];
    ArrivesBytes(p, ch, to);
    ArrivesRest(p, ch, to);
    assert to == Socks ==> m in p.downFar;
    DeliverKeepsPair(p.pair, UpBytes(q, ch), DownBytes(q, ch), to, m);
  }

  /** What the server passes on moves from one link to the next; what it drops was the next to arrive. */
  lemma Moved(far: seq<Byte>, lost: seq<Byte>, bytes: seq<Byte>, rest: seq<Byte>)
    ensures lost == [] ==> (far + bytes) + (lost + rest) == far + (lost + (bytes + rest))
    ensures far + ((lost + bytes) + rest) == far + (lost + (bytes + rest))
  {
    Grow2(lost, bytes, rest);
    Grow2(far, bytes, rest);
    if lost == [] { assert lost + rest == rest && lost + (bytes + rest) == bytes + rest; }
  }

  lemma RelaysBytes(p: Pipe, ch: Channel, from: Side, v: Verdict)
    requires CanHappen(p, Relays(from, v)) && AllOf(p.up, ch) && AllOf(p.down, ch)
    requires p.known ==> p.lostUp == [] && p.lostDown == []
    ensures var q := After(p, ch, Relays(from, v));
            UpBytes(q, ch) == UpBytes(p, ch) && DownBytes(q, ch) == DownBytes(p, ch)
  {
    var link, far := if from == Socks then p.up else p.down, if from == Socks then p.upFar else p.downFar;
    var lost := if from == Socks then p.lostUp else p.lostDown;
    var m := link[0];
    assert m in link;
    PopFront(link, ch);
    InFlightAppend(far, [m], ch);
    PopFront([m], ch);
    assert [m][1..] == [] && InFlight([], ch) == [];
    var bytes := if m.Data? then m.bytes else [];
    assert InFlight([m], ch) == bytes + [] == bytes;
    Moved(InFlight(far, ch), lost, bytes, InFlight(link[1..], ch));
    InFlightAppend(p.downFar, [Response(ch, false)], ch);
    ControlOnly([Response(ch, false)], ch);
    assert InFlight(p.downFar, ch) + [] == InFlight(p.downFar, ch);
    assert InFlight(far, ch) + [] == InFlight(far, ch);
    assert [] + InFlight(link[1..], ch) == InFlight(link[1..], ch);
  }

  /** Nothing has overtaken a Connect. */
  lemma RelayedUpRest(p: Pipe, ch: Channel, v: Verdict)
    requires ConnectsOk(p) && p.up != [] && (p.known ==> p.lostUp == [] && p.lostDown == [])
    ensures var q := RelayedUp(p, ch, v); ConnectsOk(q) && (q.known ==> q.lostUp == [] && q.lostDown == [])
  {
    ConnectsAppend(p.upFar, [p.up[0]]);
    ConnectsAppend(p.downFar, [Response(ch, false)]);
    assert [p.up[0]][1..] == [] && [Response(ch, false)][1..] == [];
  }

  lemma RelayedDownRest(p: Pipe)
    requires ConnectsOk(p) && p.down != [] && (p.known ==> p.lostUp == [] && p.lostDown == [])
    ensures var q := RelayedDown(p); ConnectsOk(q) && (q.known ==> q.lostUp == [] && q.lostDown == [])
  {
    assert p.pair.net.phase != Absent && Connects(p.up) == Connects(p.upFar) == 0;
    ConnectsAppend(p.downFar, [p.down[0]]);
    assert [p.down[0]][1..] == [];
  }

  lemma RelaysLinks(p: Pipe, ch: Channel, from: Side, v: Verdict)
    requires LinksOk(p, ch) && CanHappen(p, Relays(from, v))
    ensures LinksOk(After(p, ch, Relays(from, v)), ch)
  {
    var link, far := if from == Socks then p.up else p.down, if from == Socks then p.upFar else p.downFar;
    AllOfParts(link, [], ch);
    AllOfParts(far, [link[0]], ch);
    AllOfParts(p.downFar, [Response(ch, false)], ch);
  }

  lemma RelaysRest(p: Pipe, ch: Channel, from: Side, v: Verdict)
    requires ConnectsOk(p) && (p.known ==> p.lostUp == [] && p.lostDown == []) && CanHappen(p, Relays(from, v))
    ensures var q := After(p, ch, Relays(from, v));
            q.pair == p.pair && ConnectsOk(q) && (q.known ==> q.lostUp == [] && q.lostDown == [])
  {
    if from == Socks {
      RelayedUpRest(p, ch, v);
      assert After(p, ch, Relays(from, v)) == RelayedUp(p, ch, v);
    } else {
      RelayedDownRest(p);
      assert After(p, ch, Relays(from, v)) == RelayedDown(p);
    }
  }

  lemma RelaysKeeps(p: Pipe, ch: Channel, from: Side, v: Verdict)
    requires PipeOk(p, ch) && CanHappen(p, Relays(from, v))
    ensures PipeOk(After(p, ch, Relays(from, v)), ch)
  {
    RelaysRest(p, ch, from, v);
    RelaysBytes(p, ch, from, v);
    RelaysLinks(p, ch, from, v);
  }

  /** Whatever happens to the channel its accounts are kept. */
  lemma HappeningKeeps(p: Pipe, ch: Channel, h: Happening)
    requires PipeOk(p, ch) && CanHappen(p, h)
    ensures PipeOk(After(p, ch, h), ch)
  {
    match h {
      case Acts(side, a) => ActsKeeps(p, ch, side, a);
      case Arrives(to) => ArrivesKeeps(p, ch, to);
      case Relays(from, v) => RelaysKeeps(p, ch, from, v);
      case Forgets =>
    }
  }

  /** A channel whose Connect has just been sent. */
  function Opened(ch: Channel): Pipe {
    Pipe(Pair(FreshSocks, FreshNet), [Connect(ch)], [], [], [], [], [], false, false)
  }

  lemma OpenedOk(ch: Channel)
    ensures PipeOk(Opened(ch), ch)
  {
    assert [Connect(ch)][1..] == [];
    ControlOnly([Connect(ch)], ch);
  }
}
