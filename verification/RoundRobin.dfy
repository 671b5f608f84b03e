/** The scheduler that spreads requests over the connections of a token: one index per token,
    advanced modulo the current number of connections. */
module RoundRobin {

  /** The index stored by a pick from a list of n, whatever (even stale) index was stored before. */
  function Advance(index: nat, n: nat): (next: nat)
    requires n > 0
    ensures next < n
  {
    (index + 1) % n
  }

  // ---------------------------------------------------------------- balance

  /** The positions chosen by k picks in a row from a fixed list of n. */
  function Picks(index: nat, n: nat, k: nat): (r: seq<nat>)
    requires n > 0
    ensures |r| == k
    decreases k
  {
    if k == 0 then [] else [Advance(index, n)] + Picks(Advance(index, n), n, k - 1)
  }

  function Times(s: seq<nat>, j: nat): nat {
    if s == [] then 0 else (if s[0] == j then 1 else 0) + Times(s[1..], j)
  }

  /** How many picks from now client j is chosen for the first time. */
  function Wait(index: nat, n: nat, j: nat): (d: nat)
    requires j < n
    ensures d < n
  {
    var first := Advance(index, n);
    if first <= j then j - first else n - first + j
  }

  lemma NextIndex(index: nat, n: nat)
    requires index < n
    ensures Advance(index, n) == if index + 1 == n then 0 else index + 1
  {
  }

  lemma WaitShrinks(index: nat, n: nat, j: nat)
    requires j < n
    ensures Wait(index, n, j) == 0 <==> Advance(index, n) == j
    ensures Wait(Advance(index, n), n, j) == if Wait(index, n, j) == 0 then n - 1 else Wait(index, n, j) - 1
  {
    NextIndex(Advance(index, n), n);
  }

  /** Client j is chosen once every n picks, the first time after its wait. */
  lemma {:induction false} TimesExactly(index: nat, n: nat, k: nat, j: nat)
    requires j < n
    ensures Times(Picks(index, n, k), j) == (k + n - 1 - Wait(index, n, j)) / n
    decreases k
  {
    var d := Wait(index, n, j);
    if k == 0 {
      DivBetween(n - 1 - d, n, 0);
    } else {
      WaitShrinks(index, n, j);
      TimesExactly(Advance(index, n), n, k - 1, j);
      assert Picks(index, n, k)[1..] == Picks(Advance(index, n), n, k - 1);
      if d == 0 {
        assert k + n - 1 == (k - 1) + n;
        DivStep(k - 1, n);
      }
    }
  }

  lemma MulAtLeast(n: nat, d: int)
    requires d >= 1
    ensures n * d >= n
  {
  }

  lemma SmallMultiple(n: nat, d: int)
    requires n * d < n
    ensures d < 1
  {
    if d >= 1 { MulAtLeast(n, d); }
  }

  lemma DivBetween(a: nat, n: nat, q: nat)
    requires n > 0 && q * n <= a < (q + 1) * n
    ensures a / n == q
  {
    var w := a / n;
    assert a == n * w + a % n;
    assert n * (w - q) == n * w - n * q && n * (q - w) == n * q - n * w;
    SmallMultiple(n, w - q);
    SmallMultiple(n, q - w);
  }

  lemma DivStep(a: nat, n: nat)
    requires n > 0
    ensures (a + n) / n == a / n + 1
  {
    var q := a / n;
    assert a == n * q + a % n;
    assert q * n <= a < (q + 1) * n;
    assert (q + 1) * n == q * n + n && (q + 1 + 1) * n == (q + 1) * n + n;
    DivBetween(a + n, n, q + 1);
  }

  lemma DivMonotone(a: nat, b: nat, n: nat)
    requires n > 0 && a <= b
    ensures a / n <= b / n
  {
    var v, w := a / n, b / n;
    assert a == n * v + a % n && b == n * w + b % n;
    assert n * (v - w) == n * v - n * w;
    SmallMultiple(n, v - w);
  }

  /** Balance: of any k consecutive picks, from any starting index, every client gets k/n rounded
      down or up. */
  lemma Balance(index: nat, n: nat, k: nat, j: nat)
    requires j < n
    ensures k / n <= Times(Picks(index, n, k), j) <= (k + n - 1) / n
  {
    TimesExactly(index, n, k, j);
    DivMonotone(k, k + n - 1 - Wait(index, n, j), n);
    DivMonotone(k + n - 1 - Wait(index, n, j), k + n - 1, n);
  }

  // ---------------------------------------------------------------- bounded waiting

  /** Connections join at the end of the list while requests are being scheduled. */
  datatype Event = Pick | Join

  /** The stored index and the length of the list after a run of events. */
  function After(index: nat, n: nat, events: seq<Event>): (nat, nat)
    requires n > 0
    decreases |events|
  {
    if events == [] then (index, n)
    else if events[0] == Pick then After(Advance(index, n), n, events[1..])
    else After(index, n + 1, events[1..])
  }

  /** Some pick of the run chooses position p. */
  predicate Chosen(index: nat, n: nat, events: seq<Event>, p: nat)
    requires n > 0
    decreases |events|
  {
    events != [] &&
    if events[0] == Pick then Advance(index, n) == p || Chosen(Advance(index, n), n, events[1..], p)
    else Chosen(index, n + 1, events[1..], p)
  }

  lemma ChosenStep(index: nat, n: nat, rest: seq<Event>, p: nat)
    requires n > 0
    ensures Chosen(index, n, [Pick] + rest, p) <==> Advance(index, n) == p || Chosen(Advance(index, n), n, rest, p)
    ensures Chosen(index, n, [Join] + rest, p) <==> Chosen(index, n + 1, rest, p)
  {
    assert ([Pick] + rest)[1..] == rest && ([Join] + rest)[1..] == rest;
  }

  function Count(events: seq<Event>, e: Event): nat {
    if events == [] then 0 else (if events[0] == e then 1 else 0) + Count(events[1..], e)
  }

  /** An upper bound on the picks until p is chosen when nobody joins any more. */
  function Distance(index: nat, n: nat, p: nat): (d: nat)
    requires p < n
    ensures 0 < d <= n
  {
    if index < p then p - index else if index < n then n - index + p else n
  }

  lemma PickApproaches(index: nat, n: nat, p: nat)
    requires p < n && Advance(index, n) != p
    ensures Distance(Advance(index, n), n, p) < Distance(index, n, p)
  {
    if index + 1 < n {
      assert Advance(index, n) == index + 1;
    }
  }

  lemma {:induction false} DistanceBounds(index: nat, n: nat, events: seq<Event>, p: nat)
    requires p < n && !Chosen(index, n, events, p)
    ensures Count(events, Pick) < Distance(index, n, p) + Count(events, Join)
    decreases |events|
  {
    if events != [] {
      if events[0] == Pick {
        PickApproaches(index, n, p);
        DistanceBounds(Advance(index, n), n, events[1..], p);
      } else {
        DistanceBounds(index, n + 1, events[1..], p);
      }
    }
  }

  /** Bounded waiting: a client registered when there were n is chosen within n picks and one more
      for every connection that joins meanwhile, from any index, in range or stale. */
  lemma BoundedWaiting(index: nat, n: nat, events: seq<Event>, p: nat)
    requires p < n && Count(events, Pick) >= n + Count(events, Join)
    ensures Chosen(index, n, events, p)
  {
    if !Chosen(index, n, events, p) {
      DistanceBounds(index, n, events, p);
    }
  }

  // ---------------------------------------------------------------- joins that reset the index

  /** As Chosen, when every join sends the index back to 0. */
  predicate ChosenDespite(index: nat, n: nat, events: seq<Event>, p: nat)
    requires n > 0
    decreases |events|
  {
    events != [] &&
    if events[0] == Pick then Advance(index, n) == p || ChosenDespite(Advance(index, n), n, events[1..], p)
    else ChosenDespite(0, n + 1, events[1..], p)
  }

  lemma ChosenDespiteStep(index: nat, n: nat, rest: seq<Event>, p: nat)
    requires n > 0
    ensures ChosenDespite(index, n, [Pick] + rest, p)
            <==> Advance(index, n) == p || ChosenDespite(Advance(index, n), n, rest, p)
    ensures ChosenDespite(index, n, [Join] + rest, p) <==> ChosenDespite(0, n + 1, rest, p)
  {
    assert ([Pick] + rest)[1..] == rest && ([Join] + rest)[1..] == rest;
  }

  /** k picks in a row from position a on, at the start or right behind a join. */
  predicate Stretch(events: seq<Event>, a: nat, k: nat) {
    && a + k <= |events| && (forall i | a <= i < a + k :: events[i] == Pick)
    && (a == 0 || events[a - 1] == Join)
  }

  /** ... long enough for position p to be reached. */
  predicate LongEnough(index: nat, n: nat, events: seq<Event>, p: nat, a: nat, k: nat)
    requires p < n
  {
    Stretch(events, a, k) && k > Wait(if a == 0 then index else 0, n + Count(events[..a], Join), p)
  }

  lemma ShiftStretch(events: seq<Event>, a: nat, k: nat)
    requires events != [] && a > 0 && Stretch(events, a, k) && (a > 1 || events[0] == Join)
    ensures Stretch(events[1..], a - 1, k)
    ensures Count(events[..a], Join) == (if events[0] == Join then 1 else 0) + Count(events[1..][..a - 1], Join)
  {
    assert events[..a][1..] == events[1..][..a - 1];
  }

  lemma {:induction false} LongEnoughChosen(index: nat, n: nat, events: seq<Event>, p: nat, a: nat, k: nat)
    requires p < n && LongEnough(index, n, events, p, a, k)
    ensures ChosenDespite(index, n, events, p)
    decreases |events|
  {
    if a == 0 {
      assert events[..0] == [];
      assert events[0] == Pick;
      WaitShrinks(index, n, p);
      if Advance(index, n) != p {
        assert events[1..][..0] == [] && forall i | 0 <= i < k - 1 :: events[1..][i] == events[i + 1];
        LongEnoughChosen(Advance(index, n), n, events[1..], p, 0, k - 1);
      }
    } else {
      ShiftStretch(events, a, k);
      if events[0] == Pick {
        LongEnoughChosen(Advance(index, n), n, events[1..], p, a - 1, k);
      } else {
        LongEnoughChosen(0, n + 1, events[1..], p, a - 1, k);
      }
    }
  }

  lemma {:induction false} ChosenLongEnough(index: nat, n: nat, events: seq<Event>, p: nat) returns (a: nat, k: nat)
    requires p < n && ChosenDespite(index, n, events, p)
    ensures LongEnough(index, n, events, p, a, k)
    decreases |events|
  {
    WaitShrinks(index, n, p);
    if events[0] == Pick && Advance(index, n) == p {
      a, k := 0, 1;
      assert events[..0] == [];
    } else {
      a, k := ChosenLongEnough(if events[0] == Pick then Advance(index, n) else 0,
                               if events[0] == Pick then n else n + 1, events[1..], p);
      assert forall i | 0 <= i < |events| - 1 :: events[1..][i] == events[i + 1];
      if a == 0 && events[0] == Pick {
        assert events[..0] == [] && events[1..][..0] == [];
        k := k + 1;
      } else {
        assert events[..a + 1][1..] == events[1..][..a];
        a := a + 1;
      }
    }
  }

  /** With such joins a position is chosen exactly when some stretch of picks between two of them is long
      enough to reach it: from the index stored before, or from 0 behind a join. */
  lemma ChosenDespiteExactly(index: nat, n: nat, events: seq<Event>, p: nat)
    requires p < n
    ensures ChosenDespite(index, n, events, p) <==> exists a, k :: LongEnough(index, n, events, p, a, k)
  {
    if ChosenDespite(index, n, events, p) {
      var a, k := ChosenLongEnough(index, n, events, p);
    }
    forall a, k | LongEnough(index, n, events, p, a, k) ensures ChosenDespite(index, n, events, p) {
      LongEnoughChosen(index, n, events, p, a, k);
    }
  }

  lemma OneMoreRound(joins: nat, m: nat)
    requires joins > 0
    ensures (joins - 1) * m + m == joins * m
  {
  }

  lemma {:induction false} DespiteBounds(index: nat, n: nat, events: seq<Event>, p: nat)
    requires p < n && !ChosenDespite(index, n, events, p)
    ensures Count(events, Pick) < Distance(index, n, p) + Count(events, Join) * (n + Count(events, Join))
    decreases |events|
  {
    if events != [] {
      if events[0] == Pick {
        PickApproaches(index, n, p);
        DespiteBounds(Advance(index, n), n, events[1..], p);
      } else {
        DespiteBounds(0, n + 1, events[1..], p);
        OneMoreRound(Count(events, Join), n + Count(events, Join));
      }
    }
  }

  /** The bound that remains: n picks, and for every join as many as there are connections in the end. */
  lemma BoundedDespite(index: nat, n: nat, events: seq<Event>, p: nat)
    requires p < n && Count(events, Pick) >= n + Count(events, Join) * (n + Count(events, Join))
    ensures ChosenDespite(index, n, events, p)
  {
    if !ChosenDespite(index, n, events, p) {
      DespiteBounds(index, n, events, p);
    }
  }
}
