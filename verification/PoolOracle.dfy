/** The pool's time-weighted average tick and how far back it can be asked for. */
module PoolOracle {
  import opened Ticks

  // --- the average ----------------------------------------------------------------------------

  /** Mean tick over a window from two cumulative sums: big-number division truncates, so a negative
      remainder takes one more off. */
  function TwapTick(cumOlder: int, cumNewer: int, windowSecs: int): int
    requires windowSecs > 0
  {
    var delta := cumNewer - cumOlder;
    var tick := TruncDiv(delta, windowSecs);
    if delta < 0 && delta % windowSecs != 0 then tick - 1 else tick
  }

  /** The pool's accumulator: the tick, once per second. */
  function Sum(ticks: seq<int>): int
  {
    if ticks == [] then 0 else Sum(ticks[..|ticks| - 1]) + ticks[|ticks| - 1]
  }

  /** The pool's tick history, one entry per second; the average over its last part. */
  function TwapOver(before: seq<int>, window: seq<int>): int
    requires window != []
  {
    TwapTick(Sum(before), Sum(before + window), |window|)
  }

  lemma {:induction false} SumConcat(a: seq<int>, b: seq<int>)
    ensures Sum(a + b) == Sum(a) + Sum(b)
  {
    if b == [] {
      assert a + b == a;
    } else {
      assert (a + b)[..|a + b| - 1] == a + b[..|b| - 1];
      SumConcat(a, b[..|b| - 1]);
    }
  }

  /** The corrected truncation is the floor. */
  lemma TwapIsFloor(cumOlder: int, cumNewer: int, windowSecs: int)
    requires windowSecs > 0
    ensures TwapTick(cumOlder, cumNewer, windowSecs) == (cumNewer - cumOlder) / windowSecs
  {
    var delta := cumNewer - cumOlder;
    if delta < 0 {
      var q, r := (-delta) / windowSecs, (-delta) % windowSecs;
      if r == 0 {
        EuclidUnique(delta, windowSecs, -q, 0);
      } else {
        assert windowSecs * (-q - 1) == -(windowSecs * q) - windowSecs;
        EuclidUnique(delta, windowSecs, -q - 1, windowSecs - r);
      }
    }
  }

  /** The floor of the mean of the window's own ticks, whatever came before it. */
  lemma TwapIsMeanOfWindow(before: seq<int>, window: seq<int>)
    requires window != []
    ensures TwapOver(before, window) == Sum(window) / |window|
  {
    SumConcat(before, window);
    FloorOfGain(Sum(before), Sum(before + window), |window|, Sum(window));
  }

  lemma FloorOfGain(cumOlder: int, cumNewer: int, windowSecs: int, gain: int)
    requires windowSecs > 0 && cumNewer == cumOlder + gain
    ensures TwapTick(cumOlder, cumNewer, windowSecs) == gain / windowSecs
  {
    TwapIsFloor(cumOlder, cumNewer, windowSecs);
  }

  lemma {:induction false} SumBetween(ticks: seq<int>, lo: int, hi: int)
    requires forall k :: 0 <= k < |ticks| ==> lo <= ticks[k] <= hi
    ensures lo * |ticks| <= Sum(ticks) <= hi * |ticks|
  {
    if ticks != [] { SumBetween(ticks[..|ticks| - 1], lo, hi); }
  }

  lemma QuotientAtMost(a: int, b: int, n: int)
    requires b > 0 && a <= b * n
    ensures a / b <= n
  {
    var d := a / b - n;
    assert b * d == b * (a / b) - b * n;
    MultipleBounds(b, d);
  }

  /** It lies between the least and the greatest tick of the window. */
  lemma TwapWithinWindow(before: seq<int>, window: seq<int>, lo: int, hi: int)
    requires window != []
    requires forall k :: 0 <= k < |window| ==> lo <= window[k] <= hi
    ensures lo <= TwapOver(before, window) <= hi
  {
    TwapIsMeanOfWindow(before, window);
    SumBetween(window, lo, hi);
    QuotientAtLeast(Sum(window), |window|, lo);
    QuotientAtMost(Sum(window), |window|, hi);
  }

  /** Seconds on which two histories disagree. */
  function Disagreements(a: seq<int>, b: seq<int>): nat
    requires |a| == |b|
  {
    if a == [] then 0
    else Disagreements(a[..|a| - 1], b[..|b| - 1]) + if a[|a| - 1] == b[|b| - 1] then 0 else 1
  }

  lemma {:induction false} SumShift(a: seq<int>, b: seq<int>, most: nat)
    requires |a| == |b|
    requires forall k :: 0 <= k < |a| ==> Abs(a[k] - b[k]) <= most
    ensures Abs(Sum(a) - Sum(b)) <= most * Disagreements(a, b)
  {
    if a != [] {
      SumShift(a[..|a| - 1], b[..|b| - 1], most);
      var n := Disagreements(a[..|a| - 1], b[..|b| - 1]);
      assert most * (n + 1) == most * n + most;
    }
  }

  function CeilDiv(a: nat, b: nat): nat
    requires b > 0
  {
    (a + b - 1) / b
  }

  /** What moving the price can buy: pushing the tick by at most `most` for at most `secs` seconds of
      the window moves the average by at most that product over the window, rounded up. */
  lemma DisplacementIsBounded(before: seq<int>, a: seq<int>, b: seq<int>, most: nat, secs: nat)
    requires |a| == |b| && a != []
    requires forall k :: 0 <= k < |a| ==> Abs(a[k] - b[k]) <= most
    requires Disagreements(a, b) <= secs
    ensures Abs(TwapOver(before, a) - TwapOver(before, b)) <= CeilDiv(most * secs, |a|)
  {
    SumShift(a, b, most);
    ProductMonotone(most, Disagreements(a, b), secs);
    SumsApart(before, a, b, most * secs);
  }

  lemma SumsApart(before: seq<int>, a: seq<int>, b: seq<int>, gap: nat)
    requires |a| == |b| && a != [] && Abs(Sum(a) - Sum(b)) <= gap
    ensures Abs(TwapOver(before, a) - TwapOver(before, b)) <= CeilDiv(gap, |a|)
  {
    TwapIsMeanOfWindow(before, a);
    TwapIsMeanOfWindow(before, b);
    MeansApart(Sum(a), Sum(b), |a|, gap);
  }

  lemma ProductMonotone(a: nat, x: nat, y: nat)
    requires x <= y
    ensures a * x <= a * y
  {
    assert a * (y - x) >= 0;
  }

  lemma MeansApart(x: int, y: int, w: int, gap: nat)
    requires w > 0 && Abs(x - y) <= gap
    ensures Abs(x / w - y / w) <= CeilDiv(gap, w)
  {
    if x >= y { FloorsApart(y, x, w, gap); } else { FloorsApart(x, y, w, gap); }
  }

  lemma FloorsApart(x: int, y: int, w: int, gap: nat)
    requires w > 0 && x <= y <= x + gap
    ensures 0 <= y / w - x / w <= CeilDiv(gap, w)
  {
    var c := CeilDiv(gap, w);
    QuotientAtLeast(y, w, x / w);
    assert w * c >= gap;
    assert y <= w * (x / w + c) + (w - 1) by {
      assert x == w * (x / w) + x % w;
      assert w * (x / w + c) == w * (x / w) + w * c;
    }
    var d := y / w - (x / w + c);
    assert w * d == w * (y / w) - w * (x / w + c);
    MultipleBounds(w, d);
  }

  // --- the observation ring -----------------------------------------------------------------------

  datatype Observation = Observation(ts: int, initialized: bool)

  datatype Ring = Ring(slots: seq<Observation>, index: nat, cardinality: nat)

  function Initialise(ts: int): Ring
  {
    Ring([Observation(ts, true)], 0, 1)
  }

  /** Room for more observations: reserved at once, used only when the ring next comes round. */
  function Grow(r: Ring, size: nat): Ring
  {
    if size <= |r.slots| then r
    else r.(slots := r.slots + seq(size - |r.slots|, _ => Observation(1, false)))
  }

  function Write(r: Ring, ts: int): Ring
    requires r.index < r.cardinality <= |r.slots|
  {
    if r.slots[r.index].ts == ts then r
    else
      var cardinality := if |r.slots| > r.cardinality && r.index == r.cardinality - 1 then |r.slots| else r.cardinality;
      var index := (r.index + 1) % cardinality;
      Ring(r.slots[index := Observation(ts, true)], index, cardinality)
  }

  /** The observation the keeper takes for the oldest. */
  function OldestSlot(r: Ring): Observation
    requires r.index < r.cardinality <= |r.slots|
  {
    var next := r.slots[(r.index + 1) % r.cardinality];
    if next.initialized then next else r.slots[0]
  }

  function OldestAgeSecs(r: Ring, now: int): int
    requires r.index < r.cardinality <= |r.slots|
  {
    var age := now - OldestSlot(r).ts;
    if age > 0 then age else 0
  }

  datatype RingEvent = Grown(size: nat) | Wrote(ts: int)

  /** Block times never go back. */
  predicate InOrder(r: Ring, e: RingEvent)
    requires r.index < |r.slots|
  {
    e.Wrote? ==> e.ts >= r.slots[r.index].ts
  }

  function StepRing(r: Ring, e: RingEvent): Ring
    requires r.index < r.cardinality <= |r.slots|
  {
    match e
    case Grown(size) => Grow(r, size)
    case Wrote(ts) => Write(r, ts)
  }

  /** Written slots form a prefix, up to the newest or the whole round, and go round in time order:
      oldest just after the newest. */
  predicate Ordered(r: Ring)
  {
    && r.index < r.cardinality <= |r.slots|
    && (forall i :: 0 <= i <= r.index ==> r.slots[i].initialized)
    && (|| (forall i :: r.index < i < |r.slots| ==> !r.slots[i].initialized)
        || ((forall i :: 0 <= i < r.cardinality ==> r.slots[i].initialized)
            && (forall i :: r.cardinality <= i < |r.slots| ==> !r.slots[i].initialized)))
    && (forall i, j :: 0 <= i < j <= r.index ==> r.slots[i].ts < r.slots[j].ts)
    && (forall i, j :: r.index < i < j < |r.slots| && r.slots[i].initialized && r.slots[j].initialized ==>
          r.slots[i].ts < r.slots[j].ts)
    && (forall i, j :: 0 <= i <= r.index < j < |r.slots| && r.slots[j].initialized ==> r.slots[j].ts < r.slots[i].ts)
  }

  lemma GrowKeepsOrder(r: Ring, size: nat)
    requires Ordered(r)
    ensures Ordered(Grow(r, size))
  {
    var g := Grow(r, size);
    assert forall i :: 0 <= i < |r.slots| ==> g.slots[i] == r.slots[i];
    assert forall i :: |r.slots| <= i < |g.slots| ==> !g.slots[i].initialized;
  }

  lemma WriteKeepsOrder(r: Ring, ts: int)
    requires Ordered(r) && ts >= r.slots[r.index].ts
    ensures Ordered(Write(r, ts))
  {
    if r.slots[r.index].ts != ts {
      WriteGoesRound(r, ts);
      if r.index + 1 < Room(r) { NextSlotKeepsOrder(r, ts); } else { FirstSlotKeepsOrder(r, ts); }
    }
  }

  /** The slots a write may use: a ring that has come round takes in what was reserved. */
  function Room(r: Ring): nat
  {
    if |r.slots| > r.cardinality && r.index == r.cardinality - 1 then |r.slots| else r.cardinality
  }

  lemma WriteGoesRound(r: Ring, ts: int)
    requires r.index < r.cardinality <= |r.slots| && r.slots[r.index].ts != ts
    ensures r.index + 1 < Room(r) ==>
      Write(r, ts) == Ring(r.slots[r.index + 1 := Observation(ts, true)], r.index + 1, Room(r))
    ensures r.index + 1 >= Room(r) ==>
      && r.index + 1 == r.cardinality == |r.slots|
      && Write(r, ts) == Ring(r.slots[0 := Observation(ts, true)], 0, r.cardinality)
  {
    if r.index + 1 < Room(r) {
      EuclidUnique(r.index + 1, Room(r), 0, r.index + 1);
    } else {
      EuclidUnique(r.index + 1, Room(r), 1, 0);
    }
  }

  lemma NextSlotKeepsOrder(r: Ring, ts: int)
    requires Ordered(r) && ts > r.slots[r.index].ts && r.index + 1 < Room(r)
    ensures Ordered(Ring(r.slots[r.index + 1 := Observation(ts, true)], r.index + 1, Room(r)))
  {
    NewestIsNewest(r);
    var slots := r.slots[r.index + 1 := Observation(ts, true)];
    assert forall i :: 0 <= i < |r.slots| && i != r.index + 1 ==> slots[i] == r.slots[i];
  }

  lemma FirstSlotKeepsOrder(r: Ring, ts: int)
    requires Ordered(r) && ts > r.slots[r.index].ts && r.index + 1 == r.cardinality == |r.slots|
    ensures Ordered(Ring(r.slots[0 := Observation(ts, true)], 0, r.cardinality))
  {
    NewestIsNewest(r);
    var slots := r.slots[0 := Observation(ts, true)];
    assert forall i :: 0 < i < |r.slots| ==> slots[i] == r.slots[i];
  }

  lemma NewestIsNewest(r: Ring)
    requires Ordered(r)
    ensures forall i :: 0 <= i < |r.slots| && r.slots[i].initialized ==> r.slots[i].ts <= r.slots[r.index].ts
  {
  }

  function RunRing(startTs: int, h: seq<RingEvent>): Ring
    ensures RunRing(startTs, h).index < RunRing(startTs, h).cardinality <= |RunRing(startTs, h).slots|
  {
    if h == [] then Initialise(startTs) else StepRing(RunRing(startTs, h[..|h| - 1]), h[|h| - 1])
  }

  predicate InOrderRun(startTs: int, h: seq<RingEvent>)
  {
    h == [] || (InOrderRun(startTs, h[..|h| - 1]) && InOrder(RunRing(startTs, h[..|h| - 1]), h[|h| - 1]))
  }

  lemma {:induction false} EveryRingIsOrdered(startTs: int, h: seq<RingEvent>)
    requires InOrderRun(startTs, h)
    ensures Ordered(RunRing(startTs, h))
  {
    if h != [] {
      EveryRingIsOrdered(startTs, h[..|h| - 1]);
      match h[|h| - 1]
      case Grown(size) => GrowKeepsOrder(RunRing(startTs, h[..|h| - 1]), size);
      case Wrote(ts) => WriteKeepsOrder(RunRing(startTs, h[..|h| - 1]), ts);
    }
  }

  /** Reserving keeps what there is and adds unwritten slots up to the size asked, never fewer than there were. */
  lemma GrowReserves(r: Ring, size: nat)
    ensures var g := Grow(r, size);
      && |g.slots| == (if size > |r.slots| then size else |r.slots|)
      && g.slots[..|r.slots|] == r.slots
      && (forall k :: |r.slots| <= k < |g.slots| ==> !g.slots[k].initialized)
      && g.index == r.index && g.cardinality == r.cardinality
  {
  }

  /** A write at a later time goes into the next slot of the round and leaves every other alone; one in the same
      second changes nothing. */
  lemma WriteMovesOn(r: Ring, ts: int)
    requires Ordered(r) && ts >= r.slots[r.index].ts
    ensures var w := Write(r, ts);
      && (ts == r.slots[r.index].ts ==> w == r)
      && (ts > r.slots[r.index].ts ==>
            && w.index == (if r.index + 1 < w.cardinality then r.index + 1 else 0)
            && w.cardinality == (if r.index + 1 == r.cardinality then |r.slots| else r.cardinality)
            && |w.slots| == |r.slots| && w.slots[w.index] == Observation(ts, true)
            && forall k :: 0 <= k < |r.slots| && k != w.index ==> w.slots[k] == r.slots[k])
  {
    if ts > r.slots[r.index].ts { WriteGoesRound(r, ts); }
  }

  /** The age is that of the oldest, and never negative. */
  lemma AgeIsSinceOldest(r: Ring, now: int)
    requires Ordered(r)
    ensures OldestAgeSecs(r, now) >= 0
    ensures OldestSlot(r).ts <= now ==> OldestAgeSecs(r, now) == now - OldestSlot(r).ts
    ensures OldestSlot(r).ts > now ==> OldestAgeSecs(r, now) == 0
  {
  }

  /** For every reachable ring: the slot after the newest, or the first slot when that one was never
      written, is written and is the oldest of all that are. */
  lemma OldestIsOldest(startTs: int, h: seq<RingEvent>)
    requires InOrderRun(startTs, h)
    ensures var r := RunRing(startTs, h);
      && OldestSlot(r).initialized
      && OldestSlot(r) in r.slots
      && forall i :: 0 <= i < |r.slots| && r.slots[i].initialized ==> OldestSlot(r).ts <= r.slots[i].ts
  {
    EveryRingIsOrdered(startTs, h);
    OldestOfOrdered(RunRing(startTs, h));
  }

  lemma OldestOfOrdered(r: Ring)
    requires Ordered(r)
    ensures OldestSlot(r).initialized && OldestSlot(r) in r.slots
    ensures forall i :: 0 <= i < |r.slots| && r.slots[i].initialized ==> OldestSlot(r).ts <= r.slots[i].ts
  {
    if r.index + 1 < r.cardinality {
      EuclidUnique(r.index + 1, r.cardinality, 0, r.index + 1);
    } else {
      EuclidUnique(r.index + 1, r.cardinality, 1, 0);
    }
  }

  /** The pool answers for a window when some stored observation is at least that old. */
  predicate CanObserve(r: Ring, chainNow: int, windowSecs: int)
  {
    exists i :: 0 <= i < |r.slots| && r.slots[i].initialized && r.slots[i].ts <= chainNow - windowSecs
  }

  /** Clamping the window to the oldest observation's age makes it answerable, as long as the pool is
      asked no earlier than the moment the age was measured at. */
  lemma ClampedWindowIsAnswerable(startTs: int, h: seq<RingEvent>, now: int, chainNow: int, wanted: int)
    requires InOrderRun(startTs, h) && now <= chainNow
    ensures var r := RunRing(startTs, h);
      var window := if wanted < OldestAgeSecs(r, now) then wanted else OldestAgeSecs(r, now);
      window > 0 ==> CanObserve(r, chainNow, window)
  {
    OldestIsOldest(startTs, h);
    var r := RunRing(startTs, h);
    var i: int :| 0 <= i < |r.slots| && r.slots[i] == OldestSlot(r);
  }

  /** And it is not clamped further than it has to be: one second more than the age is refused. */
  lemma ClampIsTight(startTs: int, h: seq<RingEvent>, now: int, windowSecs: int)
    requires InOrderRun(startTs, h)
    ensures windowSecs > OldestAgeSecs(RunRing(startTs, h), now) ==> !CanObserve(RunRing(startTs, h), now, windowSecs)
  {
    OldestIsOldest(startTs, h);
  }
}
