/** The in-memory trail of feed prices, pruned to a window, against the log it stands for. */
module PriceTrail {
  import opened Wrappers

  datatype Sample = Sample(ts: int, price: real)

  // --- the unpruned log -----------------------------------------------------------

  /** A sample joins the log when its price is positive and it is not older than the newest one. */
  function Append(log: seq<Sample>, s: Sample): seq<Sample>
  {
    if s.price <= 0.0 || (log != [] && s.ts < log[|log| - 1].ts) then log else log + [s]
  }

  function FullLog(pushes: seq<Sample>): seq<Sample>
  {
    if pushes == [] then [] else Append(FullLog(pushes[..|pushes| - 1]), pushes[|pushes| - 1])
  }

  predicate TimeOrdered(log: seq<Sample>)
  {
    && (forall i, j :: 0 <= i <= j < |log| ==> log[i].ts <= log[j].ts)
    && (forall i :: 0 <= i < |log| ==> log[i].price > 0.0)
  }

  /** How many leading entries are at or before a time. */
  function CountUpTo(log: seq<Sample>, time: int): (n: nat)
    ensures n <= |log|
    ensures n > 0 ==> log[n - 1].ts <= time
    ensures n < |log| ==> log[n].ts > time
  {
    if log == [] || log[0].ts > time then 0 else 1 + CountUpTo(log[1..], time)
  }

  function DropOlder(log: seq<Sample>, cutoff: int): seq<Sample>
  {
    if log == [] || log[0].ts >= cutoff then log else DropOlder(log[1..], cutoff)
  }

  /** What is left of a log once everything older than the window before its newest entry is gone. */
  function Window(log: seq<Sample>, windowSecs: nat): seq<Sample>
  {
    if log == [] then [] else DropOlder(log, log[|log| - 1].ts - windowSecs)
  }

  /** The reference sample: the newest entry at or before a time. */
  function Reference(log: seq<Sample>, time: int): Option<Sample>
  {
    var n := CountUpTo(log, time);
    if n == 0 then None else Some(log[n - 1])
  }

  function MoveFrom(latest: real, ref: Option<Sample>): Option<real>
  {
    if ref.None? || ref.value.price <= 0.0 then None
    else
      var d := latest - ref.value.price;
      Some((if d < 0.0 then -d else d) / ref.value.price)
  }

  function RelativeMove(log: seq<Sample>, secs: int, now: int): Option<real>
  {
    if log == [] then None else MoveFrom(log[|log| - 1].price, Reference(log, now - secs))
  }

  /** Every positive price joins the log unless it is older than the newest one there. */
  lemma OnlyStaleOrEmptyIsDropped(log: seq<Sample>, s: Sample)
    ensures s.price > 0.0 && (log == [] || log[|log| - 1].ts <= s.ts) ==> Append(log, s) == log + [s]
    ensures s.price <= 0.0 || (log != [] && s.ts < log[|log| - 1].ts) ==> Append(log, s) == log
  {
  }

  /** A fall counts like a rise: a move is how far the newest price is from the reference, either way, as a share
      of the reference. */
  lemma MoveIsDistance(log: seq<Sample>, secs: int, now: int)
    ensures var ref := Reference(log, now - secs); var move := RelativeMove(log, secs, now);
      && (log != [] && ref.Some? && ref.value.price > 0.0 ==> move.Some?)
      && (move.Some? ==>
            && log != [] && ref.Some? && move.value >= 0.0
            && var apart := log[|log| - 1].price - ref.value.price;
               move.value * ref.value.price == (if apart < 0.0 then -apart else apart))
  {
    var ref := Reference(log, now - secs);
    if log != [] && ref.Some? && ref.value.price > 0.0 {
      var apart := log[|log| - 1].price - ref.value.price;
      ShareOf(if apart < 0.0 then -apart else apart, ref.value.price);
    }
  }

  lemma ShareOf(a: real, b: real)
    requires a >= 0.0 && b > 0.0
    ensures a / b >= 0.0 && (a / b) * b == a
  {
  }

  /** The reference is the newest sample that old: every later one is too recent. */
  lemma ReferenceIsNewest(log: seq<Sample>, time: int)
    requires TimeOrdered(log)
    ensures Reference(log, time).None? <==> forall k :: 0 <= k < |log| ==> log[k].ts > time
    ensures Reference(log, time).Some? ==>
      exists k :: 0 <= k < |log| && log[k] == Reference(log, time).value && log[k].ts <= time
               && forall j :: k < j < |log| ==> log[j].ts > time
  {
    var n := CountUpTo(log, time);
    if n > 0 { assert log[n - 1] == Reference(log, time).value; }
  }

  // --- the class --------------------------------------------------------------------

  class PriceHistory {
    const windowSecs: nat
    var samples: seq<Sample>

    ghost predicate Valid()
      reads this
    {
      TimeOrdered(samples) && Window(samples, windowSecs) == samples
    }

    constructor (windowSecs: nat)
      ensures Valid()
      ensures this.windowSecs == windowSecs && samples == []
    {
      this.windowSecs := windowSecs;
      samples := [];
    }

    method Push(ts: int, price: real)
      requires Valid()
      modifies this
      ensures Valid()
      ensures samples == Window(Append(old(samples), Sample(ts, price)), windowSecs)
    {
      if price <= 0.0 { return; }
      if samples != [] && ts < samples[|samples| - 1].ts { return; }
      samples := samples + [Sample(ts, price)];
      var cutoff := ts - windowSecs;
      ghost var all := samples;
      AppendKeepsOrder(old(samples), Sample(ts, price));
      while samples != [] && samples[0].ts < cutoff
        invariant samples != [] && samples[|samples| - 1].ts == ts && TimeOrdered(samples)
        invariant DropOlder(samples, cutoff) == DropOlder(all, cutoff)
      {
        samples := samples[1..];
      }
    }

    method MoveOver(secs: int, now: int) returns (move: Option<real>)
      requires Valid()
      ensures move == RelativeMove(samples, secs, now)
    {
      if samples == [] { return None; }
      var latest := samples[|samples| - 1];
      var target := now - secs;
      var ref: Option<Sample> := None;
      var i := 0;
      while i < |samples|
        invariant 0 <= i <= |samples|
        invariant forall j :: 0 <= j < i ==> samples[j].ts <= target
        invariant ref == if i == 0 then None else Some(samples[i - 1])
      {
        if samples[i].ts <= target { ref := Some(samples[i]); } else { break; }
        i := i + 1;
      }
      CountUpToIs(samples, target, i);
      if ref.None? || ref.value.price <= 0.0 { return None; }
      var d := latest.price - ref.value.price;
      return Some((if d < 0.0 then -d else d) / ref.value.price);
    }
  }

  function Pruned(pushes: seq<Sample>, windowSecs: nat): seq<Sample>
  {
    if pushes == [] then []
    else Window(Append(Pruned(pushes[..|pushes| - 1], windowSecs), pushes[|pushes| - 1]), windowSecs)
  }

  // --- the pruned trail refines the full log ----------------------------------------

  lemma {:induction false} CountUpToIs(log: seq<Sample>, time: int, k: nat)
    requires k <= |log|
    requires forall i :: 0 <= i < k ==> log[i].ts <= time
    requires k < |log| ==> log[k].ts > time
    ensures CountUpTo(log, time) == k
  {
    if k > 0 {
      CountUpToIs(log[1..], time, k - 1);
    }
  }

  lemma {:induction false} DropOlderIs(log: seq<Sample>, cutoff: int, k: nat)
    requires k <= |log|
    requires forall i :: 0 <= i < k ==> log[i].ts < cutoff
    requires k < |log| ==> log[k].ts >= cutoff
    ensures DropOlder(log, cutoff) == log[k..]
  {
    if k > 0 {
      DropOlderIs(log[1..], cutoff, k - 1);
      assert log[1..][k - 1..] == log[k..];
    }
  }

  /** Where the window of a log starts: everything before is too old, the first entry kept is not. */
  lemma {:induction false} DropOlderStart(log: seq<Sample>, cutoff: int) returns (k: nat)
    ensures k <= |log| && DropOlder(log, cutoff) == log[k..]
    ensures forall i :: 0 <= i < k ==> log[i].ts < cutoff
    ensures k < |log| ==> log[k].ts >= cutoff
  {
    if log == [] || log[0].ts >= cutoff {
      k := 0;
    } else {
      var j := DropOlderStart(log[1..], cutoff);
      k := j + 1;
      assert log[1..][j..] == log[k..];
      forall i | 0 <= i < k ensures log[i].ts < cutoff {
        if i > 0 { assert log[i] == log[1..][i - 1]; }
      }
    }
  }

  /** Appending to the window and pruning again is pruning the appended log. */
  lemma WindowAppend(log: seq<Sample>, windowSecs: nat, s: Sample)
    requires log != [] && s.ts >= log[|log| - 1].ts
    ensures Window(Window(log, windowSecs) + [s], windowSecs) == Window(log + [s], windowSecs)
  {
    DropOlderTwice(log, log[|log| - 1].ts - windowSecs, s, s.ts - windowSecs);
  }

  /** What a first cutoff dropped, a later one would have dropped too. */
  lemma {:induction false} DropOlderTwice(log: seq<Sample>, cutoff: int, s: Sample, later: int)
    requires cutoff <= later
    ensures DropOlder(DropOlder(log, cutoff) + [s], later) == DropOlder(log + [s], later)
  {
    if log != [] && log[0].ts < cutoff {
      assert (log + [s])[1..] == log[1..] + [s];
      DropOlderTwice(log[1..], cutoff, s, later);
    }
  }

  lemma WindowKeepsLast(log: seq<Sample>, windowSecs: nat)
    requires log != []
    ensures var w := Window(log, windowSecs);
      && w != [] && w[|w| - 1] == log[|log| - 1]
      && Window(w, windowSecs) == w
  {
    var k := DropOlderStart(log, log[|log| - 1].ts - windowSecs);
    DropOlderIs(log[k..], log[|log| - 1].ts - windowSecs, 0);
  }

  lemma {:induction false} FullLogOrdered(pushes: seq<Sample>)
    ensures TimeOrdered(FullLog(pushes))
  {
    if pushes != [] {
      FullLogOrdered(pushes[..|pushes| - 1]);
      AppendKeepsOrder(FullLog(pushes[..|pushes| - 1]), pushes[|pushes| - 1]);
    }
  }

  lemma AppendKeepsOrder(log: seq<Sample>, s: Sample)
    requires TimeOrdered(log)
    ensures TimeOrdered(Append(log, s))
  {
    var next := log + [s];
    assert forall i :: 0 <= i < |log| ==> next[i] == log[i];
  }

  /** For every sequence of pushes, in or out of order, the samples kept are exactly the window of
      the full log: nothing inside the window is lost and nothing outside it is kept. */
  lemma {:induction false} TrailIsWindow(pushes: seq<Sample>, windowSecs: nat)
    ensures Pruned(pushes, windowSecs) == Window(FullLog(pushes), windowSecs)
  {
    if pushes != [] {
      var log := FullLog(pushes[..|pushes| - 1]);
      TrailIsWindow(pushes[..|pushes| - 1], windowSecs);
      if log != [] {
        WindowKeepsLast(log, windowSecs);
        if Append(log, pushes[|pushes| - 1]) != log {
          WindowAppend(log, windowSecs, pushes[|pushes| - 1]);
        }
      }
    }
  }

  /** A reference looked up in a suffix is the one in the whole log, unless the suffix lost it. */
  lemma ReferenceInSuffix(log: seq<Sample>, k: nat, time: int)
    requires TimeOrdered(log) && k <= |log|
    ensures var n := CountUpTo(log, time);
      && Reference(log[k..], time) == (if n <= k then None else Reference(log, time))
      && (Reference(log, time).Some? ==> 0 < n && Reference(log, time) == Some(log[n - 1]))
  {
    var n := CountUpTo(log, time);
    if n <= k { CountUpToIs(log[k..], time, 0); } else { CountUpToIs(log[k..], time, n - k); }
  }

  lemma InWindow(log: seq<Sample>, k: nat, cutoff: int, n: nat)
    requires TimeOrdered(log) && 0 <= k < |log| && n <= |log|
    requires forall i :: 0 <= i < k ==> log[i].ts < cutoff
    requires log[k].ts >= cutoff
    ensures n > 0 ==> log[n - 1].price > 0.0 && (log[n - 1].ts < cutoff <==> n <= k)
  {
    if n > k { assert log[k].ts <= log[n - 1].ts; }
  }

  lemma MoveOnSuffix(log: seq<Sample>, k: nat, cutoff: int, secs: int, now: int)
    requires TimeOrdered(log) && 0 <= k < |log|
    requires forall i :: 0 <= i < k ==> log[i].ts < cutoff
    requires log[k].ts >= cutoff
    ensures var ref := Reference(log, now - secs);
      RelativeMove(log[k..], secs, now)
      == if ref.None? || ref.value.ts < cutoff then None else RelativeMove(log, secs, now)
    ensures RelativeMove(log, secs, now).None? <==> Reference(log, now - secs).None?
  {
    ReferenceInSuffix(log, k, now - secs);
    InWindow(log, k, cutoff, CountUpTo(log, now - secs));
    assert log[k..][|log| - k - 1] == log[|log| - 1];
  }

  /** A move over the trail is the move over the full log, or nothing; and it is nothing exactly when
      the full log has no sample that old, or that sample has left the window. */
  lemma MoveOverRefinesFullLog(pushes: seq<Sample>, windowSecs: nat, secs: int, now: int)
    ensures var log := FullLog(pushes);
      var ref := Reference(log, now - secs);
      var move := RelativeMove(Pruned(pushes, windowSecs), secs, now);
      && (move.None? <==> ref.None? || ref.value.ts < log[|log| - 1].ts - windowSecs)
      && (move.Some? ==> move == RelativeMove(log, secs, now))
  {
    var log := FullLog(pushes);
    TrailIsWindow(pushes, windowSecs);
    FullLogOrdered(pushes);
    if log != [] {
      var cutoff := log[|log| - 1].ts - windowSecs;
      var k := DropOlderStart(log, cutoff);
      MoveOnSuffix(log, k, cutoff, secs, now);
    }
  }
}
