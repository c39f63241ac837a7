/** The log lines a poll brings that the poll before had not: both are windows on one growing stream,
    and the new window is matched against the end of the old one. */
module LogTail {
  /** Up to position `p` the new window reads like the end of the old one, as far back as both go. */
  predicate Matches(prev: seq<string>, next: seq<string>, p: nat)
    requires p < |next| && prev != []
  {
    forall k :: 1 <= k <= Overlap(prev, p) ==> Agrees(prev, next, p, k)
  }

  /** The k-th line back from the match and from the old window's end. */
  predicate Agrees(prev: seq<string>, next: seq<string>, p: nat, k: nat)
    requires p < |next| && 1 <= k <= Overlap(prev, p)
  {
    next[p - k + 1] == prev[|prev| - k]
  }

  function Overlap(prev: seq<string>, p: nat): nat
  {
    if p + 1 < |prev| then p + 1 else |prev|
  }

  ghost predicate IsLatest(prev: seq<string>, next: seq<string>, p: int)
  {
    && 0 <= p < |next| && prev != [] && Matches(prev, next, p)
    && forall q: nat :: p < q < |next| ==> !Matches(prev, next, q)
  }

  /** Everything after the latest match; everything when there is none. */
  ghost predicate IsNews(prev: seq<string>, next: seq<string>, news: seq<string>)
  {
    if prev != [] && exists p :: IsLatest(prev, next, p)
    then exists p :: IsLatest(prev, next, p) && news == next[p + 1..]
    else news == next
  }

  /** The two nested loops: the latest match decides, and without one everything is new. */
  method NewLines(prev: seq<string>, next: seq<string>) returns (news: seq<string>)
    ensures IsNews(prev, next, news)
  {
    if prev == [] { return next; }
    var last := prev[|prev| - 1];
    var p := |next| - 1;
    while p >= 0
      invariant -1 <= p < |next|
      invariant forall q: nat :: p < q < |next| ==> !Matches(prev, next, q)
    {
      if next[p] == last {
        var m := if p + 1 < |prev| then p + 1 else |prev|;
        var ok := true;
        var k := 1;
        while k <= m && ok
          invariant 1 <= k <= m + 1
          invariant ok ==> forall j :: 1 <= j < k ==> Agrees(prev, next, p, j)
          invariant !ok ==> !Matches(prev, next, p)
          decreases m + 1 - k, ok
        {
          if next[p - k + 1] != prev[|prev| - k] {
            assert !Agrees(prev, next, p, k);
            ok := false;
          } else {
            k := k + 1;
          }
        }
        if ok {
          assert IsLatest(prev, next, p);
          return next[p + 1..];
        }
      } else {
        assert !Agrees(prev, next, p, 1);
      }
      p := p - 1;
    }
    return next;
  }

  /** The line a poll should have been able to resume from: two windows on one stream that overlap. */
  predicate Windows(stream: seq<string>, a: nat, b: nat, c: nat, d: nat)
  {
    a <= c < b <= d <= |stream|
  }

  lemma OverlapMatches(stream: seq<string>, a: nat, b: nat, c: nat, d: nat)
    requires Windows(stream, a, b, c, d)
    ensures Matches(stream[a..b], stream[c..d], b - 1 - c)
  {
    var prev, next, p := stream[a..b], stream[c..d], b - 1 - c;
    forall k | 1 <= k <= Overlap(prev, p) ensures Agrees(prev, next, p, k) {
      assert next[p - k + 1] == stream[b - k] && prev[(b - a) - k] == stream[b - k];
    }
  }

  /** What is taken as new never reaches back over a line already taken; it is all of the new lines
      exactly when no later stretch of the window happens to read like the old window's end. */
  lemma NewsIsExactly(stream: seq<string>, a: nat, b: nat, c: nat, d: nat, p: int)
    requires Windows(stream, a, b, c, d) && IsLatest(stream[a..b], stream[c..d], p)
    ensures b - 1 - c <= p
    ensures stream[c..d][p + 1..] == stream[c + p + 1..d]
    ensures stream[c + p + 1..d] == stream[b..d]
      <==> (forall q: nat :: b - 1 - c < q < d - c ==> !Matches(stream[a..b], stream[c..d], q))
  {
    OverlapMatches(stream, a, b, c, d);
    if stream[c + p + 1..d] == stream[b..d] {
      assert |stream[c + p + 1..d]| == |stream[b..d]|;
    }
  }

  predicate NoLineTwice(stream: seq<string>)
  {
    forall i, j :: 0 <= i < j < |stream| ==> stream[i] != stream[j]
  }

  /** With no line twice, the match is where the old window ended. */
  lemma DistinctLinesMatchOnce(stream: seq<string>, a: nat, b: nat, c: nat, d: nat, p: nat)
    requires Windows(stream, a, b, c, d) && NoLineTwice(stream) && p < d - c
    ensures Matches(stream[a..b], stream[c..d], p) <==> p == b - 1 - c
  {
    if p == b - 1 - c {
      OverlapMatches(stream, a, b, c, d);
    } else {
      assert stream[c..d][p] == stream[c + p] && stream[a..b][(b - a) - 1] == stream[b - 1];
      assert !Agrees(stream[a..b], stream[c..d], p, 1);
    }
  }

  // --- over a run of polls -------------------------------------------------------------------

  datatype Poll = Poll(from: nat, to: nat)

  /** Polls of a stream: each window overlaps the one before and reaches at least as far. */
  predicate Successive(stream: seq<string>, polls: seq<Poll>)
  {
    && (forall i :: 0 <= i < |polls| ==> polls[i].from < polls[i].to <= |stream| && polls[0].from < polls[i].to)
    && (forall i :: 0 < i < |polls| ==>
          Windows(stream, polls[i - 1].from, polls[i - 1].to, polls[i].from, polls[i].to))
  }

  class LineTable {
    var lastLines: seq<string>
    var rows: seq<string>

    constructor ()
      ensures lastLines == [] && rows == []
    {
      lastLines, rows := [], [];
    }

    /** One poll's ring, taken in; with no line twice it adds exactly what the stream gained. */
    method IngestLines(stream: seq<string>, a: nat, b: nat, c: nat, d: nat)
      requires NoLineTwice(stream) && c < d <= |stream|
      requires lastLines == [] || (Windows(stream, a, b, c, d) && lastLines == stream[a..b])
      modifies this
      ensures lastLines == stream[c..d]
      ensures rows == old(rows) + (if old(lastLines) == [] then stream[c..d] else stream[b..d])
    {
      var ring := stream[c..d];
      var news := NewLines(lastLines, ring);
      if lastLines != [] {
        OnlyOneMatch(stream, a, b, c, d, news);
      }
      lastLines := ring;
      rows := rows + news;
    }
  }

  lemma OnlyOneMatch(stream: seq<string>, a: nat, b: nat, c: nat, d: nat, news: seq<string>)
    requires Windows(stream, a, b, c, d) && NoLineTwice(stream)
    requires IsNews(stream[a..b], stream[c..d], news)
    ensures news == stream[b..d]
  {
    forall q: nat | q < d - c ensures Matches(stream[a..b], stream[c..d], q) <==> q == b - 1 - c {
      DistinctLinesMatchOnce(stream, a, b, c, d, q);
    }
    assert IsLatest(stream[a..b], stream[c..d], b - 1 - c);
    NewsIsExactly(stream, a, b, c, d, b - 1 - c);
  }

  /** Over any run of overlapping polls of a stream with no line twice, the table holds the stream from
      the first window's start, once and in order. */
  method IngestAll(stream: seq<string>, polls: seq<Poll>) returns (rows: seq<string>)
    requires NoLineTwice(stream) && Successive(stream, polls)
    ensures rows == if polls == [] then [] else stream[polls[0].from..polls[|polls| - 1].to]
  {
    var table := new LineTable();
    for i := 0 to |polls|
      invariant table.lastLines == if i == 0 then [] else stream[polls[i - 1].from..polls[i - 1].to]
      invariant table.rows == if i == 0 then [] else stream[polls[0].from..polls[i - 1].to]
      invariant i > 0 ==> polls[0].from < polls[i - 1].to
      invariant fresh(table)
    {
      var last := if i == 0 then Poll(0, 0) else polls[i - 1];
      table.IngestLines(stream, last.from, last.to, polls[i].from, polls[i].to);
    }
    rows := table.rows;
  }
}
