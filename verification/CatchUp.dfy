/** How a dashboard that fell behind gets the rest: the keeper's bounded rings, the paged `/cycles`
    read with the client loop that drains it, and the event stream's resume point. */
module CatchUp {
  import opened Wrappers
  import opened Ingest

  const MAX_LIMIT := 500
  const SSE_REPLAY_MAX := 500
  const PAGES_MAX := 20

  // ------------------------------------------------------------------ the ring

  function Tail<T>(s: seq<T>, n: nat): seq<T>
  {
    if |s| <= n then s else s[|s| - n..]
  }

  class Ring<T> {
    const cap: nat
    var items: seq<T>

    constructor (cap: nat)
      ensures this.cap == cap && items == []
    {
      this.cap := cap;
      items := [];
    }

    method Push(t: T)
      modifies this
      ensures items == Tail(old(items) + [t], cap)
    {
      items := items + [t];
      if |items| > cap {
        items := items[|items| - cap..];
      }
    }
  }

  function Pushed<T>(cap: nat, ts: seq<T>): seq<T>
  {
    if ts == [] then [] else Tail(Pushed(cap, ts[..|ts| - 1]) + [ts[|ts| - 1]], cap)
  }

  /** Whatever has been pushed, a ring holds the latest of it, in order, as many as it has room for. */
  lemma {:induction false} RingHoldsTheTail<T>(cap: nat, ts: seq<T>)
    ensures Pushed(cap, ts) == Tail(ts, cap)
  {
    if ts != [] {
      RingHoldsTheTail(cap, ts[..|ts| - 1]);
      TailOfTail(cap, ts);
    }
  }

  lemma TailOfTail<T>(cap: nat, ts: seq<T>)
    requires ts != []
    ensures Tail(Tail(ts[..|ts| - 1], cap) + [ts[|ts| - 1]], cap) == Tail(ts, cap)
  {
    assert ts == ts[..|ts| - 1] + [ts[|ts| - 1]];
  }

  // ------------------------------------------------------------------ record numbers

  /** The numbers above `lo` up to `hi`. */
  function Numbers(lo: int, hi: int): seq<int>
    decreases hi - lo
  {
    if hi <= lo then [] else Numbers(lo, hi - 1) + [hi]
  }

  lemma {:induction false} NumbersAre(lo: int, hi: int)
    ensures |Numbers(lo, hi)| == Max(0, hi - lo)
    ensures forall k :: 0 <= k < |Numbers(lo, hi)| ==> Numbers(lo, hi)[k] == lo + 1 + k
    decreases hi - lo
  {
    if hi > lo { NumbersAre(lo, hi - 1); }
  }

  lemma {:induction false} NumbersJoin(lo: int, mid: int, hi: int)
    requires lo <= mid <= hi
    ensures Numbers(lo, mid) + Numbers(mid, hi) == Numbers(lo, hi)
    decreases hi - mid
  {
    if mid < hi {
      NumbersJoin(lo, mid, hi - 1);
      assert Numbers(lo, mid) + (Numbers(mid, hi - 1) + [hi]) == (Numbers(lo, mid) + Numbers(mid, hi - 1)) + [hi];
    }
  }

  lemma NumbersCut(lo: int, hi: int, from: nat, count: nat)
    requires from + count <= |Numbers(lo, hi)|
    ensures Numbers(lo, hi)[from..from + count] == Numbers(lo + from, lo + from + count)
  {
    NumbersAre(lo, hi);
    NumbersAre(lo + from, lo + from + count);
  }

  function RingFloor(cap: nat, head: nat): nat
  {
    if head > cap then head - cap else 0
  }

  /** A vault numbers its records from 1, so its ring holds the numbers up to the head without a gap. */
  lemma RecordRingIs(cap: nat, head: nat)
    ensures Pushed(cap, Numbers(0, head)) == Numbers(RingFloor(cap, head), head)
  {
    RingHoldsTheTail(cap, Numbers(0, head));
    NumbersAre(0, head);
    var floor := RingFloor(cap, head);
    NumbersCut(0, head, floor, head - floor);
  }

  // ------------------------------------------------------------------ one page

  /** Where a page starts reading: the cursor, or for a cursor past this boot's head the newest page. */
  function Since(cursor: nat, head: nat, limit: nat): nat
  {
    if cursor <= head then cursor else if head > limit then head - limit else 0
  }

  function PageFloor(cap: nat, head: nat, cursor: nat, limit: nat): nat
  {
    Max(Since(cursor, head, limit), RingFloor(cap, head))
  }

  /** `/cycles?since=&limit=` over a vault's ring. */
  method Cycles(cap: nat, head: nat, ring: seq<int>, cursor: nat, limitRaw: int) returns (page: seq<int>)
    requires ring == Numbers(RingFloor(cap, head), head)
    ensures var limit := Min(MAX_LIMIT, Max(1, limitRaw));
      var floor := PageFloor(cap, head, cursor, limit);
      page == Numbers(floor, Min(head, floor + limit))
  {
    var limit: nat := if limitRaw < 1 then 1 else if limitRaw > MAX_LIMIT then MAX_LIMIT else limitRaw;
    var since := if cursor <= head then cursor else if head > limit then head - limit else 0;
    ghost var low := RingFloor(cap, head);
    NumbersAre(low, head);
    var start := 0;
    while start < |ring| && ring[start] <= since
      invariant 0 <= start <= |ring|
      invariant start > 0 ==> low + start <= since
    {
      start := start + 1;
    }
    var end := if start + limit < |ring| then start + limit else |ring|;
    page := ring[start..end];
    NumbersCut(low, head, start, end - start);
    if start == |ring| {
      NumbersAre(low + start, low + end);
      NumbersAre(Max(since, low), Min(head, Max(since, low) + limit));
    }
  }

  /** A cursor from past this boot's head gets the newest page. */
  lemma ForeignCursorGetsTheNewest(cap: nat, head: nat, cursor: nat, limit: nat)
    requires cursor > head && limit <= cap
    ensures var floor := PageFloor(cap, head, cursor, limit);
      Numbers(floor, Min(head, floor + limit)) == Tail(Numbers(0, head), limit)
  {
    NumbersAre(0, head);
    var floor := PageFloor(cap, head, cursor, limit);
    NumbersCut(0, head, floor, head - floor);
  }

  // ------------------------------------------------------------------ draining

  lemma Product(pages: nat, limit: nat)
    ensures (pages + 1) * limit == pages * limit + limit
    ensures pages < PAGES_MAX ==> (pages + 1) * limit <= PAGES_MAX * limit
  {
  }

  /** What one page adds to what has been delivered. */
  lemma OnePageMore(floor: int, at: int, next: int)
    requires floor <= at <= next
    ensures Numbers(floor, at) + Numbers(at, next) == Numbers(floor, next)
    ensures |Numbers(at, next)| == next - at
    ensures at < next ==> Numbers(at, next)[next - at - 1] == next
  {
    NumbersJoin(floor, at, next);
    NumbersAre(at, next);
  }

  /** Where the client gets to: the head, unless the pages run out first. */
  function Reached(cap: nat, head: nat, cursor: nat, limit: nat): int
  {
    Min(head, PageFloor(cap, head, cursor, limit) + PAGES_MAX * limit)
  }

  /** The heads successive pages find: the keeper goes on while the client reads. */
  predicate Rising(heads: seq<nat>)
  {
    |heads| == PAGES_MAX && forall a, b :: 0 <= a <= b < |heads| ==> heads[a] <= heads[b]
  }

  predicate Ascending(s: seq<int>, lo: int, hi: int)
  {
    && (forall k :: 0 <= k < |s| ==> lo < s[k] <= hi)
    && (forall a, b :: 0 <= a < b < |s| ==> s[a] < s[b])
  }

  /** Everything above the cursor and not evicted by `head`, up to `at`. */
  predicate Complete(s: seq<int>, cap: nat, head: nat, cursor: int, at: int)
  {
    forall n :: cursor < n <= at && n > RingFloor(cap, head) ==> n in s
  }

  /** One page more keeps the order and misses only what the ring has let go. */
  lemma PageAdds(s: seq<int>, cap: nat, before: nat, head: nat, cursor: int, at: int, from: int, to: int)
    requires Ascending(s, cursor, at) && cursor <= at <= from <= to
    requires at == cursor || (before <= head && Complete(s, cap, before, cursor, at))
    requires from == Max(at, RingFloor(cap, head))
    ensures Ascending(s + Numbers(from, to), cursor, to)
    ensures Complete(s + Numbers(from, to), cap, head, cursor, to)
  {
    NumbersAre(from, to);
    var page := Numbers(from, to);
    forall n | cursor < n <= to && n > RingFloor(cap, head) ensures n in s + page {
      if n > at { assert page[n - from - 1] == n; }
    }
  }

  /** Nothing the client still wants is let go while it reads. */
  predicate NotOvertaken(cap: nat, heads: seq<nat>, floor: int)
    requires |heads| == PAGES_MAX
  {
    RingFloor(cap, heads[PAGES_MAX - 1]) <= floor
  }

  /** After `p` pages: in order and complete; and, if the ring never overtakes it, the numbers from the floor. */
  predicate Drained(s: seq<int>, cap: nat, heads: seq<nat>, cursor: nat, limit: nat, p: nat, at: int)
    requires |heads| == PAGES_MAX && 1 <= p <= PAGES_MAX
  {
    && cursor <= at <= heads[p - 1]
    && Ascending(s, cursor, at) && Complete(s, cap, heads[p - 1], cursor, at)
    && var floor := PageFloor(cap, heads[0], cursor, limit);
       NotOvertaken(cap, heads, floor) ==> s == Numbers(floor, at) && at == Min(heads[p - 1], floor + p * limit)
  }

  /** Every page so far was full. */
  predicate AllFull(cap: nat, heads: seq<nat>, cursor: nat, limit: nat, p: nat, at: int)
    requires |heads| == PAGES_MAX
  {
    && at >= cursor + p * limit
    && var floor := PageFloor(cap, heads[0], cursor, limit);
       p > 0 && NotOvertaken(cap, heads, floor) ==> at == floor + p * limit
  }

  lemma FirstPage(cap: nat, heads: seq<nat>, cursor: nat, limit: nat, from: int, to: int)
    requires Rising(heads) && cursor <= heads[0] && limit >= 1
    requires from == Max(cursor, RingFloor(cap, heads[0])) && to == Min(heads[0], from + limit)
    ensures Drained(Numbers(from, to), cap, heads, cursor, limit, 1, to)
    ensures to - from >= limit ==> AllFull(cap, heads, cursor, limit, 1, to)
  {
    PageAdds([], cap, 0, heads[0], cursor, cursor, from, to);
    assert [] + Numbers(from, to) == Numbers(from, to);
  }

  /** Where one more page gets to, `read` numbers past the floor. */
  lemma PageGetsTo(limit: nat, read: nat, floor: int, low: int, head: int, from: int, to: int)
    requires low <= floor && from == Max(floor + read, low) && to == Min(head, from + limit)
    ensures from == floor + read && to == Min(head, floor + (read + limit))
    ensures to - from >= limit ==> to == floor + (read + limit)
  {
  }

  lemma StillPage(cap: nat, heads: seq<nat>, cursor: nat, limit: nat, p: nat, at: int, from: int, to: int)
    requires Rising(heads) && 1 <= p < PAGES_MAX && limit >= 1
    requires cursor <= at <= heads[p - 1] && AllFull(cap, heads, cursor, limit, p, at)
    requires from == Max(at, RingFloor(cap, heads[p])) && to == Min(heads[p], from + limit)
    ensures var floor := PageFloor(cap, heads[0], cursor, limit);
      NotOvertaken(cap, heads, floor) ==>
        && floor <= from == at && to == Min(heads[p], floor + (p + 1) * limit)
        && (to - from >= limit ==> to == floor + (p + 1) * limit)
  {
    var floor := PageFloor(cap, heads[0], cursor, limit);
    if NotOvertaken(cap, heads, floor) {
      Product(p, limit);
      assert heads[p] <= heads[PAGES_MAX - 1];
      PageGetsTo(limit, p * limit, floor, RingFloor(cap, heads[p]), heads[p], from, to);
    }
  }

  lemma FullPage(cursor: int, limit: nat, p: nat, at: int, from: int, to: int)
    requires at >= cursor + p * limit && from >= at && to - from >= limit
    ensures to >= cursor + (p + 1) * limit
  {
    Product(p, limit);
  }

  lemma NextPage(s: seq<int>, cap: nat, heads: seq<nat>, cursor: nat, limit: nat, p: nat, at: int, from: int, to: int)
    requires Rising(heads) && 1 <= p < PAGES_MAX && limit >= 1
    requires Drained(s, cap, heads, cursor, limit, p, at) && AllFull(cap, heads, cursor, limit, p, at)
    requires from == Max(at, RingFloor(cap, heads[p])) && to == Min(heads[p], from + limit)
    ensures Drained(s + Numbers(from, to), cap, heads, cursor, limit, p + 1, to)
    ensures to - from >= limit ==> AllFull(cap, heads, cursor, limit, p + 1, to)
  {
    PageAdds(s, cap, heads[p - 1], heads[p], cursor, at, from, to);
    StillPage(cap, heads, cursor, limit, p, at, from, to);
    if to - from >= limit { FullPage(cursor, limit, p, at, from, to); }
    var floor := PageFloor(cap, heads[0], cursor, limit);
    if NotOvertaken(cap, heads, floor) { NumbersJoin(floor, from, to); }
  }

  /** Every number up to the head the loop began with is delivered, if the pages reach it and the ring still
      holds it at the end. */
  predicate HasAllKept(s: seq<int>, cap: nat, heads: seq<nat>, cursor: nat, limit: nat)
    requires |heads| == PAGES_MAX
  {
    forall n :: cursor < n <= Min(heads[0], cursor + PAGES_MAX * limit) && n > RingFloor(cap, heads[PAGES_MAX - 1]) ==>
      n in s
  }

  lemma DrainedHasAllKept(s: seq<int>, cap: nat, heads: seq<nat>, cursor: nat, limit: nat, p: nat, at: int)
    requires Rising(heads) && 1 <= p <= PAGES_MAX && Drained(s, cap, heads, cursor, limit, p, at)
    requires at == heads[p - 1] || at >= cursor + PAGES_MAX * limit
    ensures Ascending(s, cursor, heads[PAGES_MAX - 1])
    ensures HasAllKept(s, cap, heads, cursor, limit)
  {
    assert heads[0] <= heads[p - 1] <= heads[PAGES_MAX - 1];
    forall n | cursor < n <= Min(heads[0], cursor + PAGES_MAX * limit) && n > RingFloor(cap, heads[PAGES_MAX - 1])
      ensures n in s
    {
      assert n <= at && RingFloor(cap, heads[p - 1]) <= RingFloor(cap, heads[PAGES_MAX - 1]);
    }
  }

  /** The client's loop while the head goes on: what it delivers is in order and once each, it reaches the head
      its last page found unless the pages run out first, and it misses of what lies between only what the
      ring has let go by then. If the ring never overtakes it, that is nothing, and what it delivered are the
      numbers from its floor to where it got. */
  method Drain(cap: nat, heads: seq<nat>, cursor: nat, limit: nat)
    returns (delivered: seq<int>, ghost pages: nat, ghost reached: int)
    requires Rising(heads) && cursor <= heads[0] && 1 <= limit <= MAX_LIMIT
    ensures 1 <= pages <= PAGES_MAX && Drained(delivered, cap, heads, cursor, limit, pages, reached)
    ensures reached == heads[pages - 1] || (pages == PAGES_MAX && reached >= cursor + PAGES_MAX * limit)
    ensures Ascending(delivered, cursor, heads[PAGES_MAX - 1])
    ensures HasAllKept(delivered, cap, heads, cursor, limit)
  {
    var last := cursor;
    delivered, pages, reached := [], 0, cursor;
    for p := 0 to PAGES_MAX
      invariant pages == p && last == reached && AllFull(cap, heads, cursor, limit, p, reached)
      invariant p == 0 ==> reached == cursor && delivered == []
      invariant p > 0 ==> Drained(delivered, cap, heads, cursor, limit, p, reached)
    {
      var head := heads[p];
      var page := Cycles(cap, head, Numbers(RingFloor(cap, head), head), last, limit);
      ghost var from := Max(reached, RingFloor(cap, head));
      ghost var to := Min(head, from + limit);
      if p == 0 { FirstPage(cap, heads, cursor, limit, from, to); }
      else { NextPage(delivered, cap, heads, cursor, limit, p, reached, from, to); }
      NumbersAre(from, to);
      assert page == Numbers(from, to);
      delivered := delivered + page;
      if page != [] {
        last := page[|page| - 1];
      }
      pages, reached := p + 1, to;
      if |page| < limit { break; }
    }
    DrainedHasAllKept(delivered, cap, heads, cursor, limit, pages, reached);
  }

  /** Against a head that stands still, everything the ring held above the cursor, up to the pages. */
  lemma StillHeadIsDrained(cap: nat, heads: seq<nat>, cursor: nat, limit: nat, pages: nat, reached: int)
    requires Rising(heads) && cursor <= heads[0] && 1 <= limit <= MAX_LIMIT && 1 <= pages <= PAGES_MAX
    requires heads[PAGES_MAX - 1] == heads[0]
    requires reached == heads[pages - 1] || pages == PAGES_MAX
    requires reached == Min(heads[pages - 1], PageFloor(cap, heads[0], cursor, limit) + pages * limit)
    ensures NotOvertaken(cap, heads, PageFloor(cap, heads[0], cursor, limit))
    ensures reached == Reached(cap, heads[0], cursor, limit)
  {
    assert heads[0] <= heads[pages - 1] <= heads[PAGES_MAX - 1];
    MorePages(pages, limit);
  }

  lemma MorePages(pages: nat, limit: nat)
    requires pages <= PAGES_MAX
    ensures pages * limit <= PAGES_MAX * limit
  {
    assert PAGES_MAX * limit - pages * limit == (PAGES_MAX - pages) * limit;
  }

  /** A ring no larger than the pages hold is always drained in one go. */
  lemma SmallRingIsDrained(cap: nat, head: nat, cursor: nat, limit: nat)
    requires cursor <= head
    ensures Reached(cap, head, cursor, limit) == head
      <==> head - PageFloor(cap, head, cursor, limit) <= PAGES_MAX * limit
    ensures cap <= PAGES_MAX * limit ==> Reached(cap, head, cursor, limit) == head
  {
  }

  // ------------------------------------------------------------------ the event stream

  /** One record as published: its stream id, its vault and its number there. */
  datatype Entry = Entry(id: nat, vault: string, no: nat)

  function CountFor(vaults: seq<string>, vault: string): nat
  {
    if vaults == [] then 0
    else CountFor(vaults[..|vaults| - 1], vault) + if vaults[|vaults| - 1] == vault then 1 else 0
  }

  /** The stream of a boot, from the vaults whose cycles ended, in order: every record takes the next
      stream id and the next number of its vault. */
  function Stream(vaults: seq<string>): (s: seq<Entry>)
    ensures |s| == |vaults|
  {
    if vaults == [] then []
    else
      var v := vaults[|vaults| - 1];
      Stream(vaults[..|vaults| - 1]) + [Entry(|vaults|, v, CountFor(vaults, v))]
  }

  /** A stream id is its position, and never less than the number the record has in its vault. */
  lemma {:induction false} IdsRunAhead(vaults: seq<string>)
    ensures forall k :: 0 <= k < |vaults| ==>
      && Stream(vaults)[k].id == k + 1 && Stream(vaults)[k].vault == vaults[k]
      && 1 <= Stream(vaults)[k].no <= Stream(vaults)[k].id
  {
    if vaults != [] {
      IdsRunAhead(vaults[..|vaults| - 1]);
      CountIsSmall(vaults, vaults[|vaults| - 1]);
    }
  }

  lemma {:induction false} CountIsSmall(vaults: seq<string>, vault: string)
    ensures CountFor(vaults, vault) <= |vaults|
  {
    if vaults != [] { CountIsSmall(vaults[..|vaults| - 1], vault); }
  }

  function Above(ring: seq<Entry>, last: int): seq<Entry>
  {
    if ring == [] then []
    else Above(ring[..|ring| - 1], last) + if ring[|ring| - 1].id > last then [ring[|ring| - 1]] else []
  }

  lemma {:induction false} AboveHas(ring: seq<Entry>, last: int, e: Entry)
    ensures e in Above(ring, last) <==> e in ring && e.id > last
  {
    if ring != [] {
      AboveHas(ring[..|ring| - 1], last, e);
      assert ring == ring[..|ring| - 1] + [ring[|ring| - 1]];
    }
  }

  /** What a reconnecting client is sent of the ring: nothing without a resume point or with another
      boot's, else the newest of what is above it. */
  function Replay(boot: int, ring: seq<Entry>, resume: Option<Cursor>): seq<Entry>
  {
    if resume.None? || resume.value.boot != boot then []
    else Tail(Above(ring, resume.value.no), SSE_REPLAY_MAX)
  }

  /** The header the dashboard sends, from what it resumes at. */
  function ResumeHeader(d: Desk, r: Option<int>): Option<Cursor>
  {
    if r.None? || d.boot.None? then None else Some(Cursor(d.boot.value, r.value))
  }

  /** Still wanted: above its own vault's cursor. */
  predicate Due(d: Desk, boot: int, e: Entry)
  {
    e.no > CursorNo(ColumnAt(d, e.vault), boot)
  }

  predicate HasCursor(d: Desk, v: string)
  {
    v in d.columns && d.boot.Some? && d.columns[v].cursor.Some? && d.columns[v].cursor.value.boot == d.boot.value
  }

  /** Above the lowest cursor: true of everything due from a vault that has one, as stream ids run ahead of
      the numbers of any vault. */
  predicate Reachable(d: Desk, r: Option<int>, e: Entry)
  {
    r.Some? && (HasCursor(d, e.vault) || e.id > r.value)
  }

  lemma DueIsAbove(d: Desk, r: Option<int>, e: Entry)
    requires d.boot.Some? && ResumesAt(d, r) && r.Some?
    requires e.no <= e.id && Due(d, d.boot.value, e)
    ensures e.id > r.value <==> Reachable(d, r, e)
  {
    if HasCursor(d, e.vault) {
      assert CursorIs(d, e.vault, d.columns[e.vault].cursor.value.no);
    }
  }

  /** Consecutive ids, the first of them after `lo`, none less than the record's number in its vault. */
  predicate Consecutive(s: seq<Entry>, lo: int)
  {
    forall k :: 0 <= k < |s| ==> s[k].id == lo + 1 + k && s[k].no <= s[k].id
  }

  lemma RingIsConsecutive(vaults: seq<string>, cap: nat)
    ensures var ring := Tail(Stream(vaults), cap); Consecutive(ring, |vaults| - |ring|)
  {
    IdsRunAhead(vaults);
  }

  /** What is above a number, in a ring with `from` entries not above it, is the rest. */
  lemma {:induction false} AboveIsSuffix(s: seq<Entry>, from: nat, last: int)
    requires from <= |s| && forall k :: 0 <= k < |s| ==> (s[k].id > last <==> k >= from)
    ensures Above(s, last) == s[from..]
  {
    if s != [] {
      var n := |s| - 1;
      if from <= n {
        AboveIsSuffix(s[..n], from, last);
        assert s[from..] == s[..n][from..] + [s[n]];
      } else {
        AboveIsSuffix(s[..n], n, last);
      }
    }
  }

  lemma InTail(ring: seq<Entry>, lo: int, from: nat, e: Entry)
    requires Consecutive(ring, lo) && from <= |ring| && e in ring
    ensures e in Tail(ring[from..], SSE_REPLAY_MAX)
      <==> e.id > lo + from && e.id > lo + |ring| - SSE_REPLAY_MAX
  {
    var at := Max(from, |ring| - SSE_REPLAY_MAX);
    assert Tail(ring[from..], SSE_REPLAY_MAX) == ring[at..];
    var k :| 0 <= k < |ring| && ring[k] == e;
    if k >= at { assert ring[at..][k - at] == e; }
  }

  /** So a replay to the same boot sends what is above the resume point and among the newest 500 ids. */
  lemma ReplayIs(boot: int, no: int, ring: seq<Entry>, lo: int, e: Entry)
    requires Consecutive(ring, lo) && e in ring
    ensures e in Replay(boot, ring, Some(Cursor(boot, no)))
      <==> e.id > no && e.id > lo + |ring| - SSE_REPLAY_MAX
  {
    var from := Min(|ring|, Max(0, no - lo));
    var k :| 0 <= k < |ring| && ring[k] == e;
    AboveIsSuffix(ring, from, no);
    InTail(ring, lo, from, e);
    assert Replay(boot, ring, Some(Cursor(boot, no))) == Tail(ring[from..], SSE_REPLAY_MAX);
  }

  /** Sent again to a dashboard that reconnects to the boot it follows. */
  predicate Replayed(d: Desk, r: Option<int>, ring: seq<Entry>, e: Entry)
    requires d.boot.Some?
  {
    e in Replay(d.boot.value, ring, ResumeHeader(d, r))
  }

  ghost predicate AllDueReplayed(d: Desk, r: Option<int>, ring: seq<Entry>)
    requires d.boot.Some?
  {
    forall e :: e in ring && Due(d, d.boot.value, e) ==> Replayed(d, r, ring, e)
  }

  lemma ReplayedIs(d: Desk, r: Option<int>, ring: seq<Entry>, lo: int, e: Entry)
    requires d.boot.Some? && Consecutive(ring, lo) && e in ring
    ensures Replayed(d, r, ring, e) <==> r.Some? && e.id > r.value && e.id > lo + |ring| - SSE_REPLAY_MAX
  {
    if r.Some? { ReplayIs(d.boot.value, r.value, ring, lo, e); }
  }

  lemma DueReplayed(d: Desk, r: Option<int>, ring: seq<Entry>, lo: int, e: Entry)
    requires d.boot.Some? && ResumesAt(d, r) && Consecutive(ring, lo)
    requires e in ring && Due(d, d.boot.value, e)
    ensures Replayed(d, r, ring, e) <==> Reachable(d, r, e) && e.id > lo + |ring| - SSE_REPLAY_MAX
  {
    ReplayedIs(d, r, ring, lo, e);
    if r.Some? { DueIsAbove(d, r, e); }
  }

  /** Exactly when a reconnect to the boot being followed misses nothing: everything due is above the resume
      point the dashboard derives, which it has unless some vault's cursor is at the start, and is among the
      newest 500 ids of the stream. A vault at the start leaves no resume point, and then nothing at all is
      replayed. */
  lemma ResumeMissesNothing(d: Desk, r: Option<int>, vaults: seq<string>, cap: nat)
    requires d.boot.Some? && ResumesAt(d, r)
    ensures var ring := Tail(Stream(vaults), cap);
      AllDueReplayed(d, r, ring) <==>
        forall e :: e in ring && Due(d, d.boot.value, e) ==>
          Reachable(d, r, e) && e.id > |vaults| - SSE_REPLAY_MAX
  {
    var ring := Tail(Stream(vaults), cap);
    RingIsConsecutive(vaults, cap);
    RingReplays(d, r, ring, |vaults| - |ring|);
  }

  lemma RingReplays(d: Desk, r: Option<int>, ring: seq<Entry>, lo: int)
    requires d.boot.Some? && ResumesAt(d, r) && Consecutive(ring, lo)
    ensures AllDueReplayed(d, r, ring) <==>
      forall e :: e in ring && Due(d, d.boot.value, e) ==>
        Reachable(d, r, e) && e.id > lo + |ring| - SSE_REPLAY_MAX
  {
    forall e | e in ring && Due(d, d.boot.value, e)
      ensures Replayed(d, r, ring, e) <==> Reachable(d, r, e) && e.id > lo + |ring| - SSE_REPLAY_MAX
    {
      DueReplayed(d, r, ring, lo, e);
    }
  }

  /** When every vault of the stream has been listed, that is: nothing due is older than the newest 500 ids,
      and nothing is due at all or no cursor is at the start. */
  lemma ListedResumeMissesNothing(d: Desk, r: Option<int>, vaults: seq<string>, cap: nat)
    requires d.boot.Some? && ResumesAt(d, r)
    requires forall k :: 0 <= k < |vaults| ==> HasCursor(d, vaults[k])
    requires forall v, no :: CursorIs(d, v, no) ==> no >= 0
    ensures var ring, boot := Tail(Stream(vaults), cap), d.boot.value;
      AllDueReplayed(d, r, Tail(Stream(vaults), cap)) <==>
      && (forall e :: e in ring && Due(d, boot, e) ==> e.id > |vaults| - SSE_REPLAY_MAX)
      && ((forall e :: e in ring ==> !Due(d, boot, e)) || (forall v :: !CursorIs(d, v, 0)))
  {
    ResumeMissesNothing(d, r, vaults, cap);
    IdsRunAhead(vaults);
    var ring, boot := Tail(Stream(vaults), cap), d.boot.value;
    forall e | e in ring ensures HasCursor(d, e.vault) && Reachable(d, r, e) == r.Some? {
      assert e in Stream(vaults);
    }
    if forall v :: !CursorIs(d, v, 0) {
      forall e | e in ring && Due(d, boot, e) ensures r.Some? {
        assert CursorIs(d, e.vault, d.columns[e.vault].cursor.value.no);
      }
    }
  }

  /** A dashboard that holds everything is missing nothing, however long the stream and however many vaults
      share it. */
  lemma CaughtUpMissesNothing(d: Desk, r: Option<int>, vaults: seq<string>, cap: nat)
    requires d.boot.Some? && ResumesAt(d, r)
    requires forall e :: e in Stream(vaults) ==> !Due(d, d.boot.value, e)
    ensures AllDueReplayed(d, r, Tail(Stream(vaults), cap))
  {
    forall e | e in Tail(Stream(vaults), cap) ensures e in Stream(vaults) {
    }
  }

  lemma {:induction false} OneVaultsStream(vaults: seq<string>, a: string)
    requires forall k :: 0 <= k < |vaults| ==> vaults[k] == a
    ensures CountFor(vaults, a) == |vaults|
    ensures forall k :: 0 <= k < |vaults| ==> Stream(vaults)[k] == Entry(k + 1, a, k + 1)
  {
    if vaults != [] { OneVaultsStream(vaults[..|vaults| - 1], a); }
  }

  /** One vault, 600 records, all of them still in the ring, and a cursor at 1: records 2 to 100 are due and
      are not sent. */
  lemma SixHundredBehind(d: Desk, a: string, vaults: seq<string>, cap: nat)
    requires d.boot.Some? && CursorIs(d, a, 1) && d.columns.Keys == {a}
    requires |vaults| == 600 <= cap && forall k :: 0 <= k < |vaults| ==> vaults[k] == a
    ensures ResumesAt(d, Some(1))
    ensures forall no :: 2 <= no <= 100 ==>
      var e, ring := Entry(no, a, no), Tail(Stream(vaults), cap);
      e in ring && Due(d, d.boot.value, e) && !Replayed(d, Some(1), ring, e)
    ensures !AllDueReplayed(d, Some(1), Tail(Stream(vaults), cap))
  {
    OneVaultsStream(vaults, a);
    assert NoneBelow(d, 1);
    var ring := Stream(vaults);
    assert Tail(Stream(vaults), cap) == ring;
    forall no | 2 <= no <= 100
      ensures var e := Entry(no, a, no); e in ring && Due(d, d.boot.value, e) && !Replayed(d, Some(1), ring, e)
    {
      assert ring[no - 1] == Entry(no, a, no);
      ReplayedIs(d, Some(1), ring, 0, Entry(no, a, no));
    }
    assert !Replayed(d, Some(1), ring, Entry(2, a, 2));
  }

  /** One vault at the start stops the replay for the other: its records 5 and on are due and not sent. */
  lemma OneVaultAtTheStart(d: Desk, a: string, b: string, ring: seq<Entry>, e: Entry)
    requires d.boot.Some? && CursorIs(d, a, 0) && CursorIs(d, b, 4)
    requires forall v, no :: CursorIs(d, v, no) ==> no >= 0
    requires e in ring && e.vault == b && e.no >= 5
    ensures Due(d, d.boot.value, e)
    ensures ResumesAt(d, None) && forall r :: ResumesAt(d, r) ==> r.None?
    ensures Replay(d.boot.value, ring, ResumeHeader(d, None)) == []
  {
    assert NoneBelow(d, 0);
  }
}
