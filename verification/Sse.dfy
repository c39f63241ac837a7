/** The event stream between the keeper and the dashboard: the frames the status listener writes
    (keeper/src/status.ts) and the incremental parser that reads them back out of arbitrary chunks
    (ui/server/collect/keeper.ts). The framing is that of section 9.2 of the WHATWG HTML Living
    Standard. */
module Sse {
  import opened Wrappers

  datatype Frame = Frame(id: Option<string>, event: Option<string>, data: string)

  // ------------------------------------------------------------------ text

  function Find(s: string, c: char): (r: Option<nat>)
    ensures r.Some? ==> r.value < |s| && s[r.value] == c && c !in s[..r.value]
    ensures r.None? ==> c !in s
  {
    if s == "" then None
    else if s[0] == c then Some(0)
    else match Find(s[1..], c)
      case None => None
      case Some(i) => Some(i + 1)
  }

  /** `s.split(sep)`: always at least one piece. */
  function Split(s: string, sep: char): (r: seq<string>)
    ensures |r| > 0
    ensures forall k :: 0 <= k < |r| ==> sep !in r[k]
    decreases |s|
  {
    match Find(s, sep)
    case None => [s]
    case Some(i) => [s[..i]] + Split(s[i + 1..], sep)
  }

  function Join(lines: seq<string>, sep: char): string
  {
    if lines == [] then ""
    else if |lines| == 1 then lines[0]
    else lines[0] + [sep] + Join(lines[1..], sep)
  }

  lemma {:induction false} FindAfter(a: string, c: char, b: string)
    requires c !in a
    ensures Find(a + [c] + b, c) == Some(|a|)
  {
    if a != "" {
      assert (a + [c] + b)[1..] == a[1..] + [c] + b;
      FindAfter(a[1..], c, b);
    }
  }

  lemma {:induction false} SplitJoin(lines: seq<string>, sep: char)
    requires |lines| > 0 && forall k :: 0 <= k < |lines| ==> sep !in lines[k]
    ensures Split(Join(lines, sep), sep) == lines
  {
    if |lines| > 1 {
      var rest := Join(lines[1..], sep);
      FindAfter(lines[0], sep, rest);
      var s := lines[0] + [sep] + rest;
      assert s[..|lines[0]|] == lines[0];
      assert s[|lines[0]| + 1..] == rest;
      SplitJoin(lines[1..], sep);
    }
  }

  // ------------------------------------------------------------------ line ends

  /** What each chunk goes through on arrival: CRLF and lone CR become LF. */
  function Normalise(s: string): string
    decreases |s|
  {
    if s == "" then ""
    else if s[0] != '\r' then [s[0]] + Normalise(s[1..])
    else if |s| > 1 && s[1] == '\n' then "\n" + Normalise(s[2..])
    else "\n" + Normalise(s[1..])
  }

  predicate EndsInCr(s: string)
  {
    s != "" && s[|s| - 1] == '\r'
  }

  predicate StartsWithLf(s: string)
  {
    s != "" && s[0] == '\n'
  }

  /** Normalising two pieces apart is normalising them together, up to one extra line feed when the
      seam falls inside a CRLF. */
  lemma {:induction false} NormaliseSeam(a: string, b: string)
    ensures EndsInCr(a) && StartsWithLf(b) ==> |Normalise(a) + Normalise(b)| == |Normalise(a + b)| + 1
    ensures !(EndsInCr(a) && StartsWithLf(b)) ==> Normalise(a) + Normalise(b) == Normalise(a + b)
    decreases |a|
  {
    if a == "" {
      assert a + b == b;
    } else if a == "\r" {
      SeamAtCr(b);
    } else {
      var n := if a[0] == '\r' && a[1] == '\n' then 2 else 1;
      NormaliseSeam(a[n..], b);
      HeadOfBoth(a, b, n);
    }
  }

  lemma SeamAtCr(b: string)
    ensures StartsWithLf(b) ==> |Normalise("\r") + Normalise(b)| == |Normalise("\r" + b)| + 1
    ensures !StartsWithLf(b) ==> Normalise("\r") + Normalise(b) == Normalise("\r" + b)
  {
    assert ("\r" + b)[1..] == b;
    assert b != "" ==> ("\r" + b)[2..] == b[1..];
    assert "\r"[1..] == "";
  }

  /** A first line end that `a` holds in full comes out the same with more text after it. */
  lemma HeadOfBoth(a: string, b: string, n: nat)
    requires |a| > 1 || (a != "" && a[0] != '\r')
    requires n == if a[0] == '\r' && |a| > 1 && a[1] == '\n' then 2 else 1
    ensures var h := [if a[0] == '\r' then '\n' else a[0]];
      && Normalise(a) + Normalise(b) == h + (Normalise(a[n..]) + Normalise(b))
      && Normalise(a + b) == h + Normalise(a[n..] + b)
  {
    NormaliseHead(a, n);
    NormaliseHead(a + b, n);
    assert (a + b)[n..] == a[n..] + b;
  }

  /** One step of normalisation, on a string whose first line end is not cut short. */
  lemma NormaliseHead(s: string, n: nat)
    requires s != "" && (s == "\r" || |s| > 1 || s[0] != '\r')
    requires n == if s[0] == '\r' && |s| > 1 && s[1] == '\n' then 2 else 1
    ensures Normalise(s) == [if s[0] == '\r' then '\n' else s[0]] + Normalise(s[n..])
  {
  }

  function Concat(chunks: seq<string>): string
  {
    if chunks == [] then "" else chunks[0] + Concat(chunks[1..])
  }

  function NormaliseEach(chunks: seq<string>): string
  {
    if chunks == [] then "" else Normalise(chunks[0]) + NormaliseEach(chunks[1..])
  }

  /** Some chunk boundary falls between a CR and its LF. */
  predicate CutsCrLf(chunks: seq<string>)
  {
    chunks != [] && ((EndsInCr(chunks[0]) && StartsWithLf(Concat(chunks[1..]))) || CutsCrLf(chunks[1..]))
  }

  /** Per-chunk normalisation never loses text, and it is exact precisely when no boundary cuts a CRLF
      in two. */
  lemma {:induction false} NormaliseEachExact(chunks: seq<string>)
    ensures |NormaliseEach(chunks)| >= |Normalise(Concat(chunks))|
    ensures NormaliseEach(chunks) == Normalise(Concat(chunks)) <==> !CutsCrLf(chunks)
  {
    if chunks != [] {
      var a, b := chunks[0], Concat(chunks[1..]);
      NormaliseEachExact(chunks[1..]);
      NormaliseSeam(a, b);
      if EndsInCr(a) && StartsWithLf(b) {
        assert |NormaliseEach(chunks)| > |Normalise(Concat(chunks))|;
      } else {
        assert NormaliseEach(chunks) == Normalise(a) + NormaliseEach(chunks[1..]);
        assert Normalise(Concat(chunks)) == Normalise(a) + Normalise(b);
        SamePrefix(Normalise(a), NormaliseEach(chunks[1..]), Normalise(b));
      }
    }
  }

  lemma SamePrefix(p: string, x: string, y: string)
    ensures p + x == p + y <==> x == y
  {
    if p + x == p + y {
      assert x == (p + x)[|p|..];
      assert y == (p + y)[|p|..];
    }
  }

  // ------------------------------------------------------------------ blocks

  /** `s.indexOf("\n\n")`. */
  function FirstBlank(s: string): (r: Option<nat>)
    ensures r.Some? ==> r.value + 2 <= |s|
    decreases |s|
  {
    if |s| < 2 then None
    else if s[0] == '\n' && s[1] == '\n' then Some(0)
    else match FirstBlank(s[1..])
      case None => None
      case Some(i) => Some(i + 1)
  }

  datatype Cut = Cut(blocks: seq<string>, rest: string)

  /** Everything up to the last blank line, block by block, and what is left over. */
  function CutBlocks(s: string): Cut
    decreases |s|
  {
    match FirstBlank(s)
    case None => Cut([], s)
    case Some(i) =>
      var c := CutBlocks(s[i + 2..]);
      Cut([s[..i]] + c.blocks, c.rest)
  }

  lemma {:induction false} FirstBlankStays(a: string, b: string)
    requires FirstBlank(a).Some?
    ensures FirstBlank(a + b) == FirstBlank(a)
    decreases |a|
  {
    if !(a[0] == '\n' && a[1] == '\n') {
      assert (a + b)[1..] == a[1..] + b;
      FirstBlankStays(a[1..], b);
    }
  }

  function Prepend(blocks: seq<string>, c: Cut): Cut
  {
    Cut(blocks + c.blocks, c.rest)
  }

  lemma PrependTwice(a: seq<string>, b: seq<string>, c: Cut)
    ensures Prepend(a, Prepend(b, c)) == Prepend(a + b, c)
  {
    assert a + (b + c.blocks) == (a + b) + c.blocks;
  }

  lemma CutStep(s: string, i: nat)
    requires FirstBlank(s) == Some(i)
    ensures CutBlocks(s) == Prepend([s[..i]], CutBlocks(s[i + 2..]))
  {
  }

  /** More text after what has already been cut. */
  function Resume(c: Cut, more: string): Cut
  {
    Prepend(c.blocks, CutBlocks(c.rest + more))
  }

  lemma FirstCutStays(a: string, b: string, i: nat)
    requires FirstBlank(a) == Some(i)
    ensures CutBlocks(a + b) == Prepend([a[..i]], CutBlocks(a[i + 2..] + b))
  {
    FirstBlankStays(a, b);
    CutStep(a + b, i);
    assert (a + b)[..i] == a[..i];
    assert (a + b)[i + 2..] == a[i + 2..] + b;
  }

  /** Cutting is incremental: what was left over is all that matters for the text still to come. */
  lemma {:induction false} CutIsIncremental(a: string, b: string)
    ensures CutBlocks(a + b) == Resume(CutBlocks(a), b)
    decreases |a|
  {
    match FirstBlank(a)
    case None =>
    case Some(i) =>
      FirstCutStays(a, b, i);
      CutStep(a, i);
      CutIsIncremental(a[i + 2..], b);
      PrependTwice([a[..i]], CutBlocks(a[i + 2..]).blocks, CutBlocks(CutBlocks(a).rest + b));
  }

  // ------------------------------------------------------------------ fields

  datatype Fields = Fields(id: Option<string>, event: Option<string>, data: seq<string>)

  const NO_FIELDS := Fields(None, None, [])

  function FieldName(line: string): string
  {
    match Find(line, ':')
    case None => line
    case Some(i) => line[..i]
  }

  function FieldValue(line: string): string
  {
    match Find(line, ':')
    case None => ""
    case Some(i) => var v := line[i + 1..]; if v != "" && v[0] == ' ' then v[1..] else v
  }

  function ReadField(f: Fields, line: string): Fields
  {
    if line == "" || line[0] == ':' then f
    else if FieldName(line) == "id" then f.(id := Some(FieldValue(line)))
    else if FieldName(line) == "event" then f.(event := Some(FieldValue(line)))
    else if FieldName(line) == "data" then f.(data := f.data + [FieldValue(line)])
    else f
  }

  function ReadFields(lines: seq<string>): Fields
  {
    if lines == [] then NO_FIELDS
    else ReadField(ReadFields(lines[..|lines| - 1]), lines[|lines| - 1])
  }

  function ToFrame(f: Fields): Option<Frame>
  {
    if f.data == [] then None else Some(Frame(f.id, f.event, Join(f.data, '\n')))
  }

  function FrameOf(block: string): Option<Frame>
  {
    ToFrame(ReadFields(Split(block, '\n')))
  }

  function FramesOf(blocks: seq<string>): seq<Frame>
  {
    if blocks == [] then []
    else (match FrameOf(blocks[0]) case Some(f) => [f] case None => []) + FramesOf(blocks[1..])
  }

  lemma {:induction false} FramesOfConcat(a: seq<string>, b: seq<string>)
    ensures FramesOf(a + b) == FramesOf(a) + FramesOf(b)
  {
    if a == [] {
      assert a + b == b;
    } else {
      assert (a + b)[1..] == a[1..] + b;
      FramesOfConcat(a[1..], b);
    }
  }

  lemma FramesOfOneMore(blocks: seq<string>, block: string)
    ensures FramesOf(blocks + [block]) ==
      match FrameOf(block) case Some(f) => FramesOf(blocks) + [f] case None => FramesOf(blocks)
  {
    FramesOfConcat(blocks, [block]);
    assert FramesOf([block][1..]) == [];
  }

  /** One block, line by line over three locals. */
  method ParseBlock(block: string) returns (frame: Option<Frame>)
    ensures frame == FrameOf(block)
  {
    var id: Option<string>, event: Option<string>, data: seq<string> := None, None, [];
    var lines := Split(block, '\n');
    for i := 0 to |lines|
      invariant Fields(id, event, data) == ReadFields(lines[..i])
    {
      var line := lines[i];
      assert lines[..i + 1][..i] == lines[..i];
      if line == "" || line[0] == ':' { continue; }
      var c := Find(line, ':');
      var field := if c.None? then line else line[..c.value];
      var value := if c.None? then "" else line[c.value + 1..];
      if value != "" && value[0] == ' ' {
        value := value[1..];
      }
      if field == "id" {
        id := Some(value);
      } else if field == "event" {
        event := Some(value);
      } else if field == "data" {
        data := data + [value];
      }
    }
    assert lines[..|lines|] == lines;
    if data == [] { return None; }
    return Some(Frame(id, event, Join(data, '\n')));
  }

  // ------------------------------------------------------------------ the parser

  predicate IsSpace(c: char)
  {
    var u := c as int;
    (9 <= u <= 13) || u == 32 || u == 160 || u == 0x1680 || (0x2000 <= u <= 0x200a) ||
    u == 0x2028 || u == 0x2029 || u == 0x202f || u == 0x205f || u == 0x3000 || u == 0xfeff
  }

  /** `!s.trim()`. */
  predicate IsBlank(s: string)
  {
    forall k :: 0 <= k < |s| ==> IsSpace(s[k])
  }

  class SseParser {
    var buf: string

    constructor ()
      ensures buf == ""
    {
      buf := "";
    }

    method Push(chunk: string) returns (out: seq<Frame>)
      modifies this
      ensures var c := CutBlocks(old(buf) + Normalise(chunk));
        buf == c.rest && out == FramesOf(c.blocks)
    {
      buf := buf + Normalise(chunk);
      ghost var all := CutBlocks(buf);
      ghost var cut: seq<string> := [];
      out := [];
      var idx := FirstBlank(buf);
      while idx.Some?
        invariant idx == FirstBlank(buf)
        invariant out == FramesOf(cut)
        invariant all == Prepend(cut, CutBlocks(buf))
        decreases |buf|
      {
        var block := buf[..idx.value];
        CutStep(buf, idx.value);
        buf := buf[idx.value + 2..];
        var f := ParseBlock(block);
        if f.Some? {
          out := out + [f.value];
        }
        FramesOfOneMore(cut, block);
        PrependTwice(cut, [block], CutBlocks(buf));
        cut := cut + [block];
        idx := FirstBlank(buf);
      }
      assert cut + [] == cut;
    }

    method Flush() returns (out: seq<Frame>)
      modifies this
      ensures buf == "" && out == FramesOf([old(buf)])
    {
      var rest := buf;
      buf := "";
      if IsBlank(rest) {
        BlankHoldsNoFrame(rest);
        return [];
      }
      var f := ParseBlock(rest);
      out := if f.Some? then [f.value] else [];
    }
  }

  /** A block of white space carries no data line, so skipping it before parsing loses nothing. */
  lemma BlankHoldsNoFrame(block: string)
    requires IsBlank(block)
    ensures FrameOf(block) == None
  {
    BlankLines(block);
    BlankFields(Split(block, '\n'));
  }

  lemma {:induction false} BlankLines(s: string)
    requires IsBlank(s)
    ensures forall k :: 0 <= k < |Split(s, '\n')| ==> IsBlank(Split(s, '\n')[k])
    decreases |s|
  {
    match Find(s, '\n')
    case None =>
    case Some(i) => BlankLines(s[i + 1..]);
  }

  lemma {:induction false} BlankFields(lines: seq<string>)
    requires forall k :: 0 <= k < |lines| ==> IsBlank(lines[k])
    ensures ReadFields(lines) == NO_FIELDS
  {
    if lines != [] {
      var line := lines[|lines| - 1];
      BlankFields(lines[..|lines| - 1]);
      if line != "" {
        assert IsSpace(line[0]);
        NameIsSpace(line);
      }
    }
  }

  lemma NameIsSpace(line: string)
    requires line != "" && IsSpace(line[0])
    ensures FieldName(line) != "id" && FieldName(line) != "event" && FieldName(line) != "data"
  {
    var n := FieldName(line);
    assert n != "" ==> n[0] == line[0];
  }

  // ------------------------------------------------------------------ whole streams

  /** What a parser hands out, and what it still holds. */
  datatype Reading = Reading(frames: seq<Frame>, left: string)

  function FeedOne(r: Reading, chunk: string): Reading
  {
    var c := CutBlocks(r.left + Normalise(chunk));
    Reading(r.frames + FramesOf(c.blocks), c.rest)
  }

  function Feed(chunks: seq<string>): Reading
  {
    if chunks == [] then Reading([], "") else FeedOne(Feed(chunks[..|chunks| - 1]), chunks[|chunks| - 1])
  }

  /** The parser over a whole connection: every chunk pushed, then the flush. */
  method ReadAll(chunks: seq<string>) returns (out: seq<Frame>)
    ensures out == Feed(chunks).frames + FramesOf([Feed(chunks).left])
  {
    var parser := new SseParser();
    out := [];
    for i := 0 to |chunks|
      invariant Feed(chunks[..i]) == Reading(out, parser.buf)
      invariant fresh(parser)
    {
      assert chunks[..i + 1][..i] == chunks[..i];
      var fs := parser.Push(chunks[i]);
      out := out + fs;
    }
    assert chunks[..|chunks|] == chunks;
    var last := parser.Flush();
    out := out + last;
  }

  function ReadingOf(c: Cut): Reading
  {
    Reading(FramesOf(c.blocks), c.rest)
  }

  lemma FeedOneIsCut(a: string, chunk: string)
    ensures FeedOne(ReadingOf(CutBlocks(a)), chunk) == ReadingOf(CutBlocks(a + Normalise(chunk)))
  {
    var b := Normalise(chunk);
    CutIsIncremental(a, b);
    FramesOfConcat(CutBlocks(a).blocks, CutBlocks(CutBlocks(a).rest + b).blocks);
  }

  lemma Joined(a: string, b: string, c: string)
    ensures a + (b + c) == (a + b) + c
  {
  }

  lemma {:induction false} NormaliseEachLast(chunks: seq<string>)
    requires chunks != []
    ensures NormaliseEach(chunks) == NormaliseEach(chunks[..|chunks| - 1]) + Normalise(chunks[|chunks| - 1])
  {
    if |chunks| > 1 {
      var mid := chunks[1..][..|chunks| - 2];
      NormaliseEachLast(chunks[1..]);
      assert mid == chunks[..|chunks| - 1][1..];
      Joined(Normalise(chunks[0]), NormaliseEach(mid), Normalise(chunks[|chunks| - 1]));
    } else {
      assert NormaliseEach(chunks[1..]) == "";
    }
  }

  lemma {:induction false} FeedIsCut(chunks: seq<string>)
    ensures Feed(chunks) == ReadingOf(CutBlocks(NormaliseEach(chunks)))
  {
    if chunks != [] {
      FeedIsCut(chunks[..|chunks| - 1]);
      NormaliseEachLast(chunks);
      FeedOneIsCut(NormaliseEach(chunks[..|chunks| - 1]), chunks[|chunks| - 1]);
    }
  }

  /** How the stream is cut into chunks makes no difference, as long as no cut falls inside a CRLF. */
  lemma ChunkingIsInvisible(chunks: seq<string>)
    requires !CutsCrLf(chunks)
    ensures Feed(chunks) == ReadingOf(CutBlocks(Normalise(Concat(chunks))))
  {
    NormaliseEachExact(chunks);
    FeedIsCut(chunks);
  }

  // ------------------------------------------------------------------ what the listener writes

  function Digit(d: nat): char
    requires d < 10
  {
    '0' + d as char
  }

  function Decimal(n: nat): (s: string)
    ensures s != "" && forall k :: 0 <= k < |s| ==> '0' <= s[k] <= '9'
  {
    if n < 10 then [Digit(n)] else Decimal(n / 10) + [Digit(n % 10)]
  }

  function EventId(boot: string, n: nat): string
  {
    boot + ":" + Decimal(n)
  }

  datatype Item = Retry | Ping | Cycle(boot: string, n: nat, data: string)

  function Print(item: Item): string
  {
    match item
    case Retry => "retry: 5000\n\n"
    case Ping => ": ping\n\n"
    case Cycle(boot, n, data) => "id: " + EventId(boot, n) + "\nevent: cycle\ndata: " + data + "\n\n"
  }

  function PrintAll(items: seq<Item>): string
  {
    if items == [] then "" else Print(items[0]) + PrintAll(items[1..])
  }

  function EventOf(item: Item): Option<Frame>
  {
    match item
    case Cycle(boot, n, data) => Some(Frame(Some(EventId(boot, n)), Some("cycle"), data))
    case _ => None
  }

  function EventsOf(items: seq<Item>): seq<Frame>
  {
    if items == [] then []
    else
      (match EventOf(items[0]) case Some(f) => [f] case None => []) + EventsOf(items[1..])
  }

  predicate OneLine(s: string)
  {
    '\n' !in s && '\r' !in s
  }

  predicate Clean(item: Item)
  {
    item.Cycle? ==> OneLine(item.boot) && OneLine(item.data)
  }

  function Lines(item: Item): seq<string>
  {
    match item
    case Retry => ["retry: 5000"]
    case Ping => [": ping"]
    case Cycle(boot, n, data) => ["id: " + EventId(boot, n), "event: cycle", "data: " + data]
  }

  lemma PrintIsLines(item: Item)
    ensures Print(item) == Join(Lines(item), '\n') + "\n\n"
  {
    if item.Cycle? {
      var id := "id: " + EventId(item.boot, item.n);
      JoinThree(id, "event: cycle", "data: " + item.data);
      Template();
      Regroup(id, "\n", "event: cycle", "data: ", item.data);
    }
  }

  lemma Template()
    ensures "\nevent: cycle\ndata: " == "\n" + "event: cycle" + "\n" + "data: "
  {
  }

  lemma Regroup(id: string, end: string, event: string, name: string, data: string)
    ensures id + (end + event + end + name) + data == id + end + event + end + (name + data)
  {
  }

  lemma JoinThree(x: string, y: string, z: string)
    ensures Join([x, y, z], '\n') == x + "\n" + y + "\n" + z
  {
    assert [x, y, z][1..] == [y, z];
    JoinTwo(y, z);
    assert x + "\n" + (y + "\n" + z) == x + "\n" + y + "\n" + z;
  }

  predicate Solid(line: string)
  {
    line != "" && OneLine(line)
  }

  lemma LinesAreSolid(item: Item)
    requires Clean(item)
    ensures forall k :: 0 <= k < |Lines(item)| ==> Solid(Lines(item)[k])
  {
  }

  lemma {:induction false} SkipLine(line: string, s: string)
    requires '\n' !in line
    ensures FirstBlank(line + s) == match FirstBlank(s) case None => None case Some(i) => Some(|line| + i)
  {
    if line == "" {
      assert line + s == s;
    } else {
      assert (line + s)[1..] == line[1..] + s;
      SkipLine(line[1..], s);
    }
  }

  /** The first blank line after a block of non-empty lines is the one that ends it. */
  lemma {:induction false} BlockEndsAtBlank(lines: seq<string>, rest: string)
    requires |lines| > 0 && forall k :: 0 <= k < |lines| ==> Solid(lines[k])
    ensures FirstBlank(Join(lines, '\n') + "\n\n" + rest) == Some(|Join(lines, '\n')|)
  {
    var tail := "\n\n" + rest;
    if |lines| == 1 {
      assert Join(lines, '\n') + "\n\n" + rest == lines[0] + tail;
      SkipLine(lines[0], tail);
    } else {
      var inner := Join(lines[1..], '\n') + "\n\n" + rest;
      assert Join(lines, '\n') + "\n\n" + rest == lines[0] + ("\n" + inner);
      BlockEndsAtBlank(lines[1..], rest);
      assert inner[0] == lines[1][0];
      assert ("\n" + inner)[1..] == inner;
      SkipLine(lines[0], "\n" + inner);
    }
  }

  lemma ItemIsOneBlock(item: Item, rest: string)
    requires Clean(item)
    ensures CutBlocks(Print(item) + rest) == Prepend([Join(Lines(item), '\n')], CutBlocks(rest))
  {
    var block := Join(Lines(item), '\n');
    var s := block + "\n\n" + rest;
    LinesAreSolid(item);
    PrintIsLines(item);
    BlockEndsAtBlank(Lines(item), rest);
    assert Print(item) + rest == s;
    CutStep(s, |block|);
    assert s[..|block|] == block && s[|block| + 2..] == rest;
  }

  lemma FieldReads(name: string, value: string)
    requires ':' !in name
    ensures FieldName(name + ": " + value) == name && FieldValue(name + ": " + value) == value
  {
    var line := name + ": " + value;
    FindAfter(name, ':', " " + value);
    assert line == name + [':'] + (" " + value);
    assert line[..|name|] == name;
    assert line[|name| + 1..] == " " + value;
  }

  lemma ReadsOne(line: string)
    ensures ReadFields([line]) == ReadField(NO_FIELDS, line)
  {
    assert [line][..0] == [];
  }

  lemma ReadsThree(a: string, b: string, c: string)
    ensures ReadFields([a, b, c]) == ReadField(ReadField(ReadField(NO_FIELDS, a), b), c)
  {
    assert [a, b, c][..2] == [a, b];
    assert [a, b][..1] == [a];
    ReadsOne(a);
  }

  lemma IdReads(f: Fields, id: string)
    ensures ReadField(f, "id: " + id) == f.(id := Some(id))
  {
    FieldReads("id", id);
    assert "id: " + id == "id" + ": " + id;
  }

  lemma EventReads(f: Fields)
    ensures ReadField(f, "event: cycle") == f.(event := Some("cycle"))
  {
    FieldReads("event", "cycle");
    assert "event: cycle" == "event" + ": " + "cycle";
  }

  lemma DataReads(f: Fields, data: string)
    ensures ReadField(f, "data: " + data) == f.(data := f.data + [data])
  {
    FieldReads("data", data);
    assert "data: " + data == "data" + ": " + data;
  }

  lemma CycleReads(id: string, data: string)
    ensures ReadFields(["id: " + id, "event: cycle", "data: " + data]) == Fields(Some(id), Some("cycle"), [data])
  {
    ReadsThree("id: " + id, "event: cycle", "data: " + data);
    IdReads(NO_FIELDS, id);
    EventReads(Fields(Some(id), None, []));
    DataReads(Fields(Some(id), Some("cycle"), []), data);
  }

  lemma RetryReads()
    ensures ReadFields(["retry: 5000"]) == NO_FIELDS
  {
    ReadsOne("retry: 5000");
    OtherReads(NO_FIELDS, "retry", "5000");
    RetryLine();
  }

  lemma RetryLine()
    ensures "retry: 5000" == "retry" + ": " + "5000"
  {
  }

  /** A field of any other name is dropped. */
  lemma OtherReads(f: Fields, name: string, value: string)
    requires ':' !in name && name != "id" && name != "event" && name != "data"
    ensures ReadField(f, name + ": " + value) == f
  {
    FieldReads(name, value);
  }

  lemma PingReads()
    ensures ReadFields([": ping"]) == NO_FIELDS
  {
    ReadsOne(": ping");
  }

  lemma LinesRead(item: Item)
    ensures ToFrame(ReadFields(Lines(item))) == EventOf(item)
  {
    match item
    case Retry => RetryReads();
    case Ping => PingReads();
    case Cycle(boot, n, data) => CycleReads(EventId(boot, n), data);
  }

  /** Each item reads back as its own event; the preamble and the pings read as nothing. */
  lemma ItemReads(item: Item)
    requires Clean(item)
    ensures FrameOf(Join(Lines(item), '\n')) == EventOf(item)
  {
    LinesAreSolid(item);
    SplitJoin(Lines(item), '\n');
    LinesRead(item);
  }

  lemma {:induction false} StreamReads(items: seq<Item>)
    requires forall k :: 0 <= k < |items| ==> Clean(items[k])
    ensures ReadingOf(CutBlocks(PrintAll(items))) == Reading(EventsOf(items), "")
  {
    if items != [] {
      var block := Join(Lines(items[0]), '\n');
      ItemIsOneBlock(items[0], PrintAll(items[1..]));
      ItemReads(items[0]);
      StreamReads(items[1..]);
      var later := CutBlocks(PrintAll(items[1..])).blocks;
      assert ([block] + later)[1..] == later;
    }
  }

  lemma {:induction false} NormaliseIsIdle(s: string)
    requires '\r' !in s
    ensures Normalise(s) == s
  {
    if s != "" { NormaliseIsIdle(s[1..]); }
  }

  lemma {:induction false} NoCrNoCut(chunks: seq<string>)
    requires '\r' !in Concat(chunks)
    ensures !CutsCrLf(chunks)
  {
    if chunks != [] {
      var whole := Concat(chunks);
      assert forall k :: 0 <= k < |chunks[0]| ==> chunks[0][k] == whole[k];
      assert whole[|chunks[0]|..] == Concat(chunks[1..]);
      NoCrNoCut(chunks[1..]);
    }
  }

  lemma {:induction false} PrintHasNoCr(items: seq<Item>)
    requires forall k :: 0 <= k < |items| ==> Clean(items[k])
    ensures '\r' !in PrintAll(items)
  {
    if items != [] {
      ItemHasNoCr(items[0]);
      PrintHasNoCr(items[1..]);
    }
  }

  lemma ItemHasNoCr(item: Item)
    requires Clean(item)
    ensures '\r' !in Print(item)
  {
    if item.Cycle? {
      assert '\r' !in EventId(item.boot, item.n);
    }
  }

  /** The round trip: any run of cycle events with one-line data, with pings and the preamble anywhere
      between them, cut into any chunks, is parsed back as exactly those events, in order, with nothing
      left in the buffer. */
  lemma StreamRoundTrip(items: seq<Item>, chunks: seq<string>)
    requires forall k :: 0 <= k < |items| ==> Clean(items[k])
    requires Concat(chunks) == PrintAll(items)
    ensures Feed(chunks) == Reading(EventsOf(items), "")
  {
    PrintHasNoCr(items);
    NoCrNoCut(chunks);
    ChunkingIsInvisible(chunks);
    NormaliseIsIdle(PrintAll(items));
    StreamReads(items);
  }

  // ------------------------------------------------------------------ event ids

  function FindLast(s: string, c: char): (r: Option<nat>)
    ensures r.Some? ==> r.value < |s| && s[r.value] == c && c !in s[r.value + 1..]
    ensures r.None? ==> c !in s
  {
    if s == "" then None
    else if s[|s| - 1] == c then Some(|s| - 1)
    else FindLast(s[..|s| - 1], c)
  }

  /** `Number(s)` on a decimal numeral; other spellings are not read here. */
  function ToNat(s: string): Option<nat>
  {
    if s == "" || !('0' <= s[|s| - 1] <= '9') then None
    else
      var d: nat := s[|s| - 1] as int - '0' as int;
      if |s| == 1 then Some(d)
      else match ToNat(s[..|s| - 1]) case None => None case Some(n) => Some(10 * n + d)
  }

  function SplitEventId(id: string): Option<(string, nat)>
  {
    match FindLast(id, ':')
    case None => None
    case Some(c) =>
      if c == 0 then None
      else match ToNat(id[c + 1..]) case None => None case Some(n) => Some((id[..c], n))
  }

  lemma {:induction false} DecimalReads(n: nat)
    ensures ToNat(Decimal(n)) == Some(n)
  {
    if n >= 10 {
      DecimalReads(n / 10);
      var s := Decimal(n);
      assert s[..|s| - 1] == Decimal(n / 10);
    }
  }

  lemma {:induction false} FindLastBefore(a: string, c: char, b: string)
    requires c !in b
    ensures FindLast(a + [c] + b, c) == Some(|a|)
  {
    var s := a + [c] + b;
    if b != "" {
      assert s[|s| - 1] == b[|b| - 1];
      assert s[..|s| - 1] == a + [c] + b[..|b| - 1];
      FindLastBefore(a, c, b[..|b| - 1]);
    }
  }

  /** An event id gives back its boot stamp, colons and all, and its number. */
  lemma EventIdRoundTrip(boot: string, n: nat)
    requires boot != ""
    ensures SplitEventId(EventId(boot, n)) == Some((boot, n))
  {
    var id := EventId(boot, n);
    assert ':' !in Decimal(n);
    FindLastBefore(boot, ':', Decimal(n));
    assert id == boot + [':'] + Decimal(n);
    assert id[|boot| + 1..] == Decimal(n) && id[..|boot|] == boot;
    DecimalReads(n);
  }

  // ------------------------------------------------------------------ a cut inside a CRLF

  lemma BareFrame(a: string)
    requires OneLine(a)
    ensures FrameOf("data: " + a) == Some(Frame(None, None, a))
  {
    SplitJoin(["data: " + a], '\n');
    ReadsOne("data: " + a);
    DataReads(NO_FIELDS, a);
  }

  lemma TwoDataLines(a: string, b: string)
    ensures ReadFields(["data: " + a, "data: " + b]) == Fields(None, None, [a, b])
  {
    var x, y := "data: " + a, "data: " + b;
    assert [x, y][..1] == [x];
    ReadsOne(x);
    DataReads(NO_FIELDS, a);
    DataReads(Fields(None, None, [a]), b);
  }

  lemma TwoLineFrame(a: string, b: string)
    requires OneLine(a) && OneLine(b)
    ensures FrameOf(Join(["data: " + a, "data: " + b], '\n')) == Some(Frame(None, None, a + "\n" + b))
  {
    SplitJoin(["data: " + a, "data: " + b], '\n');
    TwoDataLines(a, b);
    JoinTwo(a, b);
  }

  lemma JoinTwo(x: string, y: string)
    ensures Join([x, y], '\n') == x + "\n" + y
  {
    assert [x, y][1..] == [y];
  }

  lemma CutBareBlock(lines: seq<string>, rest: string)
    requires |lines| > 0 && forall k :: 0 <= k < |lines| ==> Solid(lines[k])
    ensures CutBlocks(Join(lines, '\n') + "\n\n" + rest) == Prepend([Join(lines, '\n')], CutBlocks(rest))
  {
    var block := Join(lines, '\n');
    var s := block + "\n\n" + rest;
    BlockEndsAtBlank(lines, rest);
    CutStep(s, |block|);
    assert s[..|block|] == block && s[|block| + 2..] == rest;
  }

  lemma NormaliseEnd(x: string, ending: string)
    requires '\r' !in x
    ensures Normalise(x + ending) == x + Normalise(ending)
  {
    NormaliseSeam(x, ending);
    NormaliseIsIdle(x);
  }

  lemma Endings()
    ensures Normalise("\r") == "\n" && Normalise("\r\n\r\n") == "\n\n"
  {
    assert "\r\n\r\n"[2..] == "\r\n";
    assert "\r\n"[2..] == "";
  }

  lemma CutTwoLines(x: string, y: string)
    requires Solid(x) && Solid(y)
    ensures CutBlocks(x + "\n\n" + (y + "\n\n")) == Cut([x, y], "")
  {
    CutBareBlock([x], y + "\n\n");
    CutBareBlock([y], "");
    assert y + "\n\n" + "" == y + "\n\n";
  }

  lemma TwoFrames(a: string, b: string)
    requires OneLine(a) && OneLine(b)
    ensures FramesOf(["data: " + a, "data: " + b]) == [Frame(None, None, a), Frame(None, None, b)]
  {
    var x, y := "data: " + a, "data: " + b;
    BareFrame(a);
    BareFrame(b);
    FramesOfOneMore([], x);
    assert [] + [x] == [x];
    FramesOfOneMore([x], y);
    assert [x] + [y] == [x, y];
  }

  lemma TwoEvents(a: string, b: string)
    requires OneLine(a) && OneLine(b)
    ensures ReadingOf(CutBlocks("data: " + a + "\n\n" + "data: " + b + "\n\n")) ==
      Reading([Frame(None, None, a), Frame(None, None, b)], "")
  {
    var x, y := "data: " + a, "data: " + b;
    CutTwoLines(x, y);
    assert x + "\n\n" + (y + "\n\n") == "data: " + a + "\n\n" + "data: " + b + "\n\n";
    TwoFrames(a, b);
  }

  /** A cut inside a CRLF does matter: whatever the two lines of an event are, cutting the line end
      between them makes two events of it. */
  lemma CutCrLfSplitsTheEvent(a: string, b: string)
    requires OneLine(a) && OneLine(b)
    ensures var chunks := ["data: " + a + "\r", "\ndata: " + b + "\r\n\r\n"];
      && CutsCrLf(chunks)
      && Feed(chunks) == Reading([Frame(None, None, a), Frame(None, None, b)], "")
  {
    var first, second := "data: " + a + "\r", "\ndata: " + b + "\r\n\r\n";
    var chunks := [first, second];
    Endings();
    NormaliseEnd("data: " + a, "\r");
    NormaliseEnd("\ndata: " + b, "\r\n\r\n");
    TwoChunks(first, second);
    assert Normalise(first) + Normalise(second) == "data: " + a + "\n\n" + "data: " + b + "\n\n";
    TwoEvents(a, b);
    FeedIsCut(chunks);
  }

  lemma TwoChunks(first: string, second: string)
    ensures NormaliseEach([first, second]) == Normalise(first) + Normalise(second)
    ensures Concat([first, second]) == first + second
    ensures EndsInCr(first) && StartsWithLf(second) ==> CutsCrLf([first, second])
  {
    assert [first, second][1..] == [second];
    assert [second][1..] == [];
    assert Concat([second]) == second;
    assert NormaliseEach([second]) == Normalise(second);
  }

  lemma WholeText(a: string, b: string)
    requires OneLine(a) && OneLine(b)
    ensures Normalise("data: " + a + "\r\ndata: " + b + "\r\n\r\n") ==
      Join(["data: " + a, "data: " + b], '\n') + "\n\n"
  {
    var x, y := "data: " + a, "data: " + b;
    var later := y + "\r\n\r\n";
    Endings();
    NormaliseEnd(y, "\r\n\r\n");
    assert ("\r\n" + later)[2..] == later;
    NormaliseEnd(x, "\r\n" + later);
    JoinTwo(x, y);
    assert "data: " + a + "\r\ndata: " + b + "\r\n\r\n" == x + ("\r\n" + later);
  }

  /** Delivered in one piece, the same text is one event of two data lines. */
  lemma WholeEventIsOne(a: string, b: string)
    requires OneLine(a) && OneLine(b)
    ensures Feed(["data: " + a + "\r\ndata: " + b + "\r\n\r\n"]) == Reading([Frame(None, None, a + "\n" + b)], "")
  {
    var whole := "data: " + a + "\r\ndata: " + b + "\r\n\r\n";
    var block := Join(["data: " + a, "data: " + b], '\n');
    WholeText(a, b);
    CutBareBlock(["data: " + a, "data: " + b], "");
    assert block + "\n\n" + "" == block + "\n\n";
    TwoLineFrame(a, b);
    FramesOfOneMore([], block);
    OneChunk(whole);
    FeedIsCut([whole]);
  }

  lemma OneChunk(whole: string)
    ensures NormaliseEach([whole]) == Normalise(whole)
  {
    assert [whole][1..] == [];
  }
}
