/** The watchdog's alert machine (monitor/src/status.ts): edge-triggered notices, repeats and
    recoveries over a map of what is firing. Message text is left out; a notice is its key, kind,
    time and severity. */
module Alerts {
  import opened Wrappers

  datatype Severity = Critical | Warning

  datatype Finding = Finding(key: string, severity: Severity, vault: Option<string>, detail: string)

  datatype Alarm = Alarm(onset: int, last: int, f: Finding)

  datatype Kind = Onset | Escalation | Repeat | Recovery

  datatype Notice = Notice(key: string, kind: Kind, at: int, severity: Severity)

  /** What one check cycle found, and what it managed to check. */
  datatype Cycle = Cycle(findings: seq<Finding>, checked: set<string>, gasOk: bool, cycleOk: bool, now: int)

  /** The firing map in insertion order, and every notice sent. */
  datatype Board = Board(order: seq<string>, firing: map<string, Alarm>, sent: seq<Notice>)

  const RPC_FAILING := "monitor-rpc-failing"

  predicate OfVault(f: Finding)
  {
    f.vault.Some? && f.vault.value != ""
  }

  function FiringKey(f: Finding): string
  {
    if OfVault(f) then f.vault.value + ":" + f.key else f.key
  }

  /** A finding may resolve only on a cycle that checked what it is about. */
  predicate Resolvable(k: string, f: Finding, c: Cycle)
  {
    if OfVault(f) then f.vault.value in c.checked
    else if k == "gas" then c.gasOk
    else c.cycleOk
  }

  // ------------------------------------------------------------------ one cycle

  function Found(b: Board, f: Finding, realertSecs: int, now: int): Board
  {
    var k := FiringKey(f);
    if k !in b.firing then
      Board(b.order + [k], b.firing[k := Alarm(now, now, f)], b.sent + [Notice(k, Onset, now, f.severity)])
    else
      var prev := b.firing[k];
      if prev.f.severity != f.severity then
        Board(b.order, b.firing[k := Alarm(prev.onset, now, f)], b.sent + [Notice(k, Escalation, now, f.severity)])
      else if now - prev.last >= realertSecs then
        Board(b.order, b.firing[k := Alarm(prev.onset, now, f)], b.sent + [Notice(k, Repeat, now, f.severity)])
      else Board(b.order, b.firing[k := Alarm(prev.onset, prev.last, f)], b.sent)
  }

  function FoundAll(b: Board, fs: seq<Finding>, realertSecs: int, now: int): Board
  {
    if fs == [] then b
    else Found(FoundAll(b, fs[..|fs| - 1], realertSecs, now), fs[|fs| - 1], realertSecs, now)
  }

  function KeysOf(fs: seq<Finding>): set<string>
  {
    set f | f in fs :: FiringKey(f)
  }

  function Without(order: seq<string>, k: string): seq<string>
  {
    if order == [] then []
    else if order[0] == k then order[1..]
    else [order[0]] + Without(order[1..], k)
  }

  predicate Clears(b: Board, k: string, seen: set<string>, c: Cycle)
  {
    k in b.firing && k !in seen && Resolvable(k, b.firing[k].f, c)
  }

  function Cleared(b: Board, k: string, seen: set<string>, c: Cycle): Board
  {
    if !Clears(b, k, seen, c) then b
    else Board(Without(b.order, k), b.firing - {k}, b.sent + [Notice(k, Recovery, c.now, b.firing[k].f.severity)])
  }

  function ClearedAll(b: Board, keys: seq<string>, seen: set<string>, c: Cycle): Board
  {
    if keys == [] then b else Cleared(ClearedAll(b, keys[..|keys| - 1], seen, c), keys[|keys| - 1], seen, c)
  }

  function Reconciled(b: Board, c: Cycle, realertSecs: int): Board
  {
    var found := FoundAll(b, c.findings, realertSecs, c.now);
    ClearedAll(found, found.order, KeysOf(c.findings), c)
  }

  // ------------------------------------------------------------------ what a trace of notices says

  function Trace(sent: seq<Notice>, k: string): seq<Notice>
  {
    if sent == [] then []
    else
      var n := sent[|sent| - 1];
      Trace(sent[..|sent| - 1], k) + if n.key == k then [n] else []
  }

  /** Reading one key's notices: nothing firing, or firing since its onset, last heard of at some time
      with some severity. A notice that cannot come next makes the trace illegal. */
  datatype Told = Silent | Firing(onset: int, last: int, severity: Severity) | Illegal

  function Hear(t: Told, n: Notice, realertSecs: int): Told
  {
    match n.kind
    case Onset => if t.Silent? then Firing(n.at, n.at, n.severity) else Illegal
    case Escalation => if t.Firing? && n.severity != t.severity then Firing(t.onset, n.at, n.severity) else Illegal
    case Repeat =>
      if t.Firing? && n.severity == t.severity && n.at - t.last >= realertSecs
      then Firing(t.onset, n.at, n.severity)
      else Illegal
    case Recovery => if t.Firing? && n.severity == t.severity then Silent else Illegal
  }

  function Listen(trace: seq<Notice>, realertSecs: int): Told
  {
    if trace == [] then Silent
    else Hear(Listen(trace[..|trace| - 1], realertSecs), trace[|trace| - 1], realertSecs)
  }

  /** The trace of one key, in so many words: it opens with an onset, and an onset follows a recovery and
      nothing else does; a repeat is at least the re-alert time after the notice before it. */
  predicate WellFormed(trace: seq<Notice>, realertSecs: int)
  {
    forall i :: 0 <= i < |trace| ==> InPlace(trace, i, realertSecs)
  }

  predicate InPlace(trace: seq<Notice>, i: nat, realertSecs: int)
    requires i < |trace|
  {
    && (trace[i].kind == Onset <==> i == 0 || trace[i - 1].kind == Recovery)
    && (trace[i].kind == Repeat ==> i > 0 && trace[i].at - trace[i - 1].at >= realertSecs)
  }

  /** A legal trace has that shape, is firing unless it ends in a recovery, and remembers its last notice. */
  lemma {:induction false} LegalIsWellFormed(trace: seq<Notice>, realertSecs: int)
    requires !Listen(trace, realertSecs).Illegal?
    ensures WellFormed(trace, realertSecs)
    ensures var t := Listen(trace, realertSecs);
      && (t.Firing? <==> trace != [] && trace[|trace| - 1].kind != Recovery)
      && (t.Firing? ==> t.last == trace[|trace| - 1].at)
      && (t.Firing? ==> exists i :: IsLastOnset(trace, i) && trace[i].at == t.onset)
  {
    if trace != [] {
      var n := |trace| - 1;
      var before := trace[..n];
      LegalIsWellFormed(before, realertSecs);
      assert n > 0 ==> trace[n - 1] == before[n - 1];
      assert forall i :: 0 <= i < n ==> trace[i] == before[i];
      ShapeGrows(trace, realertSecs);
      if Listen(trace, realertSecs).Firing? {
        if trace[n].kind == Onset {
          assert IsLastOnset(trace, n);
        } else {
          var i :| IsLastOnset(before, i) && before[i].at == Listen(before, realertSecs).onset;
          assert IsLastOnset(trace, i);
        }
      }
    }
  }

  lemma ShapeGrows(trace: seq<Notice>, realertSecs: int)
    requires trace != [] && WellFormed(trace[..|trace| - 1], realertSecs) && InPlace(trace, |trace| - 1, realertSecs)
    ensures WellFormed(trace, realertSecs)
  {
    var before := trace[..|trace| - 1];
    forall i: nat | i < |before| ensures InPlace(trace, i, realertSecs) {
      assert InPlace(before, i, realertSecs);
    }
  }

  predicate IsLastOnset(trace: seq<Notice>, i: int)
  {
    0 <= i < |trace| && trace[i].kind == Onset && forall j :: i < j < |trace| ==> trace[j].kind != Onset
  }

  function ToldOf(b: Board, k: string): Told
  {
    if k in b.firing then Firing(b.firing[k].onset, b.firing[k].last, b.firing[k].f.severity) else Silent
  }

  function CountOf(sent: seq<Notice>, kind: Kind): nat
  {
    if sent == [] then 0
    else CountOf(sent[..|sent| - 1], kind) + if sent[|sent| - 1].kind == kind then 1 else 0
  }

  /** Every key's notices are legal and tell exactly what is firing. */
  ghost predicate TellsTruth(b: Board, realertSecs: int)
  {
    forall k :: Listen(Trace(b.sent, k), realertSecs) == ToldOf(b, k)
  }

  predicate Tallies(b: Board)
  {
    CountOf(b.sent, Onset) - CountOf(b.sent, Recovery) == |b.firing|
  }

  ghost predicate Keyed(b: Board)
  {
    && (forall k :: k in b.firing ==> FiringKey(b.firing[k].f) == k)
    && (forall k :: k in b.order <==> k in b.firing)
    && (forall i, j :: 0 <= i < j < |b.order| ==> b.order[i] != b.order[j])
  }

  ghost predicate Good(b: Board, realertSecs: int)
  {
    TellsTruth(b, realertSecs) && Tallies(b) && Keyed(b)
  }

  // ------------------------------------------------------------------ keeping it

  lemma OneMore(sent: seq<Notice>, n: Notice, k: string, realertSecs: int)
    ensures Listen(Trace(sent + [n], k), realertSecs) ==
      var heard := Listen(Trace(sent, k), realertSecs);
      if n.key == k then Hear(heard, n, realertSecs) else heard
  {
    assert (sent + [n])[..|sent|] == sent;
    var t := Trace(sent, k);
    if n.key == k {
      assert (t + [n])[..|t|] == t;
    } else {
      assert t + [] == t;
    }
  }

  lemma OneMoreCount(sent: seq<Notice>, n: Notice, kind: Kind)
    ensures CountOf(sent + [n], kind) == CountOf(sent, kind) + if n.kind == kind then 1 else 0
  {
    assert (sent + [n])[..|sent|] == sent;
  }

  /** A board that changes at one key, by one notice heard as that change, still tells the truth. */
  lemma TruthMoves(b: Board, b': Board, n: Notice, realertSecs: int)
    requires TellsTruth(b, realertSecs) && b'.sent == b.sent + [n]
    requires forall k :: k != n.key ==> ToldOf(b', k) == ToldOf(b, k)
    requires ToldOf(b', n.key) == Hear(ToldOf(b, n.key), n, realertSecs)
    ensures TellsTruth(b', realertSecs)
  {
    forall k ensures Listen(Trace(b'.sent, k), realertSecs) == ToldOf(b', k) {
      OneMore(b.sent, n, k, realertSecs);
    }
  }

  lemma FoundIsTrue(b: Board, f: Finding, realertSecs: int, now: int)
    requires TellsTruth(b, realertSecs)
    ensures TellsTruth(Found(b, f, realertSecs, now), realertSecs)
  {
    var b' := Found(b, f, realertSecs, now);
    if b'.sent != b.sent {
      TruthMoves(b, b', b'.sent[|b.sent|], realertSecs);
    } else {
      assert forall k :: ToldOf(b', k) == ToldOf(b, k);
    }
  }

  lemma FoundTallies(b: Board, f: Finding, realertSecs: int, now: int)
    requires Tallies(b)
    ensures Tallies(Found(b, f, realertSecs, now))
  {
    var k := FiringKey(f);
    var n0 := Notice(k, Onset, now, f.severity);
    var n1 := Notice(k, Escalation, now, f.severity);
    var n2 := Notice(k, Repeat, now, f.severity);
    OneMoreCount(b.sent, n0, Onset);
    OneMoreCount(b.sent, n0, Recovery);
    OneMoreCount(b.sent, n1, Onset);
    OneMoreCount(b.sent, n1, Recovery);
    OneMoreCount(b.sent, n2, Onset);
    OneMoreCount(b.sent, n2, Recovery);
  }

  lemma FoundIsKeyed(b: Board, f: Finding, realertSecs: int, now: int)
    requires Keyed(b)
    ensures Keyed(Found(b, f, realertSecs, now))
    ensures forall k :: k in Found(b, f, realertSecs, now).firing <==> k in b.firing || k == FiringKey(f)
  {
  }

  lemma {:induction false} FoundAllIsGood(b: Board, fs: seq<Finding>, realertSecs: int, now: int)
    requires Good(b, realertSecs)
    ensures Good(FoundAll(b, fs, realertSecs, now), realertSecs)
  {
    if fs != [] {
      var before := FoundAll(b, fs[..|fs| - 1], realertSecs, now);
      var f := fs[|fs| - 1];
      FoundAllIsGood(b, fs[..|fs| - 1], realertSecs, now);
      FoundIsTrue(before, f, realertSecs, now);
      FoundTallies(before, f, realertSecs, now);
      FoundIsKeyed(before, f, realertSecs, now);
    }
  }

  predicate NoRepeats(order: seq<string>)
  {
    forall i, j :: 0 <= i < j < |order| ==> order[i] != order[j]
  }

  lemma {:induction false} WithoutDrops(order: seq<string>, k: string)
    requires NoRepeats(order)
    ensures NoRepeats(Without(order, k)) && forall x :: x in Without(order, k) <==> x in order && x != k
  {
    if order != [] {
      WithoutDrops(order[1..], k);
      assert forall x :: x in order <==> x == order[0] || x in order[1..];
      if order[0] != k {
        var w := Without(order[1..], k);
        assert forall x :: x in [order[0]] + w <==> x == order[0] || x in w;
        assert order[0] !in order[1..];
      }
    }
  }

  lemma ClearedIsTrue(b: Board, k: string, seen: set<string>, c: Cycle, realertSecs: int)
    requires TellsTruth(b, realertSecs)
    ensures TellsTruth(Cleared(b, k, seen, c), realertSecs)
  {
    if Clears(b, k, seen, c) {
      TruthMoves(b, Cleared(b, k, seen, c), Notice(k, Recovery, c.now, b.firing[k].f.severity), realertSecs);
    }
  }

  lemma ClearedTallies(b: Board, k: string, seen: set<string>, c: Cycle)
    requires Tallies(b)
    ensures Tallies(Cleared(b, k, seen, c))
  {
    if Clears(b, k, seen, c) {
      var n := Notice(k, Recovery, c.now, b.firing[k].f.severity);
      OneMoreCount(b.sent, n, Onset);
      OneMoreCount(b.sent, n, Recovery);
      assert (b.firing - {k}).Keys == b.firing.Keys - {k};
      SizeIsKeys(b.firing);
      SizeIsKeys(b.firing - {k});
    }
  }

  lemma SizeIsKeys(m: map<string, Alarm>)
    ensures |m| == |m.Keys|
  {
  }

  lemma ClearedIsKeyed(b: Board, k: string, seen: set<string>, c: Cycle)
    requires Keyed(b)
    ensures Keyed(Cleared(b, k, seen, c))
  {
    WithoutDrops(b.order, k);
  }

  lemma {:induction false} ClearedAllIsGood(b: Board, keys: seq<string>, seen: set<string>, c: Cycle, realertSecs: int)
    requires Good(b, realertSecs)
    ensures Good(ClearedAll(b, keys, seen, c), realertSecs)
  {
    if keys != [] {
      var before := ClearedAll(b, keys[..|keys| - 1], seen, c);
      var k := keys[|keys| - 1];
      ClearedAllIsGood(b, keys[..|keys| - 1], seen, c, realertSecs);
      ClearedIsTrue(before, k, seen, c, realertSecs);
      ClearedTallies(before, k, seen, c);
      ClearedIsKeyed(before, k, seen, c);
    }
  }

  // ------------------------------------------------------------------ what one cycle decides

  lemma {:induction false} FoundAllFires(b: Board, fs: seq<Finding>, realertSecs: int, now: int, k: string)
    ensures var b' := FoundAll(b, fs, realertSecs, now);
      && (k in b'.firing <==> k in b.firing || k in KeysOf(fs))
      && (k !in KeysOf(fs) && k in b.firing ==> b'.firing[k] == b.firing[k])
  {
    if fs != [] {
      var f := fs[|fs| - 1];
      FoundAllFires(b, fs[..|fs| - 1], realertSecs, now, k);
      KeysOfLast(fs);
    }
  }

  lemma KeysOfLast(fs: seq<Finding>)
    requires fs != []
    ensures KeysOf(fs) == KeysOf(fs[..|fs| - 1]) + {FiringKey(fs[|fs| - 1])}
  {
    var f := fs[|fs| - 1];
    assert fs == fs[..|fs| - 1] + [f];
  }

  lemma {:induction false} ClearedAllFires(b: Board, keys: seq<string>, seen: set<string>, c: Cycle, k: string)
    ensures var b' := ClearedAll(b, keys, seen, c);
      && (k in b'.firing <==> k in b.firing && !(k in keys && Clears(b, k, seen, c)))
      && (k in b'.firing ==> b'.firing[k] == b.firing[k])
  {
    if keys != [] {
      ClearedAllFires(b, keys[..|keys| - 1], seen, c, k);
      ClearedAllFires(b, keys[..|keys| - 1], seen, c, keys[|keys| - 1]);
      assert k in keys <==> k in keys[..|keys| - 1] || k == keys[|keys| - 1] by {
        assert keys == keys[..|keys| - 1] + [keys[|keys| - 1]];
      }
    }
  }

  /** After a cycle a key is firing exactly when the cycle found it, or it was firing already and the
      cycle did not check it: unknown is not clear. */
  lemma UnknownIsNotClear(b: Board, c: Cycle, realertSecs: int, k: string)
    requires Keyed(b)
    ensures k in Reconciled(b, c, realertSecs).firing <==>
      k in KeysOf(c.findings) || (k in b.firing && !Resolvable(k, b.firing[k].f, c))
  {
    var found := FoundAll(b, c.findings, realertSecs, c.now);
    FoundAllFires(b, c.findings, realertSecs, c.now, k);
    FoundAllIsKeyed(b, c.findings, realertSecs, c.now);
    ClearedAllFires(found, found.order, KeysOf(c.findings), c, k);
  }

  lemma {:induction false} FoundAllIsKeyed(b: Board, fs: seq<Finding>, realertSecs: int, now: int)
    requires Keyed(b)
    ensures Keyed(FoundAll(b, fs, realertSecs, now))
  {
    if fs != [] {
      FoundAllIsKeyed(b, fs[..|fs| - 1], realertSecs, now);
      FoundIsKeyed(FoundAll(b, fs[..|fs| - 1], realertSecs, now), fs[|fs| - 1], realertSecs, now);
    }
  }

  // ------------------------------------------------------------------ on the cycle's own fields

  /** Inside one vault two findings are one alarm exactly when they are of one key; vaults do not share alarms,
      nor with the fleet's, whose keys have no colon. */
  lemma KeysTellApart(f: Finding, g: Finding)
    ensures OfVault(f) && OfVault(g) && f.vault == g.vault ==> (FiringKey(f) == FiringKey(g) <==> f.key == g.key)
    ensures !OfVault(f) && !OfVault(g) ==> (FiringKey(f) == FiringKey(g) <==> f.key == g.key)
    ensures OfVault(f) && !OfVault(g) && ':' !in g.key ==> FiringKey(f) != FiringKey(g)
    ensures OfVault(f) && OfVault(g) && ':' !in f.vault.value && ':' !in g.vault.value && f.vault != g.vault ==>
      FiringKey(f) != FiringKey(g)
  {
    if OfVault(f) && OfVault(g) { PrefixesTellApart(f.vault.value, f.key, g.vault.value, g.key); }
    if OfVault(f) { VaultKeyHasColon(f); }
  }

  lemma PrefixesTellApart(v: string, k: string, w: string, l: string)
    ensures v == w && v + ":" + k == w + ":" + l ==> k == l
    ensures ':' !in v && ':' !in w && v + ":" + k == w + ":" + l ==> v == w
  {
    var a, b := v + ":" + k, w + ":" + l;
    assert a[|v| + 1..] == k && b[|w| + 1..] == l;
    assert a[..|v|] == v && b[..|w|] == w && a[|v|] == ':' && b[|w|] == ':';
    if |v| < |w| && ':' !in w { assert b[|v|] == w[|v|] && w[|v|] != a[|v|]; }
    if |w| < |v| && ':' !in v { assert a[|w|] == v[|w|] && v[|w|] != b[|w|]; }
  }

  function Recoveries(sent: seq<Notice>, k: string): nat
  {
    CountOf(Trace(sent, k), Recovery)
  }

  lemma RecoveriesOneMore(sent: seq<Notice>, n: Notice, k: string)
    ensures Recoveries(sent + [n], k) == Recoveries(sent, k) + if n.key == k && n.kind == Recovery then 1 else 0
  {
    assert (sent + [n])[..|sent|] == sent;
    var t := Trace(sent, k);
    if n.key == k { OneMoreCount(t, n, Recovery); } else { assert t + [] == t; }
  }

  lemma {:induction false} FindingRecoversNothing(b: Board, fs: seq<Finding>, realertSecs: int, now: int, k: string)
    ensures Recoveries(FoundAll(b, fs, realertSecs, now).sent, k) == Recoveries(b.sent, k)
  {
    if fs != [] {
      var before, f := FoundAll(b, fs[..|fs| - 1], realertSecs, now), fs[|fs| - 1];
      FindingRecoversNothing(b, fs[..|fs| - 1], realertSecs, now, k);
      RecoveriesOneMore(before.sent, Notice(FiringKey(f), Onset, now, f.severity), k);
      RecoveriesOneMore(before.sent, Notice(FiringKey(f), Escalation, now, f.severity), k);
      RecoveriesOneMore(before.sent, Notice(FiringKey(f), Repeat, now, f.severity), k);
    }
  }

  lemma {:induction false} ClearingRecovers(b: Board, keys: seq<string>, seen: set<string>, c: Cycle, k: string)
    requires NoRepeats(keys)
    ensures Recoveries(ClearedAll(b, keys, seen, c).sent, k)
         == Recoveries(b.sent, k) + if k in keys && Clears(b, k, seen, c) then 1 else 0
  {
    if keys != [] {
      var front, last := keys[..|keys| - 1], keys[|keys| - 1];
      var before := ClearedAll(b, front, seen, c);
      ClearingRecovers(b, front, seen, c, k);
      ClearedAllFires(b, front, seen, c, last);
      assert keys == front + [last] && last !in front;
      if Clears(before, last, seen, c) {
        RecoveriesOneMore(before.sent, Notice(last, Recovery, c.now, before.firing[last].f.severity), k);
      }
    }
  }

  /** What a cycle does to an alarm it did not find again, by whether `looked` says it checked what that is about. */
  predicate Settled(b: Board, after: Board, k: string, looked: bool)
  {
    && (k in after.firing <==> !looked)
    && Recoveries(after.sent, k) == Recoveries(b.sent, k) + if looked then 1 else 0
  }

  lemma Settles(b: Board, c: Cycle, realertSecs: int, k: string)
    requires Keyed(b) && k in b.firing
    ensures var after := Reconciled(b, c, realertSecs);
      if k in KeysOf(c.findings) then k in after.firing && Recoveries(after.sent, k) == Recoveries(b.sent, k)
      else Settled(b, after, k, Resolvable(k, b.firing[k].f, c))
  {
    var found := FoundAll(b, c.findings, realertSecs, c.now);
    UnknownIsNotClear(b, c, realertSecs, k);
    FoundAllFires(b, c.findings, realertSecs, c.now, k);
    FoundAllIsKeyed(b, c.findings, realertSecs, c.now);
    FindingRecoversNothing(b, c.findings, realertSecs, c.now, k);
    ClearingRecovers(found, found.order, KeysOf(c.findings), c, k);
  }

  /** A vault's alarm that is not found again is gone, with one recovery, if that vault was checked; if it was not,
      it goes on firing in silence. Gas goes by the gas read, and any other of the fleet's by the cycle. */
  lemma OnlyCheckedRecovers(b: Board, c: Cycle, realertSecs: int, k: string)
    requires Keyed(b) && k in b.firing && k !in KeysOf(c.findings)
    ensures var after := Reconciled(b, c, realertSecs);
      match b.firing[k].f.vault
      case Some(v) => v != "" ==> Settled(b, after, k, v in c.checked)
      case None => Settled(b, after, k, if k == "gas" then c.gasOk else c.cycleOk)
    ensures b.firing[k].f.vault == Some("") ==>
      Settled(b, Reconciled(b, c, realertSecs), k, if k == "gas" then c.gasOk else c.cycleOk)
  {
    Settles(b, c, realertSecs, k);
  }

  /** What was found in a cycle is firing after it with the detail and severity just seen, and was told of within
      the re-alert time, now at the latest; and a change of severity is told at once. */
  lemma FindingIsTold(b: Board, f: Finding, realertSecs: int, now: int)
    requires realertSecs > 0
    ensures var k := FiringKey(f); var after := Found(b, f, realertSecs, now);
      && k in after.firing && after.firing[k].f == f
      && now - after.firing[k].last < realertSecs
      && (k !in b.firing ==> after.firing[k].onset == now)
      && (k in b.firing ==> after.firing[k].onset == b.firing[k].onset)
      && (k !in b.firing || b.firing[k].f.severity != f.severity ==> after.firing[k].last == now)
  {
  }

  lemma {:induction false} FoundIsTold(b: Board, fs: seq<Finding>, realertSecs: int, now: int, k: string)
    requires realertSecs > 0 && k in KeysOf(fs)
    ensures var after := FoundAll(b, fs, realertSecs, now);
      k in after.firing && now - after.firing[k].last < realertSecs
  {
    KeysOfLast(fs);
    var f := fs[|fs| - 1];
    FindingIsTold(FoundAll(b, fs[..|fs| - 1], realertSecs, now), f, realertSecs, now);
    if FiringKey(f) != k { FoundIsTold(b, fs[..|fs| - 1], realertSecs, now, k); }
  }

  /** So after every cycle, no alarm it found is one that has kept silent for the re-alert time. */
  lemma NoLongSilence(b: Board, c: Cycle, realertSecs: int, k: string)
    requires Keyed(b) && realertSecs > 0 && k in KeysOf(c.findings)
    ensures var after := Reconciled(b, c, realertSecs);
      k in after.firing && c.now - after.firing[k].last < realertSecs
  {
    var found := FoundAll(b, c.findings, realertSecs, c.now);
    UnknownIsNotClear(b, c, realertSecs, k);
    FoundIsTold(b, c.findings, realertSecs, c.now, k);
    ClearedAllFires(found, found.order, KeysOf(c.findings), c, k);
  }

  // ------------------------------------------------------------------ every run

  /** The watchdog across cycles: the board and the run of failed cycles. */
  datatype Watch = Watch(board: Board, failures: nat)

  /** One cycle as the loop runs it: what was found, before the watchdog's own finding is added. */
  function NoteFailures(failures: nat, ok: bool): nat
  {
    if ok then 0 else failures + 1
  }

  function RpcFinding(failures: nat, alertAfter: int): seq<Finding>
  {
    if alertAfter <= 0 || failures < alertAfter then [] else [Finding(RPC_FAILING, Critical, None, "")]
  }

  function CycleStep(w: Watch, c: Cycle, realertSecs: int, alertAfter: int): Watch
  {
    var failures := NoteFailures(w.failures, c.cycleOk);
    Watch(Reconciled(w.board, c.(findings := c.findings + RpcFinding(failures, alertAfter)), realertSecs), failures)
  }

  function RunOf(cycles: seq<Cycle>, realertSecs: int, alertAfter: int): Watch
  {
    if cycles == [] then Watch(Board([], map[], []), 0)
    else
      var before := RunOf(cycles[..|cycles| - 1], realertSecs, alertAfter);
      CycleStep(before, cycles[|cycles| - 1], realertSecs, alertAfter)
  }

  /** Over any run of cycles: each key's notices read (onset (escalation | repeat)* recovery)*, a repeat
      comes no sooner than the re-alert time after that key's last notice, the onset kept with an alarm
      is the time of its onset notice, and onsets less recoveries is the number of alarms firing. */
  lemma {:induction false} EveryRunTellsTruth(cycles: seq<Cycle>, realertSecs: int, alertAfter: int)
    ensures Good(RunOf(cycles, realertSecs, alertAfter).board, realertSecs)
  {
    if cycles == [] {
      NothingYet(realertSecs);
    } else {
      var w := RunOf(cycles[..|cycles| - 1], realertSecs, alertAfter);
      EveryRunTellsTruth(cycles[..|cycles| - 1], realertSecs, alertAfter);
      var c := cycles[|cycles| - 1];
      var c' := c.(findings := c.findings + RpcFinding(NoteFailures(w.failures, c.cycleOk), alertAfter));
      ReconciledIsGood(w.board, c', realertSecs);
    }
  }

  lemma NothingYet(realertSecs: int)
    ensures Good(Board([], map[], []), realertSecs)
  {
  }

  lemma ReconciledIsGood(b: Board, c: Cycle, realertSecs: int)
    requires Good(b, realertSecs)
    ensures Good(Reconciled(b, c, realertSecs), realertSecs)
  {
    var found := FoundAll(b, c.findings, realertSecs, c.now);
    FoundAllIsGood(b, c.findings, realertSecs, c.now);
    ClearedAllIsGood(found, found.order, KeysOf(c.findings), c, realertSecs);
  }

  predicate LastFailed(cycles: seq<Cycle>, n: nat)
  {
    n <= |cycles| && forall i :: |cycles| - n <= i < |cycles| ==> !cycles[i].cycleOk
  }

  /** The failure count is the length of the run of failed cycles that ends the history. */
  lemma {:induction false} FailuresAreTheStreak(cycles: seq<Cycle>, realertSecs: int, alertAfter: int, n: nat)
    ensures n <= RunOf(cycles, realertSecs, alertAfter).failures <==> LastFailed(cycles, n)
  {
    if cycles != [] && n > 0 {
      var before := cycles[..|cycles| - 1];
      FailuresAreTheStreak(before, realertSecs, alertAfter, n - 1);
      assert forall i :: 0 <= i < |before| ==> before[i] == cycles[i];
    }
  }

  predicate OthersOnly(c: Cycle)
  {
    RPC_FAILING !in KeysOf(c.findings)
  }

  /** The watchdog's own alarm is firing exactly while at least that many cycles in a row, up to now,
      have failed: never sooner, and gone with the first cycle that completes. */
  lemma {:induction false} RpcAlarmIsTheStreak(cycles: seq<Cycle>, realertSecs: int, alertAfter: int)
    requires forall i :: 0 <= i < |cycles| ==> OthersOnly(cycles[i])
    ensures RPC_FAILING in RunOf(cycles, realertSecs, alertAfter).board.firing <==>
      alertAfter > 0 && LastFailed(cycles, alertAfter)
  {
    if alertAfter > 0 { FailuresAreTheStreak(cycles, realertSecs, alertAfter, alertAfter); }
    RpcAlarmFollowsCount(cycles, realertSecs, alertAfter);
  }

  lemma {:induction false} RpcAlarmFollowsCount(cycles: seq<Cycle>, realertSecs: int, alertAfter: int)
    requires forall i :: 0 <= i < |cycles| ==> OthersOnly(cycles[i])
    ensures RPC_FAILING in RunOf(cycles, realertSecs, alertAfter).board.firing <==>
      alertAfter > 0 && RunOf(cycles, realertSecs, alertAfter).failures >= alertAfter
  {
    if cycles != [] {
      var before := cycles[..|cycles| - 1];
      RpcAlarmFollowsCount(before, realertSecs, alertAfter);
      EveryRunTellsTruth(before, realertSecs, alertAfter);
      RpcAlarmStep(RunOf(before, realertSecs, alertAfter), cycles[|cycles| - 1], realertSecs, alertAfter);
    }
  }

  lemma RpcAlarmStep(w: Watch, c: Cycle, realertSecs: int, alertAfter: int)
    requires Keyed(w.board) && OthersOnly(c)
    requires RPC_FAILING in w.board.firing <==> alertAfter > 0 && w.failures >= alertAfter
    ensures var w' := CycleStep(w, c, realertSecs, alertAfter);
      RPC_FAILING in w'.board.firing <==> alertAfter > 0 && w'.failures >= alertAfter
  {
    var own := RpcFinding(NoteFailures(w.failures, c.cycleOk), alertAfter);
    var c' := c.(findings := c.findings + own);
    OwnKey(c.findings, own);
    if RPC_FAILING in w.board.firing { OwnAlarmIsGlobal(w.board.firing[RPC_FAILING].f); }
    UnknownIsNotClear(w.board, c', realertSecs, RPC_FAILING);
  }

  lemma VaultKeyHasColon(f: Finding)
    requires OfVault(f)
    ensures ':' in FiringKey(f)
  {
    assert FiringKey(f)[|f.vault.value|] == ':';
  }

  /** A vault's key has a colon in it, so it is never the watchdog's own. */
  lemma OwnAlarmIsGlobal(f: Finding)
    requires FiringKey(f) == RPC_FAILING
    ensures !OfVault(f)
  {
    assert ':' !in RPC_FAILING;
    if OfVault(f) { VaultKeyHasColon(f); }
  }

  lemma OwnKey(fs: seq<Finding>, own: seq<Finding>)
    requires RPC_FAILING !in KeysOf(fs)
    requires own == [] || own == [Finding(RPC_FAILING, Critical, None, "")]
    ensures RPC_FAILING in KeysOf(fs + own) <==> own != []
  {
    if own == [] {
      assert fs + own == fs;
    } else {
      assert (fs + own)[|fs|] == own[0];
      assert FiringKey(own[0]) == RPC_FAILING;
    }
  }

  // ------------------------------------------------------------------ a vault nobody checks

  /** An alarm of this vault. */
  predicate FiresFor(b: Board, k: string, v: string)
  {
    k in b.firing && b.firing[k].f.vault == Some(v)
  }

  predicate Untouched(c: Cycle, k: string, v: string)
  {
    v !in c.checked && k !in KeysOf(c.findings)
  }

  lemma UncheckedStep(w: Watch, c: Cycle, realertSecs: int, alertAfter: int, k: string, v: string)
    requires Keyed(w.board) && v != "" && FiresFor(w.board, k, v) && Untouched(c, k, v)
    ensures var w' := CycleStep(w, c, realertSecs, alertAfter);
      FiresFor(w'.board, k, v) && Recoveries(w'.board.sent, k) == Recoveries(w.board.sent, k)
  {
    var own := RpcFinding(NoteFailures(w.failures, c.cycleOk), alertAfter);
    var c' := c.(findings := c.findings + own);
    assert FiringKey(w.board.firing[k].f) == k;
    VaultKeyHasColon(w.board.firing[k].f);
    OwnAlarmHasNoColon(c.findings, own, k);
    OnlyCheckedRecovers(w.board, c', realertSecs, k);
    var found := FoundAll(w.board, c'.findings, realertSecs, c.now);
    FoundAllFires(w.board, c'.findings, realertSecs, c.now, k);
    ClearedAllFires(found, found.order, KeysOf(c'.findings), c', k);
  }

  lemma OwnAlarmHasNoColon(fs: seq<Finding>, own: seq<Finding>, k: string)
    requires k !in KeysOf(fs) && ':' in k
    requires own == [] || own == [Finding(RPC_FAILING, Critical, None, "")]
    ensures k !in KeysOf(fs + own)
  {
    assert ':' !in RPC_FAILING;
    if own == [] {
      assert fs + own == fs;
    } else {
      assert FiringKey(own[0]) == RPC_FAILING;
      forall f | f in fs + own ensures FiringKey(f) != k {
        if f !in fs { assert f == own[0]; }
      }
    }
  }

  lemma OneMoreCycle(cycles: seq<Cycle>, c: Cycle, realertSecs: int, alertAfter: int)
    ensures RunOf(cycles + [c], realertSecs, alertAfter)
         == CycleStep(RunOf(cycles, realertSecs, alertAfter), c, realertSecs, alertAfter)
  {
    assert (cycles + [c])[..|cycles|] == cycles;
  }

  function RecoveriesIn(cycles: seq<Cycle>, realertSecs: int, alertAfter: int, k: string): nat
  {
    Recoveries(RunOf(cycles, realertSecs, alertAfter).board.sent, k)
  }

  predicate FiresAfter(cycles: seq<Cycle>, realertSecs: int, alertAfter: int, k: string, v: string)
  {
    FiresFor(RunOf(cycles, realertSecs, alertAfter).board, k, v)
  }

  lemma UncheckedOneMore(h: seq<Cycle>, c: Cycle, realertSecs: int, alertAfter: int, k: string, v: string)
    requires v != "" && FiresAfter(h, realertSecs, alertAfter, k, v) && Untouched(c, k, v)
    ensures FiresAfter(h + [c], realertSecs, alertAfter, k, v)
    ensures RecoveriesIn(h + [c], realertSecs, alertAfter, k) == RecoveriesIn(h, realertSecs, alertAfter, k)
  {
    EveryRunTellsTruth(h, realertSecs, alertAfter);
    OneMoreCycle(h, c, realertSecs, alertAfter);
    UncheckedStep(RunOf(h, realertSecs, alertAfter), c, realertSecs, alertAfter, k, v);
  }

  /** Over any run of cycles in which a vault is not checked, its alarms go on and no recovery is sent for them:
      unknown is not clear, for however long. */
  lemma {:induction false} UncheckedNeverRecovers(before: seq<Cycle>, more: seq<Cycle>, realertSecs: int,
                                                  alertAfter: int, k: string, v: string)
    requires v != "" && FiresAfter(before, realertSecs, alertAfter, k, v)
    requires forall i :: 0 <= i < |more| ==> Untouched(more[i], k, v)
    ensures FiresAfter(before + more, realertSecs, alertAfter, k, v)
    ensures RecoveriesIn(before + more, realertSecs, alertAfter, k) == RecoveriesIn(before, realertSecs, alertAfter, k)
    decreases |more|
  {
    if more == [] {
      assert before + more == before;
    } else {
      UncheckedOneMore(before, more[0], realertSecs, alertAfter, k, v);
      UncheckedNeverRecovers(before + [more[0]], more[1..], realertSecs, alertAfter, k, v);
      assert before + more == before + [more[0]] + more[1..];
    }
  }

  // ------------------------------------------------------------------ the machine itself

  class Monitor {
    var order: seq<string>
    var firing: map<string, Alarm>
    var sent: seq<Notice>
    var consecutiveFailures: nat
    var cycles: nat

    function View(): Watch
      reads this
    {
      Watch(Board(order, firing, sent), consecutiveFailures)
    }

    constructor ()
      ensures View() == RunOf([], 0, 0) && cycles == 0
    {
      order, firing, sent, consecutiveFailures, cycles := [], map[], [], 0, 0;
    }

    method NoteCycle(ok: bool)
      modifies `cycles, `consecutiveFailures
      ensures cycles == old(cycles) + 1
      ensures consecutiveFailures == NoteFailures(old(consecutiveFailures), ok)
    {
      cycles := cycles + 1;
      if ok {
        consecutiveFailures := 0;
      } else {
        consecutiveFailures := consecutiveFailures + 1;
      }
    }

    method Notify(k: string, kind: Kind, now: int, severity: Severity)
      modifies `sent
      ensures sent == old(sent) + [Notice(k, kind, now, severity)]
    {
      sent := sent + [Notice(k, kind, now, severity)];
    }

    method NoteFinding(f: Finding, realertSecs: int, now: int)
      modifies `order, `firing, `sent
      ensures View().board == Found(old(View().board), f, realertSecs, now)
    {
      var k := FiringKey(f);
      if k !in firing {
        order := order + [k];
        firing := firing[k := Alarm(now, now, f)];
        Notify(k, Onset, now, f.severity);
        return;
      }
      var prev := firing[k];
      if prev.f.severity != f.severity {
        firing := firing[k := prev.(f := f, last := now)];
        Notify(k, Escalation, now, f.severity);
      } else if now - prev.last >= realertSecs {
        firing := firing[k := prev.(f := f, last := now)];
        Notify(k, Repeat, now, f.severity);
      } else {
        firing := firing[k := prev.(f := f)];
      }
    }

    method Resolve(k: string, seen: set<string>, c: Cycle)
      modifies `order, `firing, `sent
      ensures View().board == Cleared(old(View().board), k, seen, c)
    {
      if k !in firing || k in seen || !Resolvable(k, firing[k].f, c) { return; }
      var prev := firing[k];
      firing := firing - {k};
      order := Without(order, k);
      Notify(k, Recovery, c.now, prev.f.severity);
    }

    method Reconcile(c: Cycle, realertSecs: int)
      modifies `order, `firing, `sent
      ensures View().board == Reconciled(old(View().board), c, realertSecs)
    {
      ghost var b := View().board;
      var seen: set<string> := {};
      for i := 0 to |c.findings|
        invariant View().board == FoundAll(b, c.findings[..i], realertSecs, c.now)
        invariant seen == KeysOf(c.findings[..i])
      {
        assert c.findings[..i + 1][..i] == c.findings[..i];
        KeysOfLast(c.findings[..i + 1]);
        seen := seen + {FiringKey(c.findings[i])};
        NoteFinding(c.findings[i], realertSecs, c.now);
      }
      assert c.findings[..|c.findings|] == c.findings;
      ghost var found := View().board;
      var keys := order;
      for i := 0 to |keys|
        invariant View().board == ClearedAll(found, keys[..i], seen, c)
      {
        assert keys[..i + 1][..i] == keys[..i];
        Resolve(keys[i], seen, c);
      }
      assert keys[..|keys|] == keys;
    }

    /** One turn of the check loop, from what its checks returned. */
    method CheckCycle(c: Cycle, realertSecs: int, alertAfter: int)
      modifies this
      ensures View() == CycleStep(old(View()), c, realertSecs, alertAfter)
    {
      NoteCycle(c.cycleOk);
      var findings := c.findings;
      if alertAfter > 0 && consecutiveFailures >= alertAfter {
        findings := findings + [Finding(RPC_FAILING, Critical, None, "")];
      }
      assert c.findings + [] == c.findings;
      Reconcile(c.(findings := findings), realertSecs);
    }
  }
}
