/**
 * Properties of the event tracker over whole record streams: the pending-stack
 * invariant, conservation of records across `push_event` and `finish`, and the
 * scenarios the correlation rules are meant to handle.
 */
module TrackerProps {
  import opened Basics
  import opened Events
  import opened EventTracker

  // ---------------------------------------------------------------------------
  // The tracker invariant

  /** Every key has a non-empty stack of begins filed under that key. */
  ghost predicate StacksOf<K(!new)>(m: map<K, Stack>, begins: (Record, K) -> bool)
  {
    forall k :: k in m ==> m[k] != [] && forall i :: 0 <= i < |m[k]| ==> begins(m[k][i], k)
  }

  /**
   * The tracker only ever holds begin records, each on the stack of its own key,
   * and no keyed map holds an empty stack.
   */
  ghost predicate Valid(t: Tracker)
  {
    && (forall i :: 0 <= i < |t.units| ==> IsUnitBegin(t.units[i]))
    && (forall i :: 0 <= i < |t.includes| ==> IsIncludeBegin(t.includes[i]))
    && StacksOf(t.parses, IsParseBegin)
    && StacksOf(t.genericizes, IsGenericizeBegin)
    && StacksOf(t.passes, IsPassBegin)
  }

  lemma StacksOfPush<K(!new)>(m: map<K, Stack>, k: K, r: Record, begins: (Record, K) -> bool)
    requires StacksOf(m, begins) && begins(r, k)
    ensures StacksOf(PushKeyed(m, k, r), begins)
  {
    var m' := PushKeyed(m, k, r);
    forall x | x in m' ensures m'[x] != [] && forall i :: 0 <= i < |m'[x]| ==> begins(m'[x][i], x) {
      if x == k {
        forall i | 0 <= i < |m'[x]| ensures begins(m'[x][i], x) {
          if i > 0 {
            assert m'[x][i] == StackAt(m, k)[i - 1];
          }
        }
      }
    }
  }

  lemma StacksOfPop<K(!new)>(m: map<K, Stack>, k: K, begins: (Record, K) -> bool)
    requires StacksOf(m, begins)
    ensures StacksOf(TryMatchMap(m, k).1, begins)
    ensures TryMatchMap(m, k).0.Some? ==> begins(TryMatchMap(m, k).0.value, k)
  {
    var m' := TryMatchMap(m, k).1;
    forall x | x in m' ensures m'[x] != [] && forall i :: 0 <= i < |m'[x]| ==> begins(m'[x][i], x) {
      if x == k {
        forall i | 0 <= i < |m'[x]| ensures begins(m'[x][i], x) {
          assert m'[x][i] == m[k][i + 1];
        }
      }
    }
  }

  lemma ParseCorrelates(t: Tracker, r: Record)
    requires Valid(t) && r.event.ParseEvent?
    ensures Valid(PushParse(t, r).tracker)
    ensures forall c :: c in PushParse(t, r).emitted && c.Match? ==> Correlates(c.start, r)
  {
    var k := r.event.uid;
    StacksOfPop(t.parses, k, IsParseBegin);
    match r.event.parseKind
    case ParseStart =>
      assert PushParse(t, r) == PushParseStart(t, r);
      StacksOfPush(t.parses, k, r, IsParseBegin);
    case ParsePreGenericize =>
      assert PushParse(t, r) == PushPreGenericize(t, r);
      StacksOfPush(t.genericizes, k, r, IsGenericizeBegin);
    case ParseFinish =>
      assert PushParse(t, r) == PushParseFinish(t, r);
      StacksOfPop(t.genericizes, k, IsGenericizeBegin);
  }

  lemma PassCorrelates(t: Tracker, r: Record)
    requires Valid(t) && r.event.PassEvent?
    ensures Valid(PushPass(t, r).tracker)
    ensures forall c :: c in PushPass(t, r).emitted && c.Match? ==> Correlates(c.start, r)
  {
    var n := r.event.name;
    if r.event.passKind == PassStart {
      StacksOfPush(t.passes, n, r, IsPassBegin);
    } else {
      StacksOfPop(t.passes, n, IsPassBegin);
    }
  }

  /**
   * Each `push_event` keeps the invariant, and every interval it closes pairs a
   * begin with the incoming record under the correlation rules.
   */
  lemma PushCorrelates(t: Tracker, r: Record)
    requires Valid(t)
    ensures Valid(Push(t, r).tracker)
    ensures forall c :: c in Push(t, r).emitted && c.Match? ==> Correlates(c.start, r)
  {
    match r.event
    case UnitEvent(_) =>
      assert Push(t, r) == PushUnit(t, r);
    case IncludeEvent(_, _) =>
      assert Push(t, r) == PushInclude(t, r);
    case ParseEvent(_, _, _) =>
      assert Push(t, r) == PushParse(t, r);
      ParseCorrelates(t, r);
    case PassEvent(_, _, _, _) =>
      assert Push(t, r) == PushPass(t, r);
      PassCorrelates(t, r);
  }

  // ---------------------------------------------------------------------------
  // Replay structure

  /** Replaying `a + b` is replaying `a` and then `b` from where `a` left off. */
  lemma {:induction false} ReplayAppend(t: Tracker, a: seq<Record>, b: seq<Record>)
    ensures
      var first := ReplayAll(t, a);
      var second := ReplayAll(first.tracker, b);
      ReplayAll(t, a + b) == Step(second.tracker, first.emitted + second.emitted)
    decreases |a|
  {
    if a == [] {
      assert a + b == b;
    } else {
      assert (a + b)[0] == a[0];
      assert (a + b)[1..] == a[1..] + b;
      ReplayAppend(Push(t, a[0]).tracker, a[1..], b);
    }
  }

  /** Replay keeps the invariant and every closed interval is a correlated pair. */
  lemma {:induction false} ReplayCorrelates(t: Tracker, rs: seq<Record>)
    requires Valid(t)
    ensures Valid(ReplayAll(t, rs).tracker)
    ensures forall c :: c in ReplayAll(t, rs).emitted && c.Match? ==> Correlates(c.start, c.end)
    decreases |rs|
  {
    if rs != [] {
      var first := Push(t, rs[0]);
      PushCorrelates(t, rs[0]);
      ReplayCorrelates(first.tracker, rs[1..]);
    }
  }

  // ---------------------------------------------------------------------------
  // Scenarios

  /** Replaying a non-empty stream: the first record, then the rest. */
  lemma ReplayCons(t: Tracker, r: Record, rs: seq<Record>)
    ensures
      var first := Push(t, r);
      var rest := ReplayAll(first.tracker, rs);
      ReplayAll(t, [r] + rs) == Step(rest.tracker, first.emitted + rest.emitted)
  {
    assert ([r] + rs)[0] == r;
    assert ([r] + rs)[1..] == rs;
  }

  /** Start(k), PreGenericize(k), Finish(k): a parse interval, then a genericize interval. */
  lemma ParseThenGenericize(t: Tracker, k: Uid, s: Record, g: Record, f: Record)
    requires IsParseBegin(s, k) && IsGenericizeBegin(g, k)
    requires f.event.ParseEvent? && f.event.parseKind == ParseFinish && f.event.uid == k
    requires k !in t.parses && k !in t.genericizes
    ensures ReplayAll(t, [s, g, f]) == Step(t, [Match(s, g), Match(g, f)])
  {
    var t1 := t.(parses := t.parses[k := [s]]);
    assert [s] + StackAt(t.parses, k) == [s];
    assert Push(t, s) == PushParseStart(t, s) == Step(t1, []);
    var t2 := t.(genericizes := t.genericizes[k := [g]]);
    assert [g] + StackAt(t1.genericizes, k) == [g];
    assert t1.parses - {k} == t.parses;
    assert TryMatchMap(t1.parses, k) == (Some(s), t.parses);
    assert Push(t1, g) == PushPreGenericize(t1, g) == Step(t2, [Match(s, g)]);
    assert t2.genericizes - {k} == t.genericizes;
    assert TryMatchMap(t2.parses, k) == (None, t.parses);
    assert TryMatchMap(t2.genericizes, k) == (Some(g), t.genericizes);
    assert Push(t2, f) == PushParseFinish(t2, f) == Step(t, [Match(g, f)]);
    ReplayCons(t2, f, []);
    ReplayCons(t1, g, [f]);
    ReplayCons(t, s, [g, f]);
  }

  /** Start(k), Finish(k) with no PreGenericize: exactly one parse interval. */
  lemma ParseWithoutGenericize(t: Tracker, k: Uid, s: Record, f: Record)
    requires IsParseBegin(s, k)
    requires f.event.ParseEvent? && f.event.parseKind == ParseFinish && f.event.uid == k
    requires k !in t.parses
    ensures ReplayAll(t, [s, f]) == Step(t, [Match(s, f)])
  {
    var t1 := t.(parses := t.parses[k := [s]]);
    assert [s] + StackAt(t.parses, k) == [s];
    assert Push(t, s) == PushParseStart(t, s) == Step(t1, []);
    assert t1.parses - {k} == t.parses;
    assert TryMatchMap(t1.parses, k) == (Some(s), t.parses);
    assert Push(t1, f) == PushParseFinish(t1, f) == Step(t, [Match(s, f)]);
    ReplayCons(t1, f, []);
    ReplayCons(t, s, [f]);
  }

  /** Enter(a), Enter(b), Leave, Leave: the inner include closes first. */
  lemma NestedIncludes(t: Tracker, a: Record, b: Record, l1: Record, l2: Record)
    requires IsIncludeBegin(a) && IsIncludeBegin(b)
    requires l1.event.IncludeEvent? && l1.event.includeKind == IncludeLeave
    requires l2.event.IncludeEvent? && l2.event.includeKind == IncludeLeave
    ensures ReplayAll(t, [a, b, l1, l2]) == Step(t, [Match(b, l1), Match(a, l2)])
  {
    var t1 := t.(includes := [a] + t.includes);
    var t2 := t.(includes := [b] + t1.includes);
    assert Push(t, a) == PushInclude(t, a) == Step(t1, []);
    assert Push(t1, b) == PushInclude(t1, b) == Step(t2, []);
    assert Push(t2, l1) == PushInclude(t2, l1) == Step(t1, [Match(b, l1)]);
    assert Push(t1, l2) == PushInclude(t1, l2) == Step(t, [Match(a, l2)]);
    ReplayCons(t1, l2, []);
    ReplayCons(t2, l1, [l2]);
    ReplayCons(t1, b, [l1, l2]);
    ReplayCons(t, a, [b, l1, l2]);
  }

  /** Start, Start, End, End for one pass name: LIFO, not FIFO. */
  lemma ReenteredPass(t: Tracker, n: string, s1: Record, s2: Record, e1: Record, e2: Record)
    requires IsPassBegin(s1, n) && IsPassBegin(s2, n)
    requires e1.event.PassEvent? && e1.event.passKind == PassEnd && e1.event.name == n
    requires e2.event.PassEvent? && e2.event.passKind == PassEnd && e2.event.name == n
    requires n !in t.passes
    ensures ReplayAll(t, [s1, s2, e1, e2]) == Step(t, [Match(s2, e1), Match(s1, e2)])
  {
    var t1 := t.(passes := t.passes[n := [s1]]);
    var t2 := t.(passes := t.passes[n := [s2, s1]]);
    assert [s1] + StackAt(t.passes, n) == [s1];
    assert Push(t, s1) == PushPass(t, s1) == Step(t1, []);
    assert [s2] + StackAt(t1.passes, n) == [s2, s1];
    assert t1.passes[n := [s2, s1]] == t2.passes;
    assert Push(t1, s2) == PushPass(t1, s2) == Step(t2, []);
    assert [s2, s1][1..] == [s1];
    assert t2.passes[n := [s1]] == t1.passes;
    assert TryMatchMap(t2.passes, n) == (Some(s2), t1.passes);
    assert Push(t2, e1) == PushPass(t2, e1) == Step(t1, [Match(s2, e1)]);
    assert t1.passes - {n} == t.passes;
    assert TryMatchMap(t1.passes, n) == (Some(s1), t.passes);
    assert Push(t1, e2) == PushPass(t1, e2) == Step(t, [Match(s1, e2)]);
    ReplayCons(t1, e2, []);
    ReplayCons(t2, e1, [e2]);
    ReplayCons(t1, s2, [e1, e2]);
    ReplayCons(t, s1, [s2, e1, e2]);
  }

  // ---------------------------------------------------------------------------
  // Well-nested include streams

  /** Enters minus leaves. */
  function Surplus(rs: seq<Record>): int
  {
    if rs == [] then 0
    else (if IsIncludeBegin(rs[0]) then 1 else -1) + Surplus(rs[1..])
  }

  function Leaves(rs: seq<Record>): nat
  {
    if rs == [] then 0 else (if IsIncludeBegin(rs[0]) then 0 else 1) + Leaves(rs[1..])
  }

  /**
   * An include stream in which no prefix leaves more often than it (and the
   * pending stack) entered produces only matches, one per Leave.
   */
  lemma {:induction false} NestedIncludesMatch(t: Tracker, rs: seq<Record>)
    requires forall i :: 0 <= i < |rs| ==> rs[i].event.IncludeEvent?
    requires forall j :: 0 <= j <= |rs| ==> |t.includes| + Surplus(rs[..j]) >= 0
    ensures forall c :: c in ReplayAll(t, rs).emitted ==> c.Match?
    ensures |ReplayAll(t, rs).emitted| == Leaves(rs)
    ensures |ReplayAll(t, rs).tracker.includes| == |t.includes| + Surplus(rs)
    decreases |rs|
  {
    if rs != [] {
      var first := Push(t, rs[0]);
      assert rs[..1][1..] == [];
      assert |t.includes| + Surplus(rs[..1]) >= 0;
      forall j | 0 <= j <= |rs[1..]| ensures |first.tracker.includes| + Surplus(rs[1..][..j]) >= 0 {
        assert rs[..j + 1][0] == rs[0];
        assert rs[..j + 1][1..] == rs[1..][..j];
        assert |t.includes| + Surplus(rs[..j + 1]) >= 0;
      }
      assert rs[..|rs|] == rs;
      NestedIncludesMatch(first.tracker, rs[1..]);
    }
  }
}
