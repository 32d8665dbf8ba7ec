/**
 * `EventTracker` (src/event.hpp): LIFO correlation of begin and end records.
 * The mutable tracker becomes a value; every operation returns the new tracker
 * together with the callbacks it fired, in firing order.
 */
module EventTracker {
  import opened Basics
  import opened Events

  /** A `std::forward_list` used as a stack: the front is index 0. */
  type Stack = seq<Record>

  datatype Tracker = Tracker(
    units: Stack,
    includes: Stack,
    parses: map<Uid, Stack>,
    genericizes: map<Uid, Stack>,
    passes: map<string, Stack>)

  const Empty: Tracker := Tracker([], [], map[], map[], map[])

  /** The tracker after an operation and the callbacks the operation fired. */
  datatype Step = Step(tracker: Tracker, emitted: seq<Callback>)

  /** The stack a keyed map holds for `k`; a missing key reads as an empty stack. */
  function StackAt<K>(m: map<K, Stack>, k: K): Stack
  {
    if k in m then m[k] else []
  }

  /** `stack_dict[k].push_front(r)`: `operator[]` creates the entry on first use. */
  function PushKeyed<K>(m: map<K, Stack>, k: K, r: Record): (m': map<K, Stack>)
    ensures k in m' && m'[k] != [] && m'[k][0] == r && m'[k][1..] == StackAt(m, k)
    ensures m' - {k} == m - {k}
  {
    m[k := [r] + StackAt(m, k)]
  }

  /** `try_match_stack`: the front, if any, and the stack without it. */
  function TryMatchStack(s: Stack): (res: (Option<Record>, Stack))
    ensures res.0.Some? <==> s != []
    ensures res.0.Some? ==> [res.0.value] + res.1 == s
    ensures res.0.None? ==> res.1 == s
  {
    if s != [] then (Some(s[0]), s[1..]) else (None, s)
  }

  /** `try_match_map`: pop the stack of `k` and erase the key once its stack is empty. */
  function TryMatchMap<K>(m: map<K, Stack>, k: K): (res: (Option<Record>, map<K, Stack>))
    ensures res.0.Some? <==> k in m && m[k] != []
    ensures res.0.Some? ==> m[k] == [res.0.value] + StackAt(res.1, k)
    ensures k in res.1 ==> res.1[k] != []
    ensures res.1 - {k} == m - {k}
  {
    if k in m then
      var (popped, rest) := TryMatchStack(m[k]);
      (popped, if rest == [] then m - {k} else m[k := rest])
    else
      (None, m)
  }

  /** `DefaultMatchCallback`. */
  function DefaultMatch(start: Option<Record>, end: Record): (c: Callback)
    ensures c.Match? <==> start.Some?
    ensures c.Match? ==> c.start == start.value && c.end == end
    ensures c.Mismatch? ==> c.record == end
  {
    if start.Some? then Match(start.value, end) else Mismatch(end)
  }

  function PushUnit(t: Tracker, r: Record): (s: Step)
    requires r.event.UnitEvent?
    ensures s.tracker.includes == t.includes && s.tracker.parses == t.parses
    ensures s.tracker.genericizes == t.genericizes && s.tracker.passes == t.passes
    ensures r.event.unitKind == UnitStart ==> s.tracker.units == [r] + t.units && s.emitted == []
    ensures r.event.unitKind == UnitEnd && t.units != [] ==>
      s.emitted == [Match(t.units[0], r)] && s.tracker.units == t.units[1..]
    ensures r.event.unitKind == UnitEnd && t.units == [] ==>
      s.emitted == [Mismatch(r)] && s.tracker == t
  {
    match r.event.unitKind
    case UnitStart => Step(t.(units := [r] + t.units), [])
    case UnitEnd =>
      var (popped, rest) := TryMatchStack(t.units);
      Step(t.(units := rest), [DefaultMatch(popped, r)])
  }

  function PushInclude(t: Tracker, r: Record): (s: Step)
    requires r.event.IncludeEvent?
    ensures s.tracker.units == t.units && s.tracker.parses == t.parses
    ensures s.tracker.genericizes == t.genericizes && s.tracker.passes == t.passes
    ensures r.event.includeKind == IncludeEnter ==> s.tracker.includes == [r] + t.includes && s.emitted == []
    ensures r.event.includeKind == IncludeLeave && t.includes != [] ==>
      s.emitted == [Match(t.includes[0], r)] && s.tracker.includes == t.includes[1..]
    ensures r.event.includeKind == IncludeLeave && t.includes == [] ==>
      s.emitted == [Mismatch(r)] && s.tracker == t
  {
    match r.event.includeKind
    case IncludeEnter => Step(t.(includes := [r] + t.includes), [])
    case IncludeLeave =>
      var (popped, rest) := TryMatchStack(t.includes);
      Step(t.(includes := rest), [DefaultMatch(popped, r)])
  }

  /** `push_event(ParseEvent)` with kind Start: push on the parse stack of the function. */
  function PushParseStart(t: Tracker, r: Record): (s: Step)
    requires r.event.ParseEvent? && r.event.parseKind == ParseStart
    ensures s.emitted == []
    ensures s.tracker == t.(parses := s.tracker.parses)
    ensures StackAt(s.tracker.parses, r.event.uid) == [r] + StackAt(t.parses, r.event.uid)
    ensures s.tracker.parses - {r.event.uid} == t.parses - {r.event.uid}
  {
    Step(t.(parses := PushKeyed(t.parses, r.event.uid, r)), [])
  }

  /**
   * `push_event(ParseEvent)` with kind PreGenericize: close the parse interval of the
   * function if one is open, and open its genericize interval in any case.
   */
  function PushPreGenericize(t: Tracker, r: Record): (s: Step)
    requires IsPreGenericize(r)
    ensures s.tracker == t.(parses := s.tracker.parses, genericizes := s.tracker.genericizes)
    ensures
      var k := r.event.uid;
      var p := StackAt(t.parses, k);
      && StackAt(s.tracker.genericizes, k) == [r] + StackAt(t.genericizes, k)
      && s.tracker.genericizes - {k} == t.genericizes - {k}
      && s.tracker.parses - {k} == t.parses - {k}
      && (p != [] ==> s.emitted == [Match(p[0], r)] && StackAt(s.tracker.parses, k) == p[1..])
      && (p == [] ==> s.emitted == [] && StackAt(s.tracker.parses, k) == [])
  {
    var k := r.event.uid;
    // pushed whether or not a parse interval closes here; no mismatch is reported
    var genericizes := PushKeyed(t.genericizes, k, r);
    var (popped, parses) := TryMatchMap(t.parses, k);
    Step(t.(parses := parses, genericizes := genericizes),
         if popped.Some? then [Match(popped.value, r)] else [])
  }

  /**
   * `push_event(ParseEvent)` with kind Finish: close the parse interval of the function
   * if one is open, otherwise its genericize interval, otherwise report a mismatch.
   */
  function PushParseFinish(t: Tracker, r: Record): (s: Step)
    requires r.event.ParseEvent? && r.event.parseKind == ParseFinish
    ensures s.tracker == t.(parses := s.tracker.parses, genericizes := s.tracker.genericizes)
    ensures
      var k := r.event.uid;
      var p := StackAt(t.parses, k);
      var g := StackAt(t.genericizes, k);
      && s.tracker.parses - {k} == t.parses - {k}
      && s.tracker.genericizes - {k} == t.genericizes - {k}
      && (p != [] ==>
            s.emitted == [Match(p[0], r)] && StackAt(s.tracker.parses, k) == p[1..]
            && s.tracker.genericizes == t.genericizes)
      && (p == [] && g != [] ==>
            s.emitted == [Match(g[0], r)] && StackAt(s.tracker.genericizes, k) == g[1..]
            && StackAt(s.tracker.parses, k) == [])
      && (p == [] && g == [] ==>
            s.emitted == [Mismatch(r)] && StackAt(s.tracker.parses, k) == []
            && StackAt(s.tracker.genericizes, k) == [])
  {
    var k := r.event.uid;
    var (popped, parses) := TryMatchMap(t.parses, k);
    if popped.Some? then
      Step(t.(parses := parses), [Match(popped.value, r)])
    else
      var (gen, genericizes) := TryMatchMap(t.genericizes, k);
      Step(t.(parses := parses, genericizes := genericizes), [DefaultMatch(gen, r)])
  }

  /** The `push_event(ParseEvent)` overload. */
  function PushParse(t: Tracker, r: Record): (s: Step)
    requires r.event.ParseEvent?
    ensures s.tracker.units == t.units && s.tracker.includes == t.includes && s.tracker.passes == t.passes
  {
    match r.event.parseKind
    case ParseStart => PushParseStart(t, r)
    case ParsePreGenericize => PushPreGenericize(t, r)
    case ParseFinish => PushParseFinish(t, r)
  }

  function PushPass(t: Tracker, r: Record): (s: Step)
    requires r.event.PassEvent?
    ensures s.tracker.units == t.units && s.tracker.includes == t.includes
    ensures s.tracker.parses == t.parses && s.tracker.genericizes == t.genericizes
    ensures s.tracker.passes - {r.event.name} == t.passes - {r.event.name}
    ensures
      var n := r.event.name;
      var p := StackAt(t.passes, n);
      && (r.event.passKind == PassStart ==> s.emitted == [] && StackAt(s.tracker.passes, n) == [r] + p)
      && (r.event.passKind == PassEnd && p != [] ==>
            s.emitted == [Match(p[0], r)] && StackAt(s.tracker.passes, n) == p[1..])
      && (r.event.passKind == PassEnd && p == [] ==>
            s.emitted == [Mismatch(r)] && StackAt(s.tracker.passes, n) == [])
  {
    var n := r.event.name;
    match r.event.passKind
    case PassStart => Step(t.(passes := PushKeyed(t.passes, n, r)), [])
    case PassEnd =>
      var (popped, passes) := TryMatchMap(t.passes, n);
      Step(t.(passes := passes), [DefaultMatch(popped, r)])
  }

  /** The four `push_event` overloads: dispatch on the record's category. */
  function Push(t: Tracker, r: Record): (s: Step)
    ensures |s.emitted| <= 1
    ensures forall i :: 0 <= i < |s.emitted| ==>
      (s.emitted[i].Match? ==> s.emitted[i].end == r) && (s.emitted[i].Mismatch? ==> s.emitted[i].record == r)
  {
    match r.event
    case UnitEvent(_) => PushUnit(t, r)
    case IncludeEvent(_, _) => PushInclude(t, r)
    case ParseEvent(_, _, _) => PushParse(t, r)
    case PassEvent(_, _, _, _) => PushPass(t, r)
  }

  /** Successive `push_event` calls, callbacks concatenated in firing order. */
  function ReplayAll(t: Tracker, rs: seq<Record>): (s: Step)
    ensures |s.emitted| <= |rs|
    decreases |rs|
  {
    if rs == [] then Step(t, [])
    else
      var first := Push(t, rs[0]);
      var rest := ReplayAll(first.tracker, rs[1..]);
      Step(rest.tracker, first.emitted + rest.emitted)
  }

  /**
   * The order in which `finish_map` visits the keys of each `unordered_map`.
   * The C++ standard leaves it unspecified, so the model takes it as an input.
   */
  datatype FlushOrder = FlushOrder(parseKeys: seq<Uid>, genericizeKeys: seq<Uid>, passKeys: seq<string>)

  /** `ks` lists every key of `m` exactly once: its first key is a key of `m`, and the rest enumerates the others. */
  predicate Enumerates<K>(ks: seq<K>, m: map<K, Stack>)
    decreases |ks|
  {
    if ks == [] then m.Keys == {} else ks[0] in m && Enumerates(ks[1..], m - {ks[0]})
  }

  predicate FitsOrder(order: FlushOrder, t: Tracker)
  {
    && Enumerates(order.parseKeys, t.parses)
    && Enumerates(order.genericizeKeys, t.genericizes)
    && Enumerates(order.passKeys, t.passes)
  }

  /** `finish_stack`: every pending entry, front to back, as a mismatch. */
  function FlushStack(s: Stack): (cbs: seq<Callback>)
    ensures |cbs| == |s|
    ensures forall i :: 0 <= i < |s| ==> cbs[i] == Mismatch(s[i])
  {
    if s == [] then [] else [Mismatch(s[0])] + FlushStack(s[1..])
  }

  /** `finish_map`: flush the stacks of the keys in iteration order `ks`. */
  function FlushMap<K>(m: map<K, Stack>, ks: seq<K>): (cbs: seq<Callback>)
    requires Enumerates(ks, m)
    ensures Mentions(cbs) == MapPending(m)
    ensures forall i :: 0 <= i < |cbs| ==> cbs[i].Mismatch?
    decreases |ks|
  {
    if ks == [] then
      assert m.Keys == {};
      []
    else
      var k := ks[0];
      var head := FlushStack(m[k]);
      var tail := FlushMap(m - {k}, ks[1..]);
      assert Mentions(head + tail) == MapPending(m) by {
        MapPendingPick(m, k);
        FlushStackMentions(m[k]);
        MentionsAppend(head, tail);
      }
      head + tail
  }

  /** `finish()`: every pending entry of every container as a mismatch; all containers emptied. */
  function Finish(t: Tracker, order: FlushOrder): (s: Step)
    requires FitsOrder(order, t)
    ensures s.tracker == Empty
    ensures Mentions(s.emitted) == Pending(t)
    ensures forall i :: 0 <= i < |s.emitted| ==> s.emitted[i].Mismatch?
  {
    var cbs := FlushStack(t.units) + FlushStack(t.includes) + FlushMap(t.parses, order.parseKeys)
      + FlushMap(t.genericizes, order.genericizeKeys) + FlushMap(t.passes, order.passKeys);
    FinishMentions(t, order);
    Step(Empty, cbs)
  }

  lemma FinishMentions(t: Tracker, order: FlushOrder)
    requires FitsOrder(order, t)
    ensures
      var cbs := FlushStack(t.units) + FlushStack(t.includes) + FlushMap(t.parses, order.parseKeys)
        + FlushMap(t.genericizes, order.genericizeKeys) + FlushMap(t.passes, order.passKeys);
      && Mentions(cbs) == Pending(t)
      && forall i :: 0 <= i < |cbs| ==> cbs[i].Mismatch?
  {
    var a := FlushStack(t.units);
    var b := FlushStack(t.includes);
    var c := FlushMap(t.parses, order.parseKeys);
    var d := FlushMap(t.genericizes, order.genericizeKeys);
    var e := FlushMap(t.passes, order.passKeys);
    FlushStackMentions(t.units);
    FlushStackMentions(t.includes);
    MentionsAppend(a, b);
    var ab := a + b;
    assert Mentions(ab) == multiset(t.units) + multiset(t.includes);
    MentionsAppend(ab, c);
    var abc := ab + c;
    assert Mentions(abc) == multiset(t.units) + multiset(t.includes) + MapPending(t.parses);
    MentionsAppend(abc, d);
    var abcd := abc + d;
    MentionsAppend(abcd, e);
    AllMismatchesAppend(a, b);
    AllMismatchesAppend(ab, c);
    AllMismatchesAppend(abc, d);
    AllMismatchesAppend(abcd, e);
  }

  lemma AllMismatchesAppend(a: seq<Callback>, b: seq<Callback>)
    requires forall i :: 0 <= i < |a| ==> a[i].Mismatch?
    requires forall i :: 0 <= i < |b| ==> b[i].Mismatch?
    ensures forall i :: 0 <= i < |a + b| ==> (a + b)[i].Mismatch?
  {
  }

  lemma {:induction false} FlushStackMentions(s: Stack)
    ensures Mentions(FlushStack(s)) == multiset(s)
  {
    if s != [] {
      FlushStackMentions(s[1..]);
      assert s == [s[0]] + s[1..];
    }
  }

  // ---------------------------------------------------------------------------
  // Pending entries

  /** The entries the stacks of `keys` hold, regardless of the order of the keys. */
  ghost function PendingOver<K>(m: map<K, Stack>, keys: set<K>): multiset<Record>
    requires keys <= m.Keys
    decreases keys
  {
    if keys == {} then multiset{}
    else
      var k :| k in keys;
      multiset(m[k]) + PendingOver(m, keys - {k})
  }

  /** The entries of a keyed map. */
  ghost function MapPending<K>(m: map<K, Stack>): multiset<Record>
  {
    PendingOver(m, m.Keys)
  }

  /** Every entry waiting for its end. */
  ghost function Pending(t: Tracker): multiset<Record>
  {
    multiset(t.units) + multiset(t.includes)
    + MapPending(t.parses) + MapPending(t.genericizes) + MapPending(t.passes)
  }

  /** `PendingOver` may take out any key first. */
  lemma {:induction false} PendingOverPick<K>(m: map<K, Stack>, keys: set<K>, k: K)
    requires keys <= m.Keys && k in keys
    ensures PendingOver(m, keys) == multiset(m[k]) + PendingOver(m, keys - {k})
    decreases keys
  {
    var j :| j in keys && PendingOver(m, keys) == multiset(m[j]) + PendingOver(m, keys - {j});
    if j != k {
      PendingOverPick(m, keys - {j}, k);
      PendingOverPick(m, keys - {k}, j);
      assert keys - {j} - {k} == keys - {k} - {j};
    }
  }

  /** `PendingOver` only looks at the stacks of `keys`. */
  lemma {:induction false} PendingOverFrame<K>(m: map<K, Stack>, m': map<K, Stack>, keys: set<K>)
    requires keys <= m.Keys && keys <= m'.Keys
    requires forall j :: j in keys ==> m[j] == m'[j]
    ensures PendingOver(m, keys) == PendingOver(m', keys)
    decreases keys
  {
    if keys != {} {
      var j :| j in keys && PendingOver(m, keys) == multiset(m[j]) + PendingOver(m, keys - {j});
      PendingOverPick(m', keys, j);
      PendingOverFrame(m, m', keys - {j});
    }
  }

  lemma MapPendingPick<K>(m: map<K, Stack>, k: K)
    requires k in m
    ensures MapPending(m) == multiset(m[k]) + MapPending(m - {k})
  {
    PendingOverPick(m, m.Keys, k);
    assert (m - {k}).Keys == m.Keys - {k};
    PendingOverFrame(m, m - {k}, m.Keys - {k});
  }

  lemma MapPendingEmpty<K>(m: map<K, Stack>)
    requires MapPending(m) == multiset{}
    ensures forall k :: k in m ==> m[k] == []
  {
    forall k | k in m ensures m[k] == [] {
      MapPendingPick(m, k);
      assert multiset(m[k]) == multiset{};
    }
  }

  lemma MapPendingPush<K>(m: map<K, Stack>, k: K, r: Record)
    ensures MapPending(PushKeyed(m, k, r)) == MapPending(m) + multiset{r}
  {
    var m' := PushKeyed(m, k, r);
    MapPendingPick(m', k);
    assert m' - {k} == m - {k};
    if k in m {
      MapPendingPick(m, k);
    } else {
      assert m - {k} == m;
    }
  }

  lemma MapPendingPop<K>(m: map<K, Stack>, k: K)
    ensures TryMatchMap(m, k).0.Some? ==>
      MapPending(m) == MapPending(TryMatchMap(m, k).1) + multiset{TryMatchMap(m, k).0.value}
    ensures TryMatchMap(m, k).0.None? ==> MapPending(m) == MapPending(TryMatchMap(m, k).1)
  {
    if k in m {
      MapPendingPick(m, k);
      var s := m[k];
      if s == [] {
        assert TryMatchMap(m, k).1 == m - {k};
      } else {
        var rest := s[1..];
        assert multiset(s) == multiset{s[0]} + multiset(rest) by {
          assert s == [s[0]] + rest;
        }
        if rest == [] {
          assert TryMatchMap(m, k).1 == m - {k};
        } else {
          var m' := m[k := rest];
          assert TryMatchMap(m, k).1 == m';
          MapPendingPick(m', k);
          assert m' - {k} == m - {k};
        }
      }
    }
  }

  /** The top of a stack is pending. */
  lemma StackAtPending<K>(m: map<K, Stack>, k: K)
    requires StackAt(m, k) != []
    ensures StackAt(m, k)[0] in MapPending(m)
  {
    MapPendingPick(m, k);
    assert m[k][0] in multiset(m[k]);
  }
}
