/**
 * Conservation of records by the event tracker: every record handed to
 * `push_event` is either still pending or has been handed to exactly one
 * callback, and `finish()` hands out whatever is still pending.
 */
module Conservation {
  import opened Basics
  import opened Events
  import opened EventTracker

  // ---------------------------------------------------------------------------
  // Multiset bookkeeping

  lemma MentionsSingle(c: Callback)
    ensures Mentions([c]) == CallbackRecords(c)
    ensures Echoes([c]) == if c.Match? && IsPreGenericize(c.end) then multiset{c.end} else multiset{}
  {
    assert [c][1..] == [];
  }

  /** A stack's entries are its front and the rest. */
  lemma StackFront(s: Stack)
    requires s != []
    ensures multiset(s) == multiset{s[0]} + multiset(s[1..])
  {
    assert s == [s[0]] + s[1..];
  }

  /**
   * If the pending entries `a` (after) and `b` (before) differ by the changed parts
   * `c` (before) and `c'` (after), and the handed-out records `m` account for the
   * change plus the new record `r` and the echoes `e`, the books balance.
   */
  lemma Balance(a: multiset<Record>, b: multiset<Record>, c: multiset<Record>, c': multiset<Record>,
                m: multiset<Record>, e: multiset<Record>, r: Record)
    requires a + c == b + c'
    requires m + c' == c + multiset{r} + e
    ensures a + m == b + multiset{r} + e
  {
    forall z ensures (a + m)[z] == (b + multiset{r} + e)[z] {
      assert (a + c)[z] == (b + c')[z];
      assert (m + c')[z] == (c + multiset{r} + e)[z];
    }
  }

  lemma PendingUnits(t: Tracker, t': Tracker)
    requires t'.includes == t.includes && t'.parses == t.parses
    requires t'.genericizes == t.genericizes && t'.passes == t.passes
    ensures Pending(t') + multiset(t.units) == Pending(t) + multiset(t'.units)
  {
  }

  lemma PendingIncludes(t: Tracker, t': Tracker)
    requires t'.units == t.units && t'.parses == t.parses
    requires t'.genericizes == t.genericizes && t'.passes == t.passes
    ensures Pending(t') + multiset(t.includes) == Pending(t) + multiset(t'.includes)
  {
  }

  lemma PendingParseMaps(t: Tracker, t': Tracker)
    requires t'.units == t.units && t'.includes == t.includes && t'.passes == t.passes
    ensures Pending(t') + (MapPending(t.parses) + MapPending(t.genericizes))
         == Pending(t) + (MapPending(t'.parses) + MapPending(t'.genericizes))
  {
  }

  lemma PendingPasses(t: Tracker, t': Tracker)
    requires t'.units == t.units && t'.includes == t.includes
    requires t'.parses == t.parses && t'.genericizes == t.genericizes
    ensures Pending(t') + MapPending(t.passes) == Pending(t) + MapPending(t'.passes)
  {
  }

  /** `try_match_map` with the default callback: the popped entry and the end record are handed out. */
  lemma PopBalance<K>(m: map<K, Stack>, k: K, r: Record)
    ensures CallbackRecords(DefaultMatch(TryMatchMap(m, k).0, r)) + MapPending(TryMatchMap(m, k).1)
         == MapPending(m) + multiset{r}
  {
    MapPendingPop(m, k);
  }

  /** The genericize fallback: the parse map is untouched and the genericize pop balances. */
  lemma RegroupFallback(m: multiset<Record>, p: multiset<Record>, p': multiset<Record>,
                g: multiset<Record>, g': multiset<Record>, r: Record)
    requires p == p' && m + g' == g + multiset{r}
    ensures m + (p' + g') == (p + g) + multiset{r} + multiset{}
  {
    forall z ensures (m + (p' + g'))[z] == ((p + g) + multiset{r} + multiset{})[z] {
      assert (m + g')[z] == (g + multiset{r})[z];
    }
  }

  /** A matched PreGenericize: the parse begin is handed out and the PreGenericize both handed out and kept. */
  lemma RegroupEcho(m: multiset<Record>, p: multiset<Record>, p': multiset<Record>,
                    g: multiset<Record>, g': multiset<Record>, v: Record, r: Record)
    requires p == p' + multiset{v} && g' == g + multiset{r} && m == multiset{v, r}
    ensures m + (p' + g') == (p + g) + multiset{r} + multiset{r}
  {
    forall z ensures (m + (p' + g'))[z] == ((p + g) + multiset{r} + multiset{r})[z] {
    }
  }

  // ---------------------------------------------------------------------------
  // One `push_event`, case by case

  lemma UnitStartConserves(t: Tracker, r: Record)
    requires r.event == UnitEvent(UnitStart)
    ensures Pending(PushUnit(t, r).tracker) + Mentions(PushUnit(t, r).emitted)
         == Pending(t) + multiset{r} + Echoes(PushUnit(t, r).emitted)
    ensures Echoes(PushUnit(t, r).emitted) == multiset{}
  {
    var s := PushUnit(t, r);
    PendingUnits(t, s.tracker);
    StackFront(s.tracker.units);
    assert s.tracker.units[1..] == t.units;
    Balance(Pending(s.tracker), Pending(t), multiset(t.units), multiset(s.tracker.units),
            Mentions(s.emitted), Echoes(s.emitted), r);
  }

  lemma UnitEndConserves(t: Tracker, r: Record)
    requires r.event == UnitEvent(UnitEnd)
    ensures Pending(PushUnit(t, r).tracker) + Mentions(PushUnit(t, r).emitted)
         == Pending(t) + multiset{r} + Echoes(PushUnit(t, r).emitted)
    ensures Echoes(PushUnit(t, r).emitted) == multiset{}
  {
    var s := PushUnit(t, r);
    PendingUnits(t, s.tracker);
    if t.units != [] {
      StackFront(t.units);
      MentionsSingle(Match(t.units[0], r));
    } else {
      MentionsSingle(Mismatch(r));
    }
    Balance(Pending(s.tracker), Pending(t), multiset(t.units), multiset(s.tracker.units),
            Mentions(s.emitted), Echoes(s.emitted), r);
  }

  lemma IncludeEnterConserves(t: Tracker, r: Record)
    requires r.event.IncludeEvent? && r.event.includeKind == IncludeEnter
    ensures Pending(PushInclude(t, r).tracker) + Mentions(PushInclude(t, r).emitted)
         == Pending(t) + multiset{r} + Echoes(PushInclude(t, r).emitted)
    ensures Echoes(PushInclude(t, r).emitted) == multiset{}
  {
    var s := PushInclude(t, r);
    PendingIncludes(t, s.tracker);
    StackFront(s.tracker.includes);
    assert s.tracker.includes[1..] == t.includes;
    Balance(Pending(s.tracker), Pending(t), multiset(t.includes), multiset(s.tracker.includes),
            Mentions(s.emitted), Echoes(s.emitted), r);
  }

  lemma IncludeLeaveConserves(t: Tracker, r: Record)
    requires r.event.IncludeEvent? && r.event.includeKind == IncludeLeave
    ensures Pending(PushInclude(t, r).tracker) + Mentions(PushInclude(t, r).emitted)
         == Pending(t) + multiset{r} + Echoes(PushInclude(t, r).emitted)
    ensures Echoes(PushInclude(t, r).emitted) == multiset{}
  {
    var s := PushInclude(t, r);
    PendingIncludes(t, s.tracker);
    if t.includes != [] {
      StackFront(t.includes);
      MentionsSingle(Match(t.includes[0], r));
    } else {
      MentionsSingle(Mismatch(r));
    }
    Balance(Pending(s.tracker), Pending(t), multiset(t.includes), multiset(s.tracker.includes),
            Mentions(s.emitted), Echoes(s.emitted), r);
  }

  lemma ParseStartConserves(t: Tracker, r: Record)
    requires r.event.ParseEvent? && r.event.parseKind == ParseStart
    ensures Pending(PushParseStart(t, r).tracker) + Mentions(PushParseStart(t, r).emitted)
         == Pending(t) + multiset{r} + Echoes(PushParseStart(t, r).emitted)
    ensures Echoes(PushParseStart(t, r).emitted) == multiset{}
  {
    var s := PushParseStart(t, r);
    assert s.tracker.parses == PushKeyed(t.parses, r.event.uid, r);
    MapPendingPush(t.parses, r.event.uid, r);
    PendingParseMaps(t, s.tracker);
    Balance(Pending(s.tracker), Pending(t), MapPending(t.parses) + MapPending(t.genericizes),
            MapPending(s.tracker.parses) + MapPending(s.tracker.genericizes),
            Mentions(s.emitted), Echoes(s.emitted), r);
  }

  lemma PreGenericizeMatchConserves(t: Tracker, r: Record)
    requires IsPreGenericize(r) && StackAt(t.parses, r.event.uid) != []
    ensures Pending(PushPreGenericize(t, r).tracker) + Mentions(PushPreGenericize(t, r).emitted)
         == Pending(t) + multiset{r} + Echoes(PushPreGenericize(t, r).emitted)
    ensures PushPreGenericize(t, r).emitted != [] && Echoes(PushPreGenericize(t, r).emitted) == multiset{r}
  {
    var k := r.event.uid;
    var s := PushPreGenericize(t, r);
    var v := StackAt(t.parses, k)[0];
    assert s.tracker.parses == TryMatchMap(t.parses, k).1;
    assert s.tracker.genericizes == PushKeyed(t.genericizes, k, r);
    assert s.emitted == [Match(v, r)];
    MapPendingPush(t.genericizes, k, r);
    MapPendingPop(t.parses, k);
    PendingParseMaps(t, s.tracker);
    MentionsSingle(Match(v, r));
    RegroupEcho(Mentions(s.emitted), MapPending(t.parses), MapPending(s.tracker.parses),
                MapPending(t.genericizes), MapPending(s.tracker.genericizes), v, r);
    Balance(Pending(s.tracker), Pending(t), MapPending(t.parses) + MapPending(t.genericizes),
            MapPending(s.tracker.parses) + MapPending(s.tracker.genericizes),
            Mentions(s.emitted), Echoes(s.emitted), r);
  }

  lemma PreGenericizeAloneConserves(t: Tracker, r: Record)
    requires IsPreGenericize(r) && StackAt(t.parses, r.event.uid) == []
    ensures Pending(PushPreGenericize(t, r).tracker) + Mentions(PushPreGenericize(t, r).emitted)
         == Pending(t) + multiset{r} + Echoes(PushPreGenericize(t, r).emitted)
    ensures PushPreGenericize(t, r).emitted == [] && Echoes(PushPreGenericize(t, r).emitted) == multiset{}
  {
    var k := r.event.uid;
    var s := PushPreGenericize(t, r);
    assert s.tracker.parses == TryMatchMap(t.parses, k).1;
    assert s.tracker.genericizes == PushKeyed(t.genericizes, k, r);
    MapPendingPush(t.genericizes, k, r);
    MapPendingPop(t.parses, k);
    PendingParseMaps(t, s.tracker);
    Balance(Pending(s.tracker), Pending(t), MapPending(t.parses) + MapPending(t.genericizes),
            MapPending(s.tracker.parses) + MapPending(s.tracker.genericizes),
            Mentions(s.emitted), Echoes(s.emitted), r);
  }

  lemma FinishParseConserves(t: Tracker, r: Record)
    requires r.event.ParseEvent? && r.event.parseKind == ParseFinish && StackAt(t.parses, r.event.uid) != []
    ensures Pending(PushParseFinish(t, r).tracker) + Mentions(PushParseFinish(t, r).emitted)
         == Pending(t) + multiset{r} + Echoes(PushParseFinish(t, r).emitted)
    ensures Echoes(PushParseFinish(t, r).emitted) == multiset{}
  {
    var k := r.event.uid;
    var s := PushParseFinish(t, r);
    assert s.tracker.parses == TryMatchMap(t.parses, k).1;
    MapPendingPop(t.parses, k);
    PendingParseMaps(t, s.tracker);
    MentionsSingle(Match(StackAt(t.parses, k)[0], r));
    Balance(Pending(s.tracker), Pending(t), MapPending(t.parses) + MapPending(t.genericizes),
            MapPending(s.tracker.parses) + MapPending(s.tracker.genericizes),
            Mentions(s.emitted), Echoes(s.emitted), r);
  }

  lemma FinishGenericizeConserves(t: Tracker, r: Record)
    requires r.event.ParseEvent? && r.event.parseKind == ParseFinish && StackAt(t.parses, r.event.uid) == []
    ensures Pending(PushParseFinish(t, r).tracker) + Mentions(PushParseFinish(t, r).emitted)
         == Pending(t) + multiset{r} + Echoes(PushParseFinish(t, r).emitted)
    ensures Echoes(PushParseFinish(t, r).emitted) == multiset{}
  {
    var k := r.event.uid;
    var s := PushParseFinish(t, r);
    assert s.tracker.parses == TryMatchMap(t.parses, k).1;
    assert s.tracker.genericizes == TryMatchMap(t.genericizes, k).1;
    assert s.emitted == [DefaultMatch(TryMatchMap(t.genericizes, k).0, r)];
    MapPendingPop(t.parses, k);
    PopBalance(t.genericizes, k, r);
    PendingParseMaps(t, s.tracker);
    MentionsSingle(s.emitted[0]);
    RegroupFallback(Mentions(s.emitted), MapPending(t.parses), MapPending(s.tracker.parses),
            MapPending(t.genericizes), MapPending(s.tracker.genericizes), r);
    Balance(Pending(s.tracker), Pending(t), MapPending(t.parses) + MapPending(t.genericizes),
            MapPending(s.tracker.parses) + MapPending(s.tracker.genericizes),
            Mentions(s.emitted), Echoes(s.emitted), r);
  }

  lemma PassStartConserves(t: Tracker, r: Record)
    requires r.event.PassEvent? && r.event.passKind == PassStart
    ensures Pending(PushPass(t, r).tracker) + Mentions(PushPass(t, r).emitted)
         == Pending(t) + multiset{r} + Echoes(PushPass(t, r).emitted)
    ensures Echoes(PushPass(t, r).emitted) == multiset{}
  {
    var n := r.event.name;
    var s := PushPass(t, r);
    PendingPasses(t, s.tracker);
    assert s.tracker.passes == PushKeyed(t.passes, n, r);
    MapPendingPush(t.passes, n, r);
    Balance(Pending(s.tracker), Pending(t), MapPending(t.passes), MapPending(s.tracker.passes),
            Mentions(s.emitted), Echoes(s.emitted), r);
  }

  lemma PassEndConserves(t: Tracker, r: Record)
    requires r.event.PassEvent? && r.event.passKind == PassEnd
    ensures Pending(PushPass(t, r).tracker) + Mentions(PushPass(t, r).emitted)
         == Pending(t) + multiset{r} + Echoes(PushPass(t, r).emitted)
    ensures Echoes(PushPass(t, r).emitted) == multiset{}
  {
    var n := r.event.name;
    var s := PushPass(t, r);
    PendingPasses(t, s.tracker);
    assert s.tracker.passes == TryMatchMap(t.passes, n).1;
    assert s.emitted == [DefaultMatch(TryMatchMap(t.passes, n).0, r)];
    PopBalance(t.passes, n, r);
    MentionsSingle(s.emitted[0]);
    Balance(Pending(s.tracker), Pending(t), MapPending(t.passes), MapPending(s.tracker.passes),
            Mentions(s.emitted), Echoes(s.emitted), r);
  }

  /** The parse overload, dispatched on the kind and on whether a parse interval is open. */
  lemma ParseConserves(t: Tracker, r: Record)
    requires r.event.ParseEvent?
    ensures Pending(PushParse(t, r).tracker) + Mentions(PushParse(t, r).emitted)
         == Pending(t) + multiset{r} + Echoes(PushParse(t, r).emitted)
    ensures Echoes(PushParse(t, r).emitted)
         == if IsPreGenericize(r) && PushParse(t, r).emitted != [] then multiset{r} else multiset{}
  {
    var k := r.event.uid;
    match r.event.parseKind
    case ParseStart =>
      ParseStartConserves(t, r);
    case ParsePreGenericize =>
      if StackAt(t.parses, k) != [] {
        PreGenericizeMatchConserves(t, r);
      } else {
        PreGenericizeAloneConserves(t, r);
      }
    case ParseFinish =>
      if StackAt(t.parses, k) != [] {
        FinishParseConserves(t, r);
      } else {
        FinishGenericizeConserves(t, r);
      }
  }

  /**
   * One `push_event` neither loses nor invents records: what is still pending plus
   * what was handed to a callback is what was pending plus the new record, except
   * that a PreGenericize closing a parse interval is handed out and also kept.
   */
  lemma PushConserves(t: Tracker, r: Record)
    ensures Pending(Push(t, r).tracker) + Mentions(Push(t, r).emitted)
         == Pending(t) + multiset{r} + Echoes(Push(t, r).emitted)
    ensures Echoes(Push(t, r).emitted)
         == if IsPreGenericize(r) && Push(t, r).emitted != [] then multiset{r} else multiset{}
  {
    match r.event
    case UnitEvent(kind) =>
      if kind == UnitStart {
        UnitStartConserves(t, r);
      } else {
        UnitEndConserves(t, r);
      }
      assert Push(t, r) == PushUnit(t, r);
    case IncludeEvent(kind, _) =>
      if kind == IncludeEnter {
        IncludeEnterConserves(t, r);
      } else {
        IncludeLeaveConserves(t, r);
      }
      assert Push(t, r) == PushInclude(t, r);
    case ParseEvent(_, _, _) =>
      ParseConserves(t, r);
      assert Push(t, r) == PushParse(t, r);
    case PassEvent(kind, _, _, _) =>
      if kind == PassStart {
        PassStartConserves(t, r);
      } else {
        PassEndConserves(t, r);
      }
      assert Push(t, r) == PushPass(t, r);
  }

  // ---------------------------------------------------------------------------
  // Streams of records

  /** Two balanced steps in a row balance. */
  lemma Chain(p0: multiset<Record>, p1: multiset<Record>, p2: multiset<Record>,
              m1: multiset<Record>, m2: multiset<Record>, x1: multiset<Record>, x2: multiset<Record>,
              e1: multiset<Record>, e2: multiset<Record>)
    requires p1 + m1 == p0 + x1 + e1
    requires p2 + m2 == p1 + x2 + e2
    ensures p2 + (m1 + m2) == p0 + (x1 + x2) + (e1 + e2)
  {
    forall z ensures (p2 + (m1 + m2))[z] == (p0 + (x1 + x2) + (e1 + e2))[z] {
      assert (p1 + m1)[z] == (p0 + x1 + e1)[z];
      assert (p2 + m2)[z] == (p1 + x2 + e2)[z];
    }
  }

  /** Conservation over a stream of `push_event` calls. */
  lemma {:induction false} ReplayConserves(t: Tracker, rs: seq<Record>)
    ensures Pending(ReplayAll(t, rs).tracker) + Mentions(ReplayAll(t, rs).emitted)
         == Pending(t) + multiset(rs) + Echoes(ReplayAll(t, rs).emitted)
    ensures Echoes(ReplayAll(t, rs).emitted) <= PreGenericizes(rs)
    decreases |rs|
  {
    if rs == [] {
      assert ReplayAll(t, rs) == Step(t, []);
    } else {
      var first := Push(t, rs[0]);
      var rest := ReplayAll(first.tracker, rs[1..]);
      assert ReplayAll(t, rs) == Step(rest.tracker, first.emitted + rest.emitted);
      PushConserves(t, rs[0]);
      ReplayConserves(first.tracker, rs[1..]);
      MentionsAppend(first.emitted, rest.emitted);
      SplitFirst(rs);
      Chain(Pending(t), Pending(first.tracker), Pending(rest.tracker),
            Mentions(first.emitted), Mentions(rest.emitted), multiset{rs[0]}, multiset(rs[1..]),
            Echoes(first.emitted), Echoes(rest.emitted));
    }
  }

  lemma SplitFirst(rs: seq<Record>)
    requires rs != []
    ensures multiset(rs) == multiset{rs[0]} + multiset(rs[1..])
    ensures PreGenericizes(rs)
         == (if IsPreGenericize(rs[0]) then multiset{rs[0]} else multiset{}) + PreGenericizes(rs[1..])
  {
    assert rs == [rs[0]] + rs[1..];
  }

  lemma {:induction false} EchoesOfMismatches(cbs: seq<Callback>)
    requires forall i :: 0 <= i < |cbs| ==> cbs[i].Mismatch?
    ensures Echoes(cbs) == multiset{}
  {
    if cbs != [] {
      EchoesOfMismatches(cbs[1..]);
    }
  }

  /**
   * A whole run, `push_event` for every record and then `finish()`: the callbacks
   * mention every record once, plus a second time for each PreGenericize that
   * closed a parse interval; nothing stays pending.
   */
  lemma RunMentionsEveryRecord(rs: seq<Record>, order: FlushOrder)
    requires FitsOrder(order, ReplayAll(Empty, rs).tracker)
    ensures
      var run := ReplayAll(Empty, rs);
      var fin := Finish(run.tracker, order);
      && Mentions(run.emitted + fin.emitted) == multiset(rs) + Echoes(run.emitted)
      && Echoes(run.emitted) <= PreGenericizes(rs)
      && fin.tracker == Empty
  {
    var run := ReplayAll(Empty, rs);
    var fin := Finish(run.tracker, order);
    ReplayConserves(Empty, rs);
    MentionsAppend(run.emitted, fin.emitted);
    PendingEmpty();
    Drain(Pending(run.tracker), Mentions(run.emitted), Mentions(fin.emitted), Pending(Empty),
          multiset(rs), Echoes(run.emitted));
  }

  lemma PendingEmpty()
    ensures Pending(Empty) == multiset{}
  {
    assert Empty.parses.Keys == {};
  }

  /** What was pending at the end and is then flushed joins what was handed out before. */
  lemma Drain(p: multiset<Record>, m: multiset<Record>, f: multiset<Record>, z: multiset<Record>,
              x: multiset<Record>, e: multiset<Record>)
    requires p + m == z + x + e && f == p && z == multiset{}
    ensures m + f == x + e
  {
    forall y ensures (m + f)[y] == (x + e)[y] {
      assert (p + m)[y] == (z + x + e)[y];
    }
  }

  /**
   * For a record that occurs once in the stream: a Start, End, Enter, Leave or
   * Finish appears in exactly one callback; a PreGenericize in one or two.
   */
  lemma ExactlyOnce(rs: seq<Record>, order: FlushOrder, r: Record)
    requires FitsOrder(order, ReplayAll(Empty, rs).tracker)
    requires multiset(rs)[r] == 1
    ensures
      var all := ReplayAll(Empty, rs).emitted + Finish(ReplayAll(Empty, rs).tracker, order).emitted;
      && (!IsPreGenericize(r) ==> Mentions(all)[r] == 1)
      && (IsPreGenericize(r) ==> 1 <= Mentions(all)[r] <= 2)
  {
    var run := ReplayAll(Empty, rs);
    RunMentionsEveryRecord(rs, order);
    if IsPreGenericize(r) {
      PreGenericizesCount(rs, r);
    } else if r in PreGenericizes(rs) {
      PreGenericizesOnly(rs, r);
    }
  }

  /** The second `finish()` (the destructor's) fires nothing. */
  lemma FinishTwiceIsSilent(t: Tracker, first: FlushOrder, second: FlushOrder)
    requires FitsOrder(first, t)
    requires FitsOrder(second, Finish(t, first).tracker)
    ensures Finish(Finish(t, first).tracker, second).emitted == []
    ensures Finish(Finish(t, first).tracker, second).tracker == Empty
  {
    var again := Finish(Empty, second);
    PendingEmpty();
    MentionsBound(again.emitted);
  }

  // ---------------------------------------------------------------------------
  // Time order

  lemma MultisetCancel(a: multiset<Record>, m: multiset<Record>, b: multiset<Record>, e: multiset<Record>)
    requires a + m == b + e && e <= m
    ensures a <= b
  {
    forall x ensures a[x] <= b[x] {
      assert (a + m)[x] == (b + e)[x];
    }
  }

  lemma ParseMatchStartsPending(t: Tracker, r: Record)
    requires r.event.ParseEvent?
    ensures forall c :: c in PushParse(t, r).emitted && c.Match? ==> c.start in Pending(t)
  {
    var k := r.event.uid;
    if r.event.parseKind == ParseStart {
      assert PushParse(t, r) == PushParseStart(t, r);
    } else if r.event.parseKind == ParsePreGenericize {
      assert PushParse(t, r) == PushPreGenericize(t, r);
      GenericizeMatchStartsPending(t, r);
    } else {
      assert PushParse(t, r) == PushParseFinish(t, r);
      FinishMatchStartsPending(t, r);
    }
  }

  lemma GenericizeMatchStartsPending(t: Tracker, r: Record)
    requires r.event.ParseEvent? && r.event.parseKind == ParsePreGenericize
    ensures forall c :: c in PushPreGenericize(t, r).emitted && c.Match? ==> c.start in Pending(t)
  {
    if StackAt(t.parses, r.event.uid) != [] {
      StackAtPending(t.parses, r.event.uid);
    }
  }

  lemma FinishMatchStartsPending(t: Tracker, r: Record)
    requires r.event.ParseEvent? && r.event.parseKind == ParseFinish
    ensures forall c :: c in PushParseFinish(t, r).emitted && c.Match? ==> c.start in Pending(t)
  {
    var k := r.event.uid;
    if StackAt(t.parses, k) != [] {
      StackAtPending(t.parses, k);
    } else if StackAt(t.genericizes, k) != [] {
      StackAtPending(t.genericizes, k);
    }
  }

  lemma PassMatchStartsPending(t: Tracker, r: Record)
    requires r.event.PassEvent?
    ensures forall c :: c in PushPass(t, r).emitted && c.Match? ==> c.start in Pending(t)
  {
    var n := r.event.name;
    if r.event.passKind == PassEnd && StackAt(t.passes, n) != [] {
      StackAtPending(t.passes, n);
    }
  }

  /** Every interval a `push_event` closes starts at an entry that was pending. */
  lemma MatchStartsPending(t: Tracker, r: Record)
    ensures forall c :: c in Push(t, r).emitted && c.Match? ==> c.start in Pending(t)
  {
    match r.event
    case UnitEvent(_) =>
      assert Push(t, r) == PushUnit(t, r);
      if t.units != [] {
        assert t.units[0] in multiset(t.units);
      }
    case IncludeEvent(_, _) =>
      assert Push(t, r) == PushInclude(t, r);
      if t.includes != [] {
        assert t.includes[0] in multiset(t.includes);
      }
    case ParseEvent(_, _, _) =>
      assert Push(t, r) == PushParse(t, r);
      ParseMatchStartsPending(t, r);
    case PassEvent(_, _, _, _) =>
      assert Push(t, r) == PushPass(t, r);
      PassMatchStartsPending(t, r);
  }

  /** A `push_event` never adds anything to the pending entries but its own record. */
  lemma PushPendingGrowth(t: Tracker, r: Record)
    ensures Pending(Push(t, r).tracker) <= Pending(t) + multiset{r}
  {
    var s := Push(t, r);
    PushConserves(t, r);
    EchoesAreMentioned(s.emitted);
    MultisetCancel(Pending(s.tracker), Mentions(s.emitted), Pending(t) + multiset{r}, Echoes(s.emitted));
  }

  /**
   * With timestamps observed in order, every interval the tracker closes starts no
   * later than it ends, so the writer never sees a negative duration for a match.
   */
  lemma {:induction false} MatchedIntervalsForward(t: Tracker, rs: seq<Record>)
    requires Chronological(rs)
    requires forall x, i :: x in Pending(t) && 0 <= i < |rs| ==> x.timestamp <= rs[i].timestamp
    ensures forall c :: c in ReplayAll(t, rs).emitted && c.Match? ==> c.start.timestamp <= c.end.timestamp
    decreases |rs|
  {
    if rs != [] {
      var first := Push(t, rs[0]);
      MatchStartsPending(t, rs[0]);
      PushPendingGrowth(t, rs[0]);
      forall x, i | x in Pending(first.tracker) && 0 <= i < |rs[1..]|
        ensures x.timestamp <= rs[1..][i].timestamp
      {
        assert rs[1..][i] == rs[i + 1];
        assert x in Pending(t) + multiset{rs[0]};
      }
      MatchedIntervalsForward(first.tracker, rs[1..]);
      forall c | c in first.emitted && c.Match? ensures c.start.timestamp <= c.end.timestamp {
        var i :| 0 <= i < |first.emitted| && first.emitted[i] == c;
        assert c.end == rs[0] && c.start in Pending(t);
      }
      assert ReplayAll(t, rs).emitted == first.emitted + ReplayAll(first.tracker, rs[1..]).emitted;
    }
  }
}
