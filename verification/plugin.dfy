/**
 * The plugin's own logic: turning compiler notifications into records, keeping
 * them in four lists, and at the end of compilation replaying them through the
 * tracker into the trace writer. GCC's callback registration and the file
 * handling around the writer are not modelled; each notification arrives as a
 * value together with the time it was observed.
 */
module Plugin {
  import opened Basics
  import opened Events
  import opened EventTracker
  import opened Conservation
  import TrackerProps
  import opened TraceWriter

  /** The name every marker pass the plugin registers carries. */
  const TimeTraceName := "*time_trace"

  /** `EventTimePoint::max()`: the largest signed 64-bit nanosecond count. */
  const TimePointMax: int := 0x7FFF_FFFF_FFFF_FFFF

  // ---------------------------------------------------------------------------
  // Notifications
  // ---------------------------------------------------------------------------

  /** The `reason` of a libcpp line map. */
  datatype Reason = LcEnter | LcLeave | LcRename | LcRenameVerbatim | LcEnterMacro | LcModule

  /** An ordinary line map: why it was created and the file it maps (`ORDINARY_MAP_FILE_NAME`). */
  datatype LineMap = LineMap(reason: Reason, fileName: string)

  /**
   * `cb_file_change`: entering a file records an Enter with the file's name,
   * leaving one records a Leave; a null map and every other reason record nothing.
   */
  function FileChange(lineMap: Option<LineMap>): (e: Option<Event>)
    ensures e.Some? <==> lineMap.Some? && (lineMap.value.reason == LcEnter || lineMap.value.reason == LcLeave)
    ensures e.Some? ==> e.value.IncludeEvent?
    ensures e.Some? ==> (e.value.includeKind == IncludeEnter <==> lineMap.value.reason == LcEnter)
    ensures e.Some? && e.value.includeKind == IncludeEnter ==> e.value.filename == lineMap.value.fileName
    ensures e.Some? && e.value.includeKind == IncludeLeave ==> e.value.filename == ""
  {
    match lineMap
    case None => None
    case Some(m) =>
      if m.reason == LcEnter then Some(IncludeEvent(IncludeEnter, m.fileName))
      else if m.reason == LcLeave then Some(IncludeEvent(IncludeLeave, ""))
      else None
  }

  /** The three roles of the marker passes the plugin inserts into the pass lists. */
  datatype TracePassKind = Single | StartList | EndList

  /** `current_pass`: one of the plugin's marker passes, or any other pass. */
  datatype CurrentPass =
    | TimeTracePass(traceKind: TracePassKind, traceName: string)
    | OtherPass(name: string)

  function PassName(p: CurrentPass): string
  {
    match p
    case TimeTracePass(_, _) => TimeTraceName
    case OtherPass(name) => name
  }

  /**
   * `override_gate_callback`: only a pass named `*time_trace` records anything.
   * A Single marker closes the pass it follows, without a function; a list's
   * start and end markers carry the current function and its uid, or `-1u`
   * when there is none.
   */
  function GateEvent(p: CurrentPass, fn: Tree): (e: Option<Event>)
    requires p.OtherPass? ==> p.name != TimeTraceName
    ensures e.Some? <==> PassName(p) == TimeTraceName
    ensures e.Some? ==> e.value.PassEvent? && e.value.name == p.traceName
    ensures e.Some? ==> (e.value.passKind == PassStart <==> p.traceKind == StartList)
    ensures e.Some? && p.traceKind == Single ==> e.value.decl == NullTree && e.value.uid == NoUid
    ensures e.Some? && p.traceKind != Single ==>
      e.value.decl == fn && e.value.uid == (if fn.Node? then fn.ptUid else NoUid)
  {
    if PassName(p) == TimeTraceName then
      match p
      case TimeTracePass(kind, name) =>
        var uid := if fn.Node? then fn.ptUid else NoUid;
        (match kind
         case Single => Some(PassEvent(PassEnd, name, NullTree, NoUid))
         case StartList => Some(PassEvent(PassStart, name, fn, uid))
         case EndList => Some(PassEvent(PassEnd, name, fn, uid)))
      case OtherPass(_) => None
    else None
  }

  /** The compiler events the plugin subscribes to, with the data each hands over. */
  datatype Notice =
    | StartUnit
    | FinishUnit
    | FileChanged(lineMap: Option<LineMap>)
    | StartParseFunction(fndecl: Tree)
    | PreGenericizeFunction(fndecl: Tree)
    | FinishParseFunction(fndecl: Tree)
    | EarlyGimplePassesStart
    | EarlyGimplePassesEnd
    | AllIpaPassesStart
    | AllIpaPassesEnd
    | OverrideGate(current: CurrentPass, currentFunction: Tree)
    | PassExecution(passName: string)

  /**
   * What the callbacks rely on: the parse notifications hand over a function
   * declaration (its uid is read), and a pass named `*time_trace` is one of the
   * plugin's own marker passes.
   */
  predicate WellFormed(n: Notice)
  {
    match n
    case StartParseFunction(d) => d.Node?
    case PreGenericizeFunction(d) => d.Node?
    case FinishParseFunction(d) => d.Node?
    case OverrideGate(p, _) => p.OtherPass? ==> p.name != TimeTraceName
    case _ => true
  }

  /** A parse notification. */
  predicate ParseNotice(n: Notice)
  {
    n.StartParseFunction? || n.PreGenericizeFunction? || n.FinishParseFunction?
  }

  /** The parse kind each parse notification records. */
  function ParseKindOf(n: Notice): ParseKind
    requires ParseNotice(n)
  {
    if n.StartParseFunction? then ParseStart
    else if n.PreGenericizeFunction? then ParsePreGenericize
    else ParseFinish
  }

  /** The pass-list notifications: the list's name and whether it starts or ends. */
  predicate PassListNotice(n: Notice)
  {
    n.EarlyGimplePassesStart? || n.EarlyGimplePassesEnd? || n.AllIpaPassesStart? || n.AllIpaPassesEnd?
  }

  /**
   * The event each callback records, if any. Parse records are made exactly by
   * the parse notifications and carry the notification's declaration and its
   * uid; the pass-list notifications record the list's name with a null
   * declaration and uid 0.
   */
  function NoticeEvent(n: Notice): (e: Option<Event>)
    requires WellFormed(n)
    ensures (n.StartUnit? || n.FinishUnit?) ==> e == Some(UnitEvent(if n.StartUnit? then UnitStart else UnitEnd))
    ensures n.FileChanged? ==> e == FileChange(n.lineMap)
    ensures e.Some? && e.value.ParseEvent? <==> ParseNotice(n)
    ensures e.Some? && e.value.ParseEvent? ==> e.value.decl.Node? && e.value.uid == e.value.decl.ptUid
    ensures ParseNotice(n) ==> e == Some(ParseEvent(ParseKindOf(n), n.fndecl, n.fndecl.ptUid))
    ensures PassListNotice(n) ==>
      e.Some? && e.value.PassEvent? && e.value.decl == NullTree && e.value.uid == 0
      && (e.value.passKind == PassStart <==> n.EarlyGimplePassesStart? || n.AllIpaPassesStart?)
      && e.value.name == if n.EarlyGimplePassesStart? || n.EarlyGimplePassesEnd? then "early_gimple_passes" else "all_ipa_passes"
    ensures n.PassExecution? ==> e == Some(PassEvent(PassStart, n.passName, NullTree, NoUid))
    ensures n.OverrideGate? ==> e == GateEvent(n.current, n.currentFunction)
  {
    match n
    case StartUnit => Some(UnitEvent(UnitStart))
    case FinishUnit => Some(UnitEvent(UnitEnd))
    case FileChanged(m) => FileChange(m)
    case StartParseFunction(d) => Some(ParseEvent(ParseStart, d, d.ptUid))
    case PreGenericizeFunction(d) => Some(ParseEvent(ParsePreGenericize, d, d.ptUid))
    case FinishParseFunction(d) => Some(ParseEvent(ParseFinish, d, d.ptUid))
    // aggregate initialisation leaves the declaration null and the uid zero
    case EarlyGimplePassesStart => Some(PassEvent(PassStart, "early_gimple_passes", NullTree, 0))
    case EarlyGimplePassesEnd => Some(PassEvent(PassEnd, "early_gimple_passes", NullTree, 0))
    case AllIpaPassesStart => Some(PassEvent(PassStart, "all_ipa_passes", NullTree, 0))
    case AllIpaPassesEnd => Some(PassEvent(PassEnd, "all_ipa_passes", NullTree, 0))
    case OverrideGate(p, fn) => GateEvent(p, fn)
    case PassExecution(name) => Some(PassEvent(PassStart, name, NullTree, NoUid))
  }

  // ---------------------------------------------------------------------------
  // Recording
  // ---------------------------------------------------------------------------

  /** A notification and the time it was observed. */
  datatype Arrival = Arrival(time: int, notice: Notice)

  /** The four `forward_list`s, newest record first. */
  datatype Recorded = Recorded(units: seq<Record>, includes: seq<Record>, parses: seq<Record>, passes: seq<Record>)

  datatype Category = Units | Includes | Parses | Passes

  function CategoryOf(e: Event): Category
  {
    match e
    case UnitEvent(_) => Units
    case IncludeEvent(_, _) => Includes
    case ParseEvent(_, _, _) => Parses
    case PassEvent(_, _, _, _) => Passes
  }

  function Lane(rec: Recorded, c: Category): seq<Record>
  {
    match c
    case Units => rec.units
    case Includes => rec.includes
    case Parses => rec.parses
    case Passes => rec.passes
  }

  /** `push_front` onto the list of the record's category. */
  function Prepend(rec: Recorded, r: Record): (rec': Recorded)
    ensures Lane(rec', CategoryOf(r.event)) == [r] + Lane(rec, CategoryOf(r.event))
    ensures forall c :: c != CategoryOf(r.event) ==> Lane(rec', c) == Lane(rec, c)
  {
    match r.event
    case UnitEvent(_) => rec.(units := [r] + rec.units)
    case IncludeEvent(_, _) => rec.(includes := [r] + rec.includes)
    case ParseEvent(_, _, _) => rec.(parses := [r] + rec.parses)
    case PassEvent(_, _, _, _) => rec.(passes := [r] + rec.passes)
  }

  /** One callback: its record, if it makes one, goes to the front of its list. */
  function Observe(rec: Recorded, a: Arrival): Recorded
    requires WellFormed(a.notice)
  {
    match NoticeEvent(a.notice)
    case None => rec
    case Some(e) => Prepend(rec, Record(a.time, e))
  }

  predicate AllWellFormed(arr: seq<Arrival>)
  {
    forall i :: 0 <= i < |arr| ==> WellFormed(arr[i].notice)
  }

  /** The lists after the notifications of a compilation, in arrival order. */
  function ObserveAll(arr: seq<Arrival>): Recorded
    requires AllWellFormed(arr)
  {
    if arr == [] then Recorded([], [], [], [])
    else Observe(ObserveAll(arr[..|arr| - 1]), arr[|arr| - 1])
  }

  /** The records of one category, in the order their notifications arrived. */
  function Arrived(arr: seq<Arrival>, c: Category): seq<Record>
    requires AllWellFormed(arr)
  {
    if arr == [] then []
    else
      var a := arr[|arr| - 1];
      Arrived(arr[..|arr| - 1], c)
        + match NoticeEvent(a.notice)
          case Some(e) => if CategoryOf(e) == c then [Record(a.time, e)] else []
          case None => []
  }

  /** Prepending and reversing at the end: every list is replayed in arrival order. */
  lemma {:induction false} ArrivalOrder(arr: seq<Arrival>, c: Category)
    requires AllWellFormed(arr)
    ensures Reverse(Lane(ObserveAll(arr), c)) == Arrived(arr, c)
  {
    if arr != [] {
      var init := arr[..|arr| - 1];
      var a := arr[|arr| - 1];
      ArrivalOrder(init, c);
      var before := Lane(ObserveAll(init), c);
      match NoticeEvent(a.notice)
      case None =>
      case Some(e) =>
        var r := Record(a.time, e);
        if CategoryOf(e) == c {
          assert Lane(ObserveAll(arr), c) == [r] + before;
          assert ([r] + before)[1..] == before;
        }
    }
  }

  /** Timestamps never decrease along the arrivals. */
  ghost predicate Monotone(arr: seq<Arrival>)
  {
    forall i, j :: 0 <= i < j < |arr| ==> arr[i].time <= arr[j].time
  }

  lemma {:induction false} ArrivedBounded(arr: seq<Arrival>, c: Category, bound: int)
    requires AllWellFormed(arr)
    requires forall i :: 0 <= i < |arr| ==> arr[i].time <= bound
    ensures forall r :: r in Arrived(arr, c) ==> r.timestamp <= bound
  {
    if arr != [] {
      ArrivedBounded(arr[..|arr| - 1], c, bound);
    }
  }

  /** With a clock that never goes back, every list is in time order. */
  lemma {:induction false} ArrivedChronological(arr: seq<Arrival>, c: Category)
    requires AllWellFormed(arr)
    requires Monotone(arr)
    ensures Chronological(Arrived(arr, c))
  {
    if arr != [] {
      var init := arr[..|arr| - 1];
      var a := arr[|arr| - 1];
      ArrivedChronological(init, c);
      ArrivedBounded(init, c, a.time);
      var before := Arrived(init, c);
      assert forall i :: 0 <= i < |before| ==> before[i] in before;
    }
  }

  /** Parse records carry the declaration the writer will name. */
  ghost predicate DeclsPresent(rs: seq<Record>)
  {
    forall r :: r in rs && r.event.ParseEvent? ==> r.event.decl.Node?
  }

  ghost predicate RecordedWritable(rec: Recorded)
  {
    DeclsPresent(rec.units) && DeclsPresent(rec.includes) && DeclsPresent(rec.parses) && DeclsPresent(rec.passes)
  }

  lemma {:induction false} ObservedWritable(arr: seq<Arrival>)
    requires AllWellFormed(arr)
    ensures RecordedWritable(ObserveAll(arr))
  {
    if arr != [] {
      ObservedWritable(arr[..|arr| - 1]);
    }
  }

  // ---------------------------------------------------------------------------
  // The end of compilation
  // ---------------------------------------------------------------------------

  /** The front timestamp of a list, or `max()` for an empty one. */
  function Front(lane: seq<Record>): int
  {
    if lane == [] then TimePointMax else lane[0].timestamp
  }

  /** `std::min` of the four fronts. */
  function Epoch(units: seq<Record>, includes: seq<Record>, parses: seq<Record>, passes: seq<Record>): (e: int)
    ensures e <= Front(units) && e <= Front(includes) && e <= Front(parses) && e <= Front(passes)
    ensures e == Front(units) || e == Front(includes) || e == Front(parses) || e == Front(passes)
  {
    var a := if Front(units) <= Front(includes) then Front(units) else Front(includes);
    var b := if Front(parses) <= Front(passes) then Front(parses) else Front(passes);
    if a <= b then a else b
  }

  /** The lists after `reverse()`: oldest record first. */
  function InOrder(rec: Recorded): (o: Recorded)
    ensures forall c :: Lane(o, c) == Reverse(Lane(rec, c))
  {
    Recorded(Reverse(rec.units), Reverse(rec.includes), Reverse(rec.parses), Reverse(rec.passes))
  }

  function EpochOf(rec: Recorded): int
  {
    var o := InOrder(rec);
    Epoch(o.units, o.includes, o.parses, o.passes)
  }

  /** With each list in time order, no recorded timestamp lies before the epoch. */
  lemma EpochFirst(rec: Recorded)
    requires forall c :: Chronological(Lane(InOrder(rec), c))
    ensures forall c, r :: r in Lane(InOrder(rec), c) ==> EpochOf(rec) <= r.timestamp
  {
    forall c, r | r in Lane(InOrder(rec), c)
      ensures EpochOf(rec) <= r.timestamp
    {
      var lane := Lane(InOrder(rec), c);
      assert Chronological(lane);
      var i :| 0 <= i < |lane| && lane[i] == r;
      assert lane[0].timestamp <= lane[i].timestamp;
    }
  }

  /** The four replay loops, each continuing from the tracker the previous one left. */
  function Replayed(rec: Recorded): Step
  {
    var o := InOrder(rec);
    var s1 := ReplayAll(Empty, o.units);
    var s2 := ReplayAll(s1.tracker, o.includes);
    var s3 := ReplayAll(s2.tracker, o.parses);
    var s4 := ReplayAll(s3.tracker, o.passes);
    Step(s4.tracker, s1.emitted + s2.emitted + s3.emitted + s4.emitted)
  }

  /** All unit records, then include, then parse, then pass records, each list oldest first. */
  function Stream(rec: Recorded): seq<Record>
  {
    var o := InOrder(rec);
    o.units + o.includes + o.parses + o.passes
  }

  /** The four loops are one replay of the concatenated stream. */
  lemma ReplayOrder(rec: Recorded)
    ensures Replayed(rec) == ReplayAll(Empty, Stream(rec))
  {
    var o := InOrder(rec);
    var s1 := ReplayAll(Empty, o.units);
    var s2 := ReplayAll(s1.tracker, o.includes);
    var s3 := ReplayAll(s2.tracker, o.parses);
    TrackerProps.ReplayAppend(Empty, o.units, o.includes);
    TrackerProps.ReplayAppend(Empty, o.units + o.includes, o.parses);
    TrackerProps.ReplayAppend(Empty, o.units + o.includes + o.parses, o.passes);
  }

  lemma ReverseKeeps(s: seq<Record>, r: Record)
    requires r in Reverse(s)
    ensures r in s
  {
    var i :| 0 <= i < |Reverse(s)| && Reverse(s)[i] == r;
    assert s[|s| - 1 - i] == r;
  }

  lemma StreamDeclsPresent(rec: Recorded)
    requires RecordedWritable(rec)
    ensures DeclsPresent(Stream(rec))
  {
    forall r | r in Stream(rec) && r.event.ParseEvent?
      ensures r.event.decl.Node?
    {
      var o := InOrder(rec);
      if r in o.units { ReverseKeeps(rec.units, r); }
      else if r in o.includes { ReverseKeeps(rec.includes, r); }
      else if r in o.parses { ReverseKeeps(rec.parses, r); }
      else { ReverseKeeps(rec.passes, r); }
    }
  }

  lemma {:induction false} MatchStartMentioned(cbs: seq<Callback>, c: Callback)
    requires c in cbs && c.Match?
    ensures c.start in Mentions(cbs)
  {
    if cbs[0] != c {
      MatchStartMentioned(cbs[1..], c);
    }
  }

  /**
   * Every callback of a run can be written: a matched slice's begin record is one
   * of the replayed records, so a parse begin carries its declaration.
   */
  lemma RunWritable(rs: seq<Record>, order: FlushOrder)
    requires DeclsPresent(rs)
    requires FitsOrder(order, ReplayAll(Empty, rs).tracker)
    ensures
      var all := ReplayAll(Empty, rs).emitted + Finish(ReplayAll(Empty, rs).tracker, order).emitted;
      forall c :: c in all ==> Writable(c)
  {
    var run := ReplayAll(Empty, rs);
    var all := run.emitted + Finish(run.tracker, order).emitted;
    RunMentionsEveryRecord(rs, order);
    forall c | c in all && c.Match? && c.start.event.ParseEvent?
      ensures c.start.event.decl.Node?
    {
      MatchStartMentioned(all, c);
      if c.start !in multiset(rs) {
        assert c.start in PreGenericizes(rs);
        PreGenericizesOnly(rs, c.start);
      }
    }
  }

  /** The order the tracker's destructor finds its (empty) maps in. */
  const NoKeys := FlushOrder([], [], [])

  /** The callbacks of `finish_callback`: the four replays and `finish()`. */
  function RunCallbacks(rec: Recorded, order: FlushOrder): seq<Callback>
    requires FitsOrder(order, Replayed(rec).tracker)
  {
    Replayed(rec).emitted + Finish(Replayed(rec).tracker, order).emitted
  }

  lemma CallbacksWritable(rec: Recorded, order: FlushOrder)
    requires RecordedWritable(rec)
    requires FitsOrder(order, Replayed(rec).tracker)
    ensures forall c :: c in RunCallbacks(rec, order) ==> Writable(c)
  {
    ReplayOrder(rec);
    StreamDeclsPresent(rec);
    RunWritable(Stream(rec), order);
  }

  /**
   * `finish_callback`: reverse, take the epoch, open the writer, replay the four
   * lists, `finish()`, write the `plugin_dump` slice from `dumpStart` to
   * `dumpEnd`, then the tracker's destructor calls `finish()` once more and the
   * writer's destructor closes the array.
   */
  function FinishCallback(rec: Recorded, verbosity: int, hook: NameHook, order: FlushOrder,
                          dumpStart: int, dumpEnd: int): string
    requires RecordedWritable(rec)
    requires FitsOrder(order, Replayed(rec).tracker)
  {
    CallbacksWritable(rec, order);
    var w := EmitAll(Open(EpochOf(rec), verbosity), hook, RunCallbacks(rec, order));
    var dumped := WriteNamed(w, "plugin_dump", dumpStart, dumpEnd);
    var fin := Finish(Replayed(rec).tracker, order);
    assert FitsOrder(NoKeys, fin.tracker) by { assert fin.tracker.parses.Keys == {}; }
    var again := Finish(fin.tracker, NoKeys);
    Close(EmitAll(dumped, hook, again.emitted))
  }

  /** The slices the run's callbacks produce, in firing order. */
  function RunSlices(rec: Recorded, verbosity: int, hook: NameHook, order: FlushOrder): seq<Slice>
    requires RecordedWritable(rec)
    requires FitsOrder(order, Replayed(rec).tracker)
  {
    CallbacksWritable(rec, order);
    PlanAll(map[], verbosity, hook, RunCallbacks(rec, order)).0
  }

  /**
   * The trace file: `[`, the slices the run's callbacks produce in firing order,
   * then the `plugin_dump` slice, separated by commas, then `]`.
   */
  lemma TraceFile(rec: Recorded, verbosity: int, hook: NameHook, order: FlushOrder, dumpStart: int, dumpEnd: int)
    requires RecordedWritable(rec)
    requires FitsOrder(order, Replayed(rec).tracker)
    ensures FinishCallback(rec, verbosity, hook, order, dumpStart, dumpEnd)
      == "[" + Join(Texts(RunSlices(rec, verbosity, hook, order) + [Slice("plugin_dump", dumpStart, dumpEnd, None)],
                          EpochOf(rec)), ",") + "]"
  {
    CallbacksWritable(rec, order);
    var epoch := EpochOf(rec);
    var cbs := RunCallbacks(rec, order);
    var open := Open(epoch, verbosity);
    var (slices, cache) := PlanAll(map[], verbosity, hook, cbs);
    EmitAllPutsPlan(open, hook, cbs);
    var w := EmitAll(open, hook, cbs);
    var dump := Slice("plugin_dump", dumpStart, dumpEnd, None);
    PutIgnoresCache(PutAll(open, slices), dump, cache);
    PutAllSnoc(open, slices, dump);
    PutAllText(epoch, verbosity, slices + [dump]);
    var fin := Finish(Replayed(rec).tracker, order);
    assert FitsOrder(NoKeys, fin.tracker) by { assert fin.tracker.parses.Keys == {}; }
    FinishTwiceIsSilent(Replayed(rec).tracker, order, NoKeys);
  }

  /**
   * Every record of the four lists reaches the writer: the callbacks mention the
   * replayed stream once per record, plus once more for each PreGenericize that
   * closed a parse interval.
   */
  lemma EveryRecordReported(rec: Recorded, order: FlushOrder)
    requires FitsOrder(order, Replayed(rec).tracker)
    ensures Mentions(RunCallbacks(rec, order)) == multiset(Stream(rec)) + Echoes(Replayed(rec).emitted)
    ensures Echoes(Replayed(rec).emitted) <= PreGenericizes(Stream(rec))
  {
    ReplayOrder(rec);
    RunMentionsEveryRecord(Stream(rec), order);
  }
}
