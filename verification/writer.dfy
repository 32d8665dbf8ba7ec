/**
 * `TraceWriter` and `WriteCallback`: the Chrome "Trace Event Format" serializer.
 * The output file is a string that is only ever appended to. A slice is written
 * as one JSON object; the writer puts `[` first, a comma before every slice but
 * the first, and `]` last. Function names are looked up through the front end's
 * printable-name hook, quoted, and cached by the declaration's uid.
 */
module TraceWriter {
  import opened Basics
  import opened Events
  import opened Decimal
  import opened Escaping

  /** `lang_hooks.decl_printable_name(decl, verbosity)`, left uninterpreted. */
  type NameHook = (Tree, int) -> string

  datatype Arg = Arg(key: string, value: string)

  /** One trace event: its name, begin and end time (nanoseconds) and optional argument. */
  datatype Slice = Slice(name: string, start: int, end: int, arg: Option<Arg>)

  /**
   * The writer's state: the text written so far, the epoch all times are taken
   * relative to, the verbosity handed to the name hook, the number of slices
   * written and the uid-keyed cache of quoted function names.
   */
  datatype Writer = Writer(out: string, epoch: int, verbosity: int, sliceCount: nat, cache: map<Uid, string>)

  /** The constructor: the document opens with `[`. */
  function Open(epoch: int, verbosity: int): Writer
  {
    Writer("[", epoch, verbosity, 0, map[])
  }

  /** The destructor: the document closes with `]`. */
  function Close(w: Writer): string
  {
    w.out + "]"
  }

  // ---------------------------------------------------------------------------
  // Slice text
  // ---------------------------------------------------------------------------

  /** A complete event (`"X"` with its duration) when time passed, an instant (`"i"`) otherwise. */
  function Phase(dur: int): string
  {
    if dur > 0 then "\"ph\":\"X\",\"dur\":" + Fixed(dur) + "," else "\"ph\":\"i\","
  }

  /** The fields `SliceWriter`'s constructor prints after the opening brace. */
  function Fields(s: Slice, epoch: int): string
  {
    FieldText(s.name, Fixed(s.start - epoch), Phase(s.end - s.start))
  }

  /** The field list around a name, a rendered start time and a phase. */
  function FieldText(name: string, ts: string, phase: string): string
  {
    "\"name\":\"" + name + "\",\"ts\":" + ts + "," + phase + "\"pid\":0,\"tid\":0"
  }

  /** `ArgWriter`: an `args` object holding one string-valued field. */
  function ArgText(a: Option<Arg>): string
  {
    match a
    case None => ""
    case Some(Arg(key, value)) => ",\"args\":" + "{" + "\"" + key + "\":\"" + value + "\"" + "}"
  }

  function SliceText(s: Slice, epoch: int): string
  {
    "{" + (Fields(s, epoch) + ArgText(s.arg)) + "}"
  }

  /** `SliceWriter`: a comma unless this is the first slice, then the slice's object. */
  function Put(w: Writer, s: Slice): (w': Writer)
    ensures w' == w.(out := w'.out, sliceCount := w.sliceCount + 1)
    ensures |w.out| < |w'.out| && w'.out[..|w.out|] == w.out
  {
    w.(out := w.out + (if w.sliceCount > 0 then "," else "") + SliceText(s, w.epoch),
       sliceCount := w.sliceCount + 1)
  }

  /** The slices written in list order. */
  function PutAll(w: Writer, ss: seq<Slice>): (w': Writer)
    ensures w' == w.(out := w'.out, sliceCount := w.sliceCount + |ss|)
  {
    if ss == [] then w else Put(PutAll(w, ss[..|ss| - 1]), ss[|ss| - 1])
  }

  function Texts(ss: seq<Slice>, epoch: int): (ts: seq<string>)
    ensures |ts| == |ss|
  {
    if ss == [] then [] else Texts(ss[..|ss| - 1], epoch) + [SliceText(ss[|ss| - 1], epoch)]
  }

  /** `[` and then the texts separated by commas. */
  function Frame(texts: seq<string>): string
  {
    "[" + Join(texts, ",")
  }

  lemma FrameSnoc(texts: seq<string>, t: string)
    ensures Frame(texts + [t]) == Frame(texts) + (if texts == [] then "" else ",") + t
  {
    if texts == [] {
      assert texts + [t] == [t];
    } else {
      JoinSnoc(texts, t, ",");
    }
  }

  /** The document so far: `[` and then the slice objects separated by commas. */
  lemma {:induction false} PutAllText(epoch: int, verbosity: int, ss: seq<Slice>)
    ensures PutAll(Open(epoch, verbosity), ss).out == Frame(Texts(ss, epoch))
  {
    if ss != [] {
      var init := ss[..|ss| - 1];
      PutAllText(epoch, verbosity, init);
      var before := PutAll(Open(epoch, verbosity), init);
      var text := SliceText(ss[|ss| - 1], epoch);
      FrameSnoc(Texts(init, epoch), text);
      assert before.sliceCount == |init|;
    }
  }

  /** The finished document is `[`, the slices separated by commas, and `]`; `[]` when there are none. */
  lemma Document(epoch: int, verbosity: int, ss: seq<Slice>)
    ensures Close(PutAll(Open(epoch, verbosity), ss)) == "[" + Join(Texts(ss, epoch), ",") + "]"
    ensures ss == [] ==> Close(PutAll(Open(epoch, verbosity), ss)) == "[]"
  {
    PutAllText(epoch, verbosity, ss);
  }

  // ---------------------------------------------------------------------------
  // Function names
  // ---------------------------------------------------------------------------

  /**
   * `get_decl_name`: the cached name for the declaration's uid, or the printable
   * name with its quotes escaped, which is then cached.
   */
  function DeclName(cache: map<Uid, string>, verbosity: int, hook: NameHook, decl: Tree)
    : (res: (string, map<Uid, string>))
    requires decl.Node?
    ensures res.1.Keys == cache.Keys + {decl.ptUid}
    ensures res.1[decl.ptUid] == res.0
    ensures forall u :: u in cache ==> res.1[u] == cache[u]
  {
    var uid := decl.ptUid;
    if uid in cache then (cache[uid], cache)
    else
      var name := Escape(hook(decl, verbosity));
      (name, cache[uid := name])
  }

  /** A later lookup of a cached uid returns the stored string, whatever the hook would say now. */
  lemma CacheHit(cache: map<Uid, string>, verbosity: int, hook: NameHook, other: NameHook, d1: Tree, d2: Tree)
    requires d1.Node? && d2.Node? && d1.ptUid == d2.ptUid
    ensures var (name, cache') := DeclName(cache, verbosity, hook, d1);
      DeclName(cache', verbosity, other, d2) == (name, cache')
  {
  }

  /**
   * Every cached string is the escaped printable name of some declaration with
   * that uid: its quotes are guarded and removing the guards gives the hook's name.
   */
  ghost predicate CacheSound(cache: map<Uid, string>, verbosity: int, hook: NameHook)
  {
    forall u :: u in cache ==>
      Guarded(cache[u]) && exists d: Tree :: d.Node? && d.ptUid == u && Unescape(cache[u]) == hook(d, verbosity)
  }

  lemma LookupKeepsSound(cache: map<Uid, string>, verbosity: int, hook: NameHook, decl: Tree)
    requires decl.Node?
    requires CacheSound(cache, verbosity, hook)
    ensures CacheSound(DeclName(cache, verbosity, hook, decl).1, verbosity, hook)
    ensures Guarded(DeclName(cache, verbosity, hook, decl).0)
  {
    var uid := decl.ptUid;
    if uid !in cache {
      var printable := hook(decl, verbosity);
      EscapeGuarded(printable);
      UnescapeEscape(printable);
      var cache' := DeclName(cache, verbosity, hook, decl).1;
      forall u | u in cache'
        ensures Guarded(cache'[u]) && exists d: Tree :: d.Node? && d.ptUid == u && Unescape(cache'[u]) == hook(d, verbosity)
      {
        if u == uid {
          assert decl.ptUid == u && Unescape(cache'[u]) == hook(decl, verbosity);
        } else {
          assert cache'[u] == cache[u];
        }
      }
    }
  }

  // ---------------------------------------------------------------------------
  // Callbacks
  // ---------------------------------------------------------------------------

  /** Where a slice's argument comes from. */
  datatype ArgSource = NoArg | FileArg(file: string) | FunctionArg(decl: Tree)

  /** What one `write_slice` overload asks for before the function name is looked up. */
  datatype Request = Request(name: string, start: int, end: int, arg: ArgSource)

  /** The matched-slice overloads: the category comes from the begin record. */
  function MatchRequest(start: Record, end: Record): (q: Request)
    ensures q.start == start.timestamp && q.end == end.timestamp
    ensures q.arg.FileArg? <==> start.event.IncludeEvent?
    ensures q.arg.FileArg? ==> q.arg.file == start.event.filename
    ensures q.arg.FunctionArg? <==> start.event.ParseEvent? || (start.event.PassEvent? && start.event.decl.Node?)
    ensures q.arg.FunctionArg? ==> q.arg.decl == start.event.decl
    ensures start.event.PassEvent? ==> q.name == start.event.name
  {
    var t0 := start.timestamp;
    var t1 := end.timestamp;
    match start.event
    case UnitEvent(_) => Request("unit", t0, t1, NoArg)
    case IncludeEvent(_, file) => Request("include", t0, t1, FileArg(file))
    case ParseEvent(k, decl, _) =>
      Request(if k == ParseStart then "parse" else "genericize", t0, t1, FunctionArg(decl))
    case PassEvent(_, name, decl, _) =>
      Request(name, t0, t1, if decl.Node? then FunctionArg(decl) else NoArg)
  }

  /** A dangling parse Start: the one record for which nothing is written. */
  predicate IsParseStartRecord(r: Record)
  {
    r.event.ParseEvent? && r.event.parseKind == ParseStart
  }

  /** The marker overloads: both times are the record's own, so markers are instants. */
  function MarkerRequest(end: Record): (q: Option<Request>)
    ensures q.None? <==> IsParseStartRecord(end)
    ensures q.Some? ==> q.value.start == end.timestamp && q.value.end == end.timestamp
    ensures q.Some? && q.value.arg.FileArg? ==> end.event.IncludeEvent? && q.value.arg.file == end.event.filename
    ensures end.event.IncludeEvent? ==> (q.value.arg.FileArg? <==> end.event.includeKind == IncludeEnter)
    ensures q.Some? && q.value.arg.FunctionArg? ==>
      (end.event.ParseEvent? || end.event.PassEvent?) && q.value.arg.decl.Node? && q.value.arg.decl == end.event.decl
    ensures q.Some? && (end.event.ParseEvent? || end.event.PassEvent?) ==>
      (q.value.arg.FunctionArg? <==> end.event.decl.Node?)
    ensures q.Some? && (end.event.UnitEvent? || end.event.IncludeEvent?) ==> !q.value.arg.FunctionArg?
    ensures end.event.PassEvent? ==>
      q.Some? && |end.event.name| <= |q.value.name| && q.value.name[..|end.event.name|] == end.event.name
    ensures end.event.PassEvent? ==>
      q.value.name[|end.event.name|..] == if end.event.passKind == PassStart then " (start)" else " (cancelled)"
  {
    var t := end.timestamp;
    match end.event
    case UnitEvent(k) =>
      Some(Request(if k == UnitStart then "unit (start)" else "unit (end)", t, t, NoArg))
    case IncludeEvent(k, file) =>
      if k == IncludeEnter then Some(Request("include (enter)", t, t, FileArg(file)))
      else Some(Request("include (leave)", t, t, NoArg))
    case ParseEvent(k, decl, _) =>
      if k == ParseStart then None
      else
        Some(Request(if k == ParsePreGenericize then "genericize (start)" else "parse (finish)", t, t,
                     if decl.Node? then FunctionArg(decl) else NoArg))
    case PassEvent(k, name, decl, _) =>
      var title := name + (if k == PassStart then " (start)" else " (cancelled)");
      assert title[..|name|] == name;
      Some(Request(title, t, t, if decl.Node? then FunctionArg(decl) else NoArg))
  }

  /** The overload a unit, include or parse slice came from, as its name shows. */
  datatype Origin =
    | UnitInterval
    | IncludeInterval
    | ParseInterval
    | GenericizeInterval
    | UnitMarker(unitKind: UnitKind)
    | IncludeMarker(includeKind: IncludeKind)
    | ParseMarker(parseKind: ParseKind)

  /** Reading a fixed slice name back. */
  function OriginOf(title: string): Option<Origin>
  {
    if title == "unit" then Some(UnitInterval)
    else if title == "include" then Some(IncludeInterval)
    else if title == "parse" then Some(ParseInterval)
    else if title == "genericize" then Some(GenericizeInterval)
    else if title == "unit (start)" then Some(UnitMarker(UnitStart))
    else if title == "unit (end)" then Some(UnitMarker(UnitEnd))
    else if title == "include (enter)" then Some(IncludeMarker(IncludeEnter))
    else if title == "include (leave)" then Some(IncludeMarker(IncludeLeave))
    else if title == "genericize (start)" then Some(ParseMarker(ParsePreGenericize))
    else if title == "parse (finish)" then Some(ParseMarker(ParseFinish))
    else None
  }

  /**
   * The name of a matched unit, include or parse slice tells its category, and
   * for parse slices whether the interval began at Start (`parse`) or at
   * PreGenericize (`genericize`).
   */
  lemma MatchNamesTell(start: Record, end: Record)
    requires !start.event.PassEvent?
    ensures var o := OriginOf(MatchRequest(start, end).name);
      && (start.event.UnitEvent? <==> o == Some(UnitInterval))
      && (start.event.IncludeEvent? <==> o == Some(IncludeInterval))
      && (start.event.ParseEvent? && start.event.parseKind == ParseStart <==> o == Some(ParseInterval))
      && (start.event.ParseEvent? && start.event.parseKind != ParseStart <==> o == Some(GenericizeInterval))
  {
  }

  /** A written unit, include or parse marker names the category and the kind of its record. */
  lemma MarkerTitlesTell(end: Record)
    requires !end.event.PassEvent? && !IsParseStartRecord(end)
    ensures MarkerRequest(end).Some?
    ensures var o := OriginOf(MarkerRequest(end).value.name);
      && (end.event.UnitEvent? ==> o == Some(UnitMarker(end.event.unitKind)))
      && (end.event.IncludeEvent? ==> o == Some(IncludeMarker(end.event.includeKind)))
      && (end.event.ParseEvent? ==> o == Some(ParseMarker(end.event.parseKind)))
  {
  }

  /** `WriteCallback`: `on_match` writes a matched slice, `on_mismatch` a marker. */
  function RequestOf(c: Callback): Option<Request>
  {
    match c
    case Match(start, end) => Some(MatchRequest(start, end))
    case Mismatch(r) => MarkerRequest(r)
  }

  /**
   * The matched parse overload looks up its begin record's declaration without a
   * null check; every other lookup is guarded.
   */
  predicate Writable(c: Callback)
  {
    c.Match? && c.start.event.ParseEvent? ==> c.start.event.decl.Node?
  }

  function Resolve(cache: map<Uid, string>, verbosity: int, hook: NameHook, a: ArgSource)
    : (res: (Option<Arg>, map<Uid, string>))
    requires a.FunctionArg? ==> a.decl.Node?
    ensures res.0.Some? <==> !a.NoArg?
    ensures res.0.Some? ==> res.0.value.key == (if a.FileArg? then "file" else "function")
    ensures a.FileArg? ==> res.0 == Some(Arg("file", a.file)) && res.1 == cache
    ensures a.NoArg? ==> res.1 == cache
    ensures a.FunctionArg? ==>
      var (name, cache') := DeclName(cache, verbosity, hook, a.decl);
      res.0 == Some(Arg("function", name)) && res.1 == cache'
    ensures cache.Keys <= res.1.Keys
  {
    match a
    case NoArg => (None, cache)
    case FileArg(file) => (Some(Arg("file", file)), cache)
    case FunctionArg(decl) =>
      var (name, cache') := DeclName(cache, verbosity, hook, decl);
      (Some(Arg("function", name)), cache')
  }

  /** The slice a callback produces (none for a dangling parse Start) and the updated name cache. */
  function Plan(cache: map<Uid, string>, verbosity: int, hook: NameHook, c: Callback)
    : (res: (Option<Slice>, map<Uid, string>))
    requires Writable(c)
    ensures res.0.None? <==> c.Mismatch? && IsParseStartRecord(c.record)
    ensures c.Mismatch? && res.0.Some? ==> res.0.value.start == res.0.value.end == c.record.timestamp
    ensures c.Match? ==> res.0.Some? && res.0.value.start == c.start.timestamp && res.0.value.end == c.end.timestamp
    ensures res.0.Some? ==> RequestOf(c).Some? && res.0.value.name == RequestOf(c).value.name
    ensures res.0.Some? ==>
      var (arg, cache') := Resolve(cache, verbosity, hook, RequestOf(c).value.arg);
      res.0.value.arg == arg && res.1 == cache'
    ensures res.0.None? ==> res.1 == cache
  {
    match RequestOf(c)
    case None => (None, cache)
    case Some(q) =>
      var (arg, cache') := Resolve(cache, verbosity, hook, q.arg);
      (Some(Slice(q.name, q.start, q.end, arg)), cache')
  }

  /**
   * A resolved `function` argument is the quoted printable name of a declaration
   * with the requested uid: the hook's name for the declaration itself when the
   * uid was not cached yet. The cache stays sound.
   */
  lemma ResolvedNameSound(cache: map<Uid, string>, verbosity: int, hook: NameHook, a: ArgSource)
    requires a.FunctionArg? && a.decl.Node?
    requires CacheSound(cache, verbosity, hook)
    ensures var (arg, cache') := Resolve(cache, verbosity, hook, a);
      && CacheSound(cache', verbosity, hook)
      && arg.Some? && Guarded(arg.value.value)
      && (exists d: Tree :: d.Node? && d.ptUid == a.decl.ptUid && Unescape(arg.value.value) == hook(d, verbosity))
      && (a.decl.ptUid !in cache ==> arg.value.value == Escape(hook(a.decl, verbosity)))
  {
    var (name, cache') := DeclName(cache, verbosity, hook, a.decl);
    LookupKeepsSound(cache, verbosity, hook, a.decl);
    assert cache'[a.decl.ptUid] == name;
  }

  /**
   * The slice a callback plans carries the overload's name, and a `function`
   * argument on it names a declaration of the request's uid through the hook.
   */
  lemma PlannedFunctionName(cache: map<Uid, string>, verbosity: int, hook: NameHook, c: Callback)
    requires Writable(c)
    requires CacheSound(cache, verbosity, hook)
    ensures var (s, cache') := Plan(cache, verbosity, hook, c);
      && CacheSound(cache', verbosity, hook)
      && (s.Some? && s.value.arg.Some? && s.value.arg.value.key == "function" ==>
            && RequestOf(c).value.arg.FunctionArg?
            && Guarded(s.value.arg.value.value)
            && exists d: Tree :: d.Node? && d.ptUid == RequestOf(c).value.arg.decl.ptUid
                 && Unescape(s.value.arg.value.value) == hook(d, verbosity))
  {
    var q := RequestOf(c);
    if q.Some? && q.value.arg.FunctionArg? {
      ResolvedNameSound(cache, verbosity, hook, q.value.arg);
    }
  }

  /** One callback delivered to the writer. */
  function Emit(w: Writer, hook: NameHook, c: Callback): (w': Writer)
    requires Writable(c)
    ensures w'.epoch == w.epoch && w'.verbosity == w.verbosity
    ensures w'.sliceCount == if c.Mismatch? && IsParseStartRecord(c.record) then w.sliceCount else w.sliceCount + 1
    ensures c.Mismatch? && IsParseStartRecord(c.record) ==> w' == w
    ensures |w.out| <= |w'.out| && w'.out[..|w.out|] == w.out
  {
    var (slice, cache') := Plan(w.cache, w.verbosity, hook, c);
    var w1 := w.(cache := cache');
    if slice.None? then w1 else Put(w1, slice.value)
  }

  function EmitAll(w: Writer, hook: NameHook, cbs: seq<Callback>): (w': Writer)
    requires forall c :: c in cbs ==> Writable(c)
  {
    if cbs == [] then w else Emit(EmitAll(w, hook, cbs[..|cbs| - 1]), hook, cbs[|cbs| - 1])
  }

  /** The slices a callback list produces, with the name cache threaded through. */
  function PlanAll(cache: map<Uid, string>, verbosity: int, hook: NameHook, cbs: seq<Callback>)
    : (res: (seq<Slice>, map<Uid, string>))
    requires forall c :: c in cbs ==> Writable(c)
    ensures |res.0| <= |cbs|
  {
    if cbs == [] then ([], cache)
    else
      var (ss, cache1) := PlanAll(cache, verbosity, hook, cbs[..|cbs| - 1]);
      var (s, cache2) := Plan(cache1, verbosity, hook, cbs[|cbs| - 1]);
      (ss + (if s.Some? then [s.value] else []), cache2)
  }

  /** Appending a slice neither reads nor writes the name cache. */
  lemma PutIgnoresCache(w: Writer, s: Slice, cache: map<Uid, string>)
    ensures Put(w.(cache := cache), s) == Put(w, s).(cache := cache)
  {
  }

  lemma PutAllSnoc(w: Writer, ss: seq<Slice>, s: Slice)
    ensures PutAll(w, ss + [s]) == Put(PutAll(w, ss), s)
  {
    assert (ss + [s])[..|ss|] == ss;
  }

  /** One more callback: the writer state stays the planned slices written over the threaded cache. */
  lemma EmitStep(w: Writer, hook: NameHook, ss: seq<Slice>, cache: map<Uid, string>, c: Callback)
    requires Writable(c)
    ensures var (s, cache') := Plan(cache, w.verbosity, hook, c);
      Emit(PutAll(w, ss).(cache := cache), hook, c)
        == PutAll(w, ss + (if s.Some? then [s.value] else [])).(cache := cache')
  {
    var before := PutAll(w, ss);
    var (s, cache') := Plan(cache, w.verbosity, hook, c);
    if s.Some? {
      PutIgnoresCache(before, s.value, cache');
      PutAllSnoc(w, ss, s.value);
    } else {
      assert ss + [] == ss;
    }
  }

  /**
   * Writing callbacks one by one is writing the slices they plan, in order; the
   * name cache is the only other state that changes.
   */
  lemma {:induction false} EmitAllPutsPlan(w: Writer, hook: NameHook, cbs: seq<Callback>)
    requires forall c :: c in cbs ==> Writable(c)
    ensures var (ss, cache') := PlanAll(w.cache, w.verbosity, hook, cbs);
      EmitAll(w, hook, cbs) == PutAll(w, ss).(cache := cache')
  {
    if cbs != [] {
      var init := cbs[..|cbs| - 1];
      var last := cbs[|cbs| - 1];
      assert forall c :: c in init ==> c in cbs;
      EmitAllPutsPlan(w, hook, init);
      var (ss, cache1) := PlanAll(w.cache, w.verbosity, hook, init);
      EmitStep(w, hook, ss, cache1, last);
    } else {
      assert PutAll(w, []) == w;
    }
  }

  /**
   * The file the writer leaves behind for a callback list: `[`, the planned
   * slices separated by commas, `]`.
   */
  lemma CallbackDocument(epoch: int, verbosity: int, hook: NameHook, cbs: seq<Callback>)
    requires forall c :: c in cbs ==> Writable(c)
    ensures Close(EmitAll(Open(epoch, verbosity), hook, cbs))
      == "[" + Join(Texts(PlanAll(map[], verbosity, hook, cbs).0, epoch), ",") + "]"
  {
    EmitAllPutsPlan(Open(epoch, verbosity), hook, cbs);
    PutAllText(epoch, verbosity, PlanAll(map[], verbosity, hook, cbs).0);
  }

  /** The custom overload, used for the `plugin_dump` slice. */
  function WriteNamed(w: Writer, name: string, start: int, end: int): Writer
  {
    Put(w, Slice(name, start, end, None))
  }
}
