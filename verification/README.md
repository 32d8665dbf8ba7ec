# GCC time-trace plugin — a Dafny model

This project models the core of a GCC plugin that records compilation events and writes them out as a Chrome "Trace Event Format" JSON array:

- the correlation engine `EventTracker`, which pairs begin and end events on stacks;
- the serializer `TraceWriter` together with `WriteCallback`;
- the small pure pieces of the plugin's driver.

Everything is a pure function over immutable values:

- A tracker step returns the new tracker and the callbacks it fired, as `Step(tracker, emitted)`.
- The writer's output is a `string` that is only ever appended to.
- Timestamps are integer nanoseconds carried in each record.
- A `tree` is either null or an opaque node with its `DECL_PT_UID`.
- The printable-name language hook is a function parameter.

## Modules

| file | module | what it holds |
|---|---|---|
| basics.dfy | `Basics` | `Option`, `Result`, `Reverse`, `Join` |
| events.dfy | `Events` | event, record and callback types; the multisets of records a callback list mentions |
| tracker.dfy | `EventTracker` | `push_event` for each category, `try_match_stack`/`try_match_map`, `finish_stack`/`finish_map`, `finish` |
| conservation.dfy | `Conservation` | record conservation across pushes and `finish()` |
| tracker_props.dfy | `TrackerProps` | the stack invariant, correlation, and concrete scenarios |
| decimal.dfy | `Decimal` | the `%ld.%03ld` rendering, with C's truncating `/` and `%`, and a parser for it |
| escaping.dfy | `Escaping` | the quote escaping of `get_decl_name` and its `strcspn` loop |
| writer.dfy | `TraceWriter` | framing, slice text, the `write_slice` overloads, the name cache, `WriteCallback` |
| braces.dfy | `Braces` | brace depth of a string |
| shape.dfy | `SliceShape` | each slice is one balanced object; markers are instants |
| plugin.dfy | `Plugin` | notification → event mapping, list reversal, epoch, replay order, the whole `finish_callback` |
| options.dfy | `Options` | `setup_option` |
| concat.dfy | `Concat` | regrouping a four-part concatenation |
| passes.dfy | `Passes` | `collect_passes` and the first-occurrence probe for marker passes |

Two places where the model follows the code rather than the obvious reading of it:

- **Negative times.** `ts` and `dur` are printed with `%ld.%03ld` of `n / 1000` and `n % 1000`, using C's truncating division. The model renders negative counts the way C does (−5 → `0.-05`) instead of requiring non-negative times. The round trip through `Decimal.ParseFixed` is proved for non-negative counts.
- **Null declarations in matched parse slices.** The matched parse-slice overload dereferences the begin record's declaration without a null check. The writer therefore requires a declaration on every parse begin it receives (`TraceWriter.Writable`). This is taken as given: GCC passes a function declaration to the parse callbacks, which the model states as `Plugin.WellFormed`. The same predicate also assumes that no ordinary pass is named `*time_trace`, which the gate callback relies on when it casts the current pass to the plugin's own marker pass. Under that condition `Plugin.ObservedWritable` and `Plugin.CallbacksWritable` show that every callback `finish_callback` fires can be written.

## Model

| member | source | states |
|---|---|---|
| EventTracker.PushUnit | src/event.hpp:127-138 | a unit Start is pushed on the unit stack with no callback; an End pops the most recent Start and fires a match, or fires a mismatch on an empty stack; the other containers are untouched |
| EventTracker.PushInclude | src/event.hpp:140-151 | the same LIFO discipline for Enter/Leave on the include stack; the other containers are untouched |
| EventTracker.PushParseStart | src/event.hpp:156-158 | a parse Start goes on top of its own uid's parse stack; no callback; other uids and containers unchanged |
| EventTracker.PushPreGenericize | src/event.hpp:160-167 | a PreGenericize is always pushed on its uid's genericize stack; it matches the top of its parse stack when there is one, and otherwise fires nothing at all |
| EventTracker.PushParseFinish | src/event.hpp:169-177 | a Finish pops the parse stack of its uid first, the genericize stack only when no parse entry exists, and is a mismatch when both are empty |
| EventTracker.PushParse | src/event.hpp:153-179 | the parse overload leaves the unit, include and pass containers unchanged |
| EventTracker.PushPass | src/event.hpp:181-192 | pass events use only the stack of their own name; every other name and every other container is unchanged |
| EventTracker.Push | src/event.hpp:127-192 | one push fires at most one callback, and it is about the pushed record: a match ending at it or a mismatch of it |
| EventTracker.FlushStack | src/event.hpp:229-236 | `finish_stack` fires one mismatch per entry, front to back |
| EventTracker.FlushMap | src/event.hpp:238-245 | `finish_map` mentions exactly the entries of all stacks of the map, whatever the key order |
| EventTracker.Finish | src/event.hpp:194-201 | `finish()` fires only mismatches, mentions exactly the pending entries, and leaves all five containers empty |
| EventTracker.PushKeyed | src/event.hpp:157 | `stack_dict[k].push_front(r)`: `operator[]` creates the key's stack when missing, `r` goes on its front, other keys are unchanged; used by `PushParseStart`, `PushPreGenericize` (event.hpp:161) and `PushPass` (event.hpp:185) |
| EventTracker.ReplayAll | src/plugin.cpp:199-211 | successive `push_event` calls fire at most one callback per record; conservation over the stream is `Conservation.ReplayConserves` and correlation is `TrackerProps.ReplayCorrelates` |
| EventTracker.TryMatchStack | src/event.hpp:204-213 | `try_match_stack` pops the front exactly when the stack is non-empty; the popped entry put back in front gives the old stack |
| EventTracker.TryMatchMap | src/event.hpp:215-227 | `try_match_map` pops exactly when the key has a non-empty stack, the popped entry is that stack's front, an emptied key is erased, and other keys are unchanged |
| EventTracker.DefaultMatch | src/event.hpp:87-99 | `DefaultMatchCallback` fires a match from the popped start to the end record, or a mismatch of the end record when nothing was popped |
| EventTracker.MapPendingPop | src/event.hpp:215-227 | `try_match_map` removes exactly the popped entry from the map's pending entries, and nothing when it pops nothing |
| Conservation.UnitStartConserves | src/event.hpp:130-132 | pending + mentioned grows by exactly the pushed Start |
| Conservation.UnitEndConserves | src/event.hpp:134-136 | an End and its popped Start leave the books balanced |
| Conservation.IncludeEnterConserves | src/event.hpp:143-145 | pending + mentioned grows by exactly the Enter |
| Conservation.IncludeLeaveConserves | src/event.hpp:147-149 | a Leave and its popped Enter leave the books balanced |
| Conservation.ParseStartConserves | src/event.hpp:156-158 | pending + mentioned grows by exactly the Start |
| Conservation.PreGenericizeMatchConserves | src/event.hpp:160-167 | a matched PreGenericize is both handed out and kept pending: it is the one echoed record |
| Conservation.PreGenericizeAloneConserves | src/event.hpp:160-167 | an unmatched PreGenericize fires nothing and is only kept pending |
| Conservation.FinishParseConserves | src/event.hpp:169-172 | a Finish matching a parse Start balances |
| Conservation.FinishGenericizeConserves | src/event.hpp:173-175 | the genericize fallback, match or mismatch, balances |
| Conservation.PassStartConserves | src/event.hpp:184-186 | pending + mentioned grows by exactly the pass Start |
| Conservation.PassEndConserves | src/event.hpp:188-190 | a pass End balances, matched or not |
| Conservation.ParseConserves | src/event.hpp:153-179 | the parse overload balances, echoing only PreGenericize records |
| Conservation.PushConserves | src/event.hpp:127-192 | no push loses or invents a record: pending + mentioned = old pending + the record, plus an echo only for a PreGenericize |
| Conservation.ReplayConserves | src/event.hpp:127-192 | conservation over any stream of pushes; the echoes are a sub-multiset of the stream's PreGenericize records |
| Conservation.RunMentionsEveryRecord | src/event.hpp:127-201 | pushes then `finish()`: the callbacks mention the stream exactly, plus the echoed PreGenericizes; nothing stays pending |
| Conservation.ExactlyOnce | src/event.hpp:127-201 | a record occurring once is in exactly one callback, or in one or two callbacks if it is a PreGenericize |
| Conservation.FinishTwiceIsSilent | src/event.hpp:122-125 | the destructor's second `finish()` fires nothing and leaves the tracker empty |
| Conservation.MatchStartsPending | src/event.hpp:204-227 | every interval a push closes begins at an entry that was pending |
| Conservation.PushPendingGrowth | src/event.hpp:127-192 | a push adds nothing to the pending entries except its own record |
| Conservation.MatchedIntervalsForward | src/event.hpp:204-213 | with time-ordered records, every matched interval starts no later than it ends |
| TrackerProps.ParseCorrelates | src/event.hpp:153-179 | the parse overload keeps every map key on a non-empty stack of begins of that key, and pairs only correlated records |
| TrackerProps.PassCorrelates | src/event.hpp:181-192 | the same for the pass map keyed by name |
| TrackerProps.PushCorrelates | src/event.hpp:216-223 | every push keeps the invariant (begins only, on their own key, no empty stack) and closes only correlated pairs |
| TrackerProps.ReplayCorrelates | src/event.hpp:127-192 | the invariant holds after any replay, and every match pairs a begin with an end of its category and key |
| TrackerProps.ReplayAppend | src/plugin.cpp:199-211 | replaying `a + b` is replaying `a`, then `b` from the tracker `a` left |
| TrackerProps.ParseThenGenericize | src/event.hpp:153-179 | Start(k), PreGenericize(k), Finish(k) fire exactly match(Start, PreG) then match(PreG, Finish), and k leaves both maps |
| TrackerProps.ParseWithoutGenericize | src/event.hpp:169-177 | Start(k), Finish(k) fire exactly one match(Start, Finish) |
| TrackerProps.NestedIncludes | src/event.hpp:140-151 | Enter a, Enter b, Leave, Leave pair b with the first Leave and a with the second |
| TrackerProps.ReenteredPass | src/event.hpp:181-192 | two Starts and two Ends of one pass name pair LIFO |
| TrackerProps.NestedIncludesMatch | src/event.hpp:140-151 | an include stream that never leaves more than it entered produces only matches, one per Leave |
| Decimal.Quot | src/writer.hpp:44 | `n / 1000` truncates toward zero: the remainder has the sign of `n` and is below 1000 in magnitude |
| Decimal.Rem | src/writer.hpp:44 | `n % 1000` with `n == 1000 * (n / 1000) + n % 1000` |
| Decimal.Digits | src/writer.hpp:44 | `%ld` of a non-negative value is a non-empty digit string with no leading zero |
| Decimal.ValueOfDigits | src/writer.hpp:44 | reading the digits back gives the number |
| Decimal.Long | src/writer.hpp:44 | a negative `%ld` is a minus sign followed by the digits of the magnitude |
| Decimal.Padded3 | src/writer.hpp:44 | `%03ld` is at least three characters wide; its reading back is `Padded3Reads` |
| Decimal.Padded3Reads | src/writer.hpp:44 | `%03ld` has a minus sign exactly for negative values, then digits that denote the magnitude, zero-padded to a width of three |
| Decimal.NegativeRemainder | src/writer.hpp:44 | a negative remainder `r` prints as `-`, one `0` when the magnitude is below 10, then the digits of the magnitude |
| Decimal.Fixed | src/writer.hpp:44-46 | `%ld.%03ld` of `n / 1000` and `n % 1000`; its meaning is carried by `FixedRoundTrip`, `FixedAlphabet` and the two example lemmas |
| Decimal.FixedRoundTrip | src/writer.hpp:44-46 | for n ≥ 0 the rendering parses back to n |
| Decimal.FixedExamples | src/writer.hpp:44 | 5 ns renders as `0.005` and 1234567 ns as `1234.567` |
| Decimal.NegativeExamples | src/writer.hpp:44 | −5 renders as `0.-05` and −1500 as `-1.-500` |
| Decimal.FixedAlphabet | src/writer.hpp:44-46 | a rendering holds only digits, `.` and `-` |
| Escaping.Escape | src/writer.hpp:182-189 | the reference escaping is at least as long as the name and never starts with a quote |
| Escaping.EscapeGuarded | src/writer.hpp:185-188 | every quote of an escaped name comes right after a backslash |
| Escaping.UnescapeEscape | src/writer.hpp:182-189 | deleting the inserted backslashes recovers the printable name |
| Escaping.Span | src/writer.hpp:185 | `strcspn(name, "\"")` is the length of the longest quote-free prefix |
| Escaping.EscapeSpan | src/writer.hpp:185-188 | one loop round: the quote-free span, `\"`, then the escaping of the rest |
| Escaping.EscapeQuotes | src/writer.hpp:182-189 | the `strcspn` loop computes exactly the reference escaping |
| TraceWriter.Open | src/writer.hpp:80-87 | the constructor writes `[` with no slices and an empty cache; the framing is stated by `Document` |
| TraceWriter.Close | src/writer.hpp:89-92 | the destructor appends `]`; the whole document is stated by `Document` and `CallbackDocument` |
| TraceWriter.Phase | src/writer.hpp:45-49 | `"X"` with a `dur` field for a positive duration, `"i"` otherwise; stated by `SliceShape.PhaseKind` |
| TraceWriter.Fields | src/writer.hpp:38-50 | the fields `SliceWriter` prints: name, time relative to the epoch, phase, pid and tid; brace-free by `SliceShape.FieldsFlat` |
| TraceWriter.ArgText | src/writer.hpp:59-74 | `ArgWriter`'s `,"args":{…}` around one string field; balanced by `SliceShape.ArgNested` |
| TraceWriter.SliceText | src/writer.hpp:35-57 | one slice object; `SliceShape.SliceIsObject` shows it is a single balanced object |
| TraceWriter.Put | src/writer.hpp:35-56 | writing a slice only appends to the output and counts the slice |
| TraceWriter.PutAll | src/writer.hpp:41-43 | writing a list counts every slice and changes nothing else |
| TraceWriter.PutAllText | src/writer.hpp:41-43 | after the slices the output is `[` and the slice texts separated by commas |
| TraceWriter.Document | src/writer.hpp:80-92 | the closed document is `[`, comma-separated slices, `]`; with no slices it is `[]` |
| TraceWriter.DeclName | src/writer.hpp:177-193 | a lookup caches its uid, returns the cached string, and keeps every earlier entry |
| TraceWriter.CacheHit | src/writer.hpp:179-181 | a second lookup of the uid returns the stored string whatever the name hook says then |
| TraceWriter.LookupKeepsSound | src/writer.hpp:177-193 | every cached string is a guarded escaping of the hook's name for a declaration of that uid |
| TraceWriter.MatchRequest | src/writer.hpp:94-121 | a matched slice spans start to end; a `file` arg exactly for includes; a `function` arg for parse slices and for pass slices with a declaration; pass slices carry the pass name |
| TraceWriter.MarkerRequest | src/writer.hpp:123-169 | a marker is written for every record except a parse Start; it is an instant at the record's time; an include marker has a `file` arg exactly when it is an Enter; a parse or pass marker has a `function` arg exactly when its declaration is non-null; unit and include markers never name a function; a pass marker's title is the pass name followed by ` (start)` for a Start and ` (cancelled)` otherwise |
| TraceWriter.MatchNamesTell | src/writer.hpp:94-112 | matched unit, include, parse and genericize slices get four different names |
| TraceWriter.MarkerTitlesTell | src/writer.hpp:123-158 | unit, include and parse markers get a different title for each kind |
| TraceWriter.Resolve | src/writer.hpp:99-121 | an arg is written exactly when the request has one; its key is `file` or `function`; file names are passed through unescaped and leave the cache alone; a `function` value is what `get_decl_name` returns, with the cache it leaves |
| TraceWriter.ResolvedNameSound | src/writer.hpp:177-193 | with a sound cache, a `function` value is a guarded quoting of the hook's name for a declaration of the requested uid (the declaration's own name on a cache miss), and the cache stays sound |
| TraceWriter.RequestOf | src/writer.hpp:196-211 | `on_match` uses the matched overloads and `on_mismatch` the marker overloads; stated by `MatchRequest`, `MarkerRequest` and `Plan` |
| TraceWriter.Plan | src/writer.hpp:94-169 | no slice for a dangling parse Start; markers are instants; matches span start to end; the slice carries the overload's name and the resolved argument, and the cache is the one the lookup leaves |
| TraceWriter.PlannedFunctionName | src/writer.hpp:106-193 | a planned slice's `function` argument names, through the hook, a declaration with the request's uid, and the cache stays sound |
| TraceWriter.Emit | src/writer.hpp:196-211 | `WriteCallback` only appends, and counts a slice unless nothing is written |
| TraceWriter.EmitAllPutsPlan | src/writer.hpp:196-211 | delivering callbacks one by one writes exactly their planned slices, in order |
| TraceWriter.EmitAll | src/writer.hpp:196-211 | the callbacks delivered one by one; stated by `EmitAllPutsPlan` |
| TraceWriter.WriteNamed | src/writer.hpp:171-174 | the custom overload writes a slice with the given name and times and no argument; used for `plugin_dump` in `Plugin.TraceFile` |
| TraceWriter.CallbackDocument | src/writer.hpp:80-92 | the file for a callback list is `[`, the planned slices separated by commas, `]` |
| SliceShape.PhaseKind | src/writer.hpp:45-49 | the phase is `"X"` exactly when the duration is positive; otherwise it is `"ph":"i",` with no `dur` |
| SliceShape.PhaseDuration | src/writer.hpp:45-46 | for a positive duration the phase is `"ph":"X","dur":`, a rendering that reads back as the duration, and `,` |
| SliceShape.FieldsFlat | src/writer.hpp:44-50 | the slice fields contain no brace when the name has none |
| SliceShape.ArgNested | src/writer.hpp:64-73 | the `args` text is balanced: its object closes inside it |
| SliceShape.SliceIsObject | src/writer.hpp:35-74 | a slice is one JSON object whose first brace closes only at its last character |
| SliceShape.MarkersAreInstants | src/writer.hpp:123-169 | every written marker is an instant, never a complete event |
| Plugin.FileChange | src/plugin.cpp:78-90 | LC_ENTER records an Enter with the file name; LC_LEAVE records a Leave; a null map and any other reason record nothing |
| Plugin.GateEvent | src/plugin.cpp:143-162 | only `*time_trace` passes record; Single → End with no function and uid −1u; StartList → Start and EndList → End with the current function and its uid |
| Plugin.NoticeEvent | src/plugin.cpp:92-168 | unit notices record Start/End; file changes follow `cb_file_change`; parse events come exactly from the three parse notices, each with its own kind, the notice's declaration and its uid; the four pass-list notices record `early_gimple_passes`/`all_ipa_passes` Start or End with a null declaration and uid 0; gate and execution notices follow `override_gate_callback` and `pass_execution_callback` |
| Plugin.Observe | src/plugin.cpp:92-168 | one callback pushes its record, if any, onto its list; stated through `Prepend` and `ArrivalOrder` |
| Plugin.ObserveAll | src/plugin.cpp:73-168 | the four lists after a compilation's notifications; `ArrivalOrder` shows that reversing them gives arrival order |
| Basics.Reverse | src/plugin.cpp:174-177 | `forward_list::reverse`: same length, element i is the input's i-th element counted from the back; `Plugin.ArrivalOrder` uses it to show arrival order |
| Plugin.InOrder | src/plugin.cpp:174-177 | the four `reverse()` calls: every list is the reverse of the recorded one; `Plugin.ArrivalOrder` shows the result is in arrival order |
| Plugin.Replayed | src/plugin.cpp:199-211 | the four replay loops, each continuing from the tracker the previous left; `Plugin.ReplayOrder` shows they are one replay of the concatenated stream |
| Plugin.Prepend | src/plugin.cpp:73-76 | `push_front` puts a record at the front of its category's list and leaves the other lists alone |
| Plugin.ArrivalOrder | src/plugin.cpp:174-177 | after `reverse()` every list is in arrival order |
| Plugin.ArrivedChronological | src/plugin.cpp:174-177 | with a clock that never goes back, each reversed list is in time order |
| Plugin.ObservedWritable | src/plugin.cpp:105-121 | every recorded parse event carries a declaration |
| Plugin.Epoch | src/plugin.cpp:179-184 | the epoch is one of the four fronts, with `max()` for an empty list, and no larger than any of them |
| Plugin.EpochOf | src/plugin.cpp:174-184 | the epoch of the reversed lists; stated by `Epoch` and `EpochFirst` |
| Plugin.EpochFirst | src/plugin.cpp:179-184 | with time-ordered lists the epoch is no later than any recorded timestamp |
| Plugin.ReplayOrder | src/plugin.cpp:199-211 | the four replay loops are one replay of units, then includes, then parses, then passes |
| Plugin.RunWritable | src/plugin.cpp:199-212 | every callback of a replay and `finish()` can be written when parse records carry declarations |
| Plugin.CallbacksWritable | src/plugin.cpp:199-212 | every callback `finish_callback` fires can be written |
| Plugin.FinishCallback | src/plugin.cpp:170-216 | the whole of `finish_callback`; its output is stated by `TraceFile` |
| Plugin.TraceFile | src/plugin.cpp:170-216 | the trace file is `[`, the callbacks' slices in firing order and then `plugin_dump`, comma-separated, `]`; the destructor's second `finish()` adds nothing |
| Plugin.EveryRecordReported | src/plugin.cpp:199-212 | every recorded event reaches the writer once, plus once more for each PreGenericize that closed a parse interval |
| Options.VerbosityOf | src/plugin.cpp:229-238 | only exactly `0`, `1` or `2` select a verbosity, and it is the digit's value |
| Options.Rejection | src/plugin.cpp:223-249 | the diagnostic names the offending key; it is a missing argument exactly for a `verbose-decl` without value, a bad verbosity exactly for a `verbose-decl` with one, an unexpected argument exactly for `disable-version-check`, and an unrecognized option for every other key |
| Options.LastVerbosity | src/plugin.cpp:220-238 | the verbosity the arguments select is 0, 1 or 2 |
| Options.DefaultVerbosity | src/plugin.cpp:220 | without a `verbose-decl` argument the verbosity is the default 1 |
| Options.FirstRejected | src/plugin.cpp:218-252 | the position the parse stops at: an argument that is not accepted, with every argument before it accepted; none exactly when all are accepted |
| Options.FirstRejectedAt | src/plugin.cpp:218-252 | a rejected argument preceded only by accepted ones is the first rejected position |
| Options.SetupOption | src/plugin.cpp:218-252 | success exactly when no argument is rejected, with the last verbosity (default 1) and the version check off iff it was disabled; otherwise the diagnostic of the first rejected argument |
| Passes.Collect | src/plugin.cpp:254-260 | the pre-order list has one entry per pass and starts with the first pass |
| Passes.CollectComplete | src/plugin.cpp:254-260 | a pass is collected exactly when it occurs somewhere in the chain |
| Passes.CollectPasses | src/plugin.cpp:254-260 | the loop over `next`, recursing into `sub`, produces the pre-order list |
| Passes.AllDiffer | src/plugin.cpp:270-271 | the `all_of` probe holds exactly when no earlier entry has the same type and name |
| Passes.SingleMarkerSites | src/plugin.cpp:269-275 | a marker is placed after entry i iff i is the first entry with its type and name; the sites are increasing, their passes pairwise different, and every entry shares its pass with a site at or before it |

## Left out

- GCC plumbing is not modelled, because it is foreign API:
  - `register_callback`, `register_pass`;
  - the `TimeTracePass` subclass's `clone` and `gate`;
  - `plugin_init`, and the version check it runs;
  - the walk over `pass_lists`/`GCC_PASS_LISTS`;
  - the registration of list start and end markers (src/plugin.cpp:277-301).
- Chaining to `old_cb_file_change` and hooking `cpp_get_callbacks` are side-effect glue.
- `EventClock::now()` in `EventRecord` and in `finish_callback` is replaced by given timestamps. The model uses `Arrival.time`, `dumpStart` and `dumpEnd`.
- `fopen`, `fprintf`, `fclose`, `aux_base_name` and the `File` guard are omitted. The output is the returned string.
- `error()` diagnostics become `Options.OptionError` values.
- `lang_hooks.decl_printable_name` is the `NameHook` parameter. `DECL_PT_UID` is a field of the tree.
- The iteration order of `unordered_map` in `finish_map` is unspecified. It is the `FlushOrder` parameter, and properties about it are stated as multisets.
- 64-bit overflow of `std::chrono` arithmetic is not modelled; timestamps and differences are unbounded integers.
- A NUL byte inside a name would end `%s` early. This truncation is not modelled.
- SliceShape.SliceIsObject: proved only for names, file names and function names that contain no brace, because those strings are printed unescaped and could carry braces.
- Escaping of file names, pass names and backslashes is not modelled because the program does none; those strings go out as they are.
- Options.SetupOption: `error()`'s message text is reduced to the kind of diagnostic and the key.
