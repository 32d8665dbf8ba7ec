/**
 * The shape of what the trace writer prints: the fields of a slice hold no
 * braces of their own, so each slice is one balanced JSON object whose
 * optional `args` object closes inside it, and an unmatched record is drawn as
 * an instant.
 */
module SliceShape {
  import opened Basics
  import opened Events
  import opened Decimal
  import opened TraceWriter
  import opened Braces

  /** Renderings of times hold no braces. */
  lemma FixedFlat(n: int)
    ensures Flat(Fixed(n))
  {
    FixedAlphabet(n);
  }

  lemma FixedNoX(n: int)
    ensures 'X' !in Fixed(n)
  {
    FixedAlphabet(n);
  }

  lemma PhaseFlat(dur: int)
    ensures Flat(Phase(dur))
  {
    if dur > 0 {
      FixedFlat(dur);
      FlatConcat("\"ph\":\"X\",\"dur\":", Fixed(dur));
      FlatConcat("\"ph\":\"X\",\"dur\":" + Fixed(dur), ",");
    }
  }

  /** The middle of a three-part concatenation is found between the outer parts. */
  lemma Between(a: string, b: string, c: string)
    requires |c| == 1
    ensures var p := a + b + c;
      |a| < |p| && p[..|a|] == a && p[|p| - 1] == c[0] && p[|a|..|p| - 1] == b
  {
  }

  /** The text before a complete event's duration. */
  const CompleteLead := "\"ph\":\"X\",\"dur\":"

  /**
   * The phase is `"X"` exactly when the duration is positive; otherwise the
   * slice is an instant with no `dur` field.
   */
  lemma PhaseKind(dur: int)
    ensures 'X' in Phase(dur) <==> 0 < dur
    ensures dur <= 0 ==> Phase(dur) == "\"ph\":\"i\","
  {
    if dur > 0 {
      assert CompleteLead[6] == 'X';
      Between(CompleteLead, Fixed(dur), ",");
    } else {
      FixedNoX(dur);
    }
  }

  /** A complete event's `dur` field reads back as the duration. */
  lemma PhaseDuration(dur: int)
    requires 0 < dur
    ensures var p := Phase(dur);
      && |CompleteLead| < |p| && p[..|CompleteLead|] == CompleteLead && p[|p| - 1] == ','
      && ParseFixed(p[|CompleteLead|..|p| - 1]) == Some(dur)
  {
    Between(CompleteLead, Fixed(dur), ",");
    FixedRoundTrip(dur);
  }

  lemma FieldTextFlat(name: string, ts: string, phase: string)
    requires Flat(name) && Flat(ts) && Flat(phase)
    ensures Flat(FieldText(name, ts, phase))
  {
    var open := "\"name\":\"";
    var mid := "\",\"ts\":";
    var ids := "\"pid\":0,\"tid\":0";
    assert Flat(open) && Flat(mid) && Flat(",") && Flat(ids);
    FlatConcat(open, name);
    FlatConcat(open + name, mid);
    FlatConcat(open + name + mid, ts);
    FlatConcat(open + name + mid + ts, ",");
    FlatConcat(open + name + mid + ts + ",", phase);
    FlatConcat(open + name + mid + ts + "," + phase, ids);
  }

  lemma TimesFlat(name: string, relative: int, dur: int)
    requires Flat(name)
    ensures Flat(FieldText(name, Fixed(relative), Phase(dur)))
  {
    FixedFlat(relative);
    PhaseFlat(dur);
    FieldTextFlat(name, Fixed(relative), Phase(dur));
  }

  lemma FieldsFlat(s: Slice, epoch: int)
    requires Flat(s.name)
    ensures Flat(Fields(s, epoch))
  {
    TimesFlat(s.name, s.start - epoch, s.end - s.start);
  }

  lemma ArgNested(a: Option<Arg>)
    requires a.Some? ==> Flat(a.value.key) && Flat(a.value.value)
    ensures Nested(ArgText(a))
  {
    match a
    case None =>
      FlatNested("");
    case Some(Arg(key, value)) =>
      var pair := "\"" + key + "\":\"" + value + "\"";
      assert Flat(pair);
      FlatNested(pair);
      WrapObject(pair);
      FlatNested(",\"args\":");
      NestedAppend(",\"args\":", "{" + pair + "}");
      assert ArgText(a) == ",\"args\":" + ("{" + pair + "}");
  }

  /**
   * Each slice is one object, and an `args` object opened inside it is closed
   * before the slice's own closing brace. Names, file names and function names
   * are not scanned for braces, so the statement is made for brace-free strings.
   */
  lemma SliceIsObject(s: Slice, epoch: int)
    requires Flat(s.name)
    requires s.arg.Some? ==> Flat(s.arg.value.key) && Flat(s.arg.value.value)
    ensures Object(SliceText(s, epoch))
  {
    var fields := Fields(s, epoch);
    FieldsFlat(s, epoch);
    FlatNested(fields);
    ArgNested(s.arg);
    NestedAppend(fields, ArgText(s.arg));
    WrapObject(fields + ArgText(s.arg));
  }

  /** The unmatched-record overloads write instants, never complete events. */
  lemma MarkersAreInstants(cache: map<Uid, string>, verbosity: int, hook: NameHook, r: Record)
    requires !IsParseStartRecord(r)
    ensures var s := Plan(cache, verbosity, hook, Mismatch(r)).0;
      s.Some? && 'X' !in Phase(s.value.end - s.value.start)
  {
    PhaseKind(0);
  }
}
