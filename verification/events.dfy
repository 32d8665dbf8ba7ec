/**
 * The events the plugin records and the callbacks the tracker fires.
 * The four C++ event structs become one tagged union so that every
 * record, whatever its category, has the same type.
 */
module Events {
  import opened Basics

  /** A GCC `tree` declaration: null, or an opaque node together with its `DECL_PT_UID`. */
  datatype Tree = NullTree | Node(id: nat, ptUid: Uid)

  datatype UnitKind = UnitStart | UnitEnd
  datatype IncludeKind = IncludeEnter | IncludeLeave
  datatype ParseKind = ParseStart | ParsePreGenericize | ParseFinish
  datatype PassKind = PassStart | PassEnd

  datatype Event =
    | UnitEvent(unitKind: UnitKind)
    | IncludeEvent(includeKind: IncludeKind, filename: string)
    | ParseEvent(parseKind: ParseKind, decl: Tree, uid: Uid)
    | PassEvent(passKind: PassKind, name: string, decl: Tree, uid: Uid)

  /** An event together with the time, in nanoseconds, at which it was observed. */
  datatype Record = Record(timestamp: int, event: Event)

  /** `on_match(start, end)` or `on_mismatch(record)`. */
  datatype Callback = Match(start: Record, end: Record) | Mismatch(record: Record)

  predicate IsPreGenericize(r: Record)
  {
    r.event.ParseEvent? && r.event.parseKind == ParsePreGenericize
  }

  /** Begin records, as they sit on each stack of the tracker. */
  predicate IsUnitBegin(r: Record)
  {
    r.event == UnitEvent(UnitStart)
  }

  predicate IsIncludeBegin(r: Record)
  {
    r.event.IncludeEvent? && r.event.includeKind == IncludeEnter
  }

  predicate IsParseBegin(r: Record, k: Uid)
  {
    r.event.ParseEvent? && r.event.parseKind == ParseStart && r.event.uid == k
  }

  predicate IsGenericizeBegin(r: Record, k: Uid)
  {
    IsPreGenericize(r) && r.event.uid == k
  }

  predicate IsPassBegin(r: Record, name: string)
  {
    r.event.PassEvent? && r.event.passKind == PassStart && r.event.name == name
  }

  /**
   * The pairs the tracker is meant to correlate: a begin with the end of the same
   * category and key; for parse events Start closes at PreGenericize or Finish,
   * and PreGenericize closes at Finish.
   */
  predicate Correlates(start: Record, end: Record)
  {
    match end.event
    case UnitEvent(k) => k == UnitEnd && IsUnitBegin(start)
    case IncludeEvent(k, _) => k == IncludeLeave && IsIncludeBegin(start)
    case ParseEvent(k, _, uid) =>
      || (k == ParsePreGenericize && IsParseBegin(start, uid))
      || (k == ParseFinish && (IsParseBegin(start, uid) || IsGenericizeBegin(start, uid)))
    case PassEvent(k, name, _, _) => k == PassEnd && IsPassBegin(start, name)
  }

  /** Timestamps never decrease along the stream. */
  ghost predicate Chronological(rs: seq<Record>)
  {
    forall i, j :: 0 <= i < j < |rs| ==> rs[i].timestamp <= rs[j].timestamp
  }

  function CallbackRecords(c: Callback): multiset<Record>
  {
    match c
    case Match(s, e) => multiset{s, e}
    case Mismatch(r) => multiset{r}
  }

  /** Every record handed to a callback, counted once per appearance. */
  function Mentions(cbs: seq<Callback>): multiset<Record>
  {
    if cbs == [] then multiset{} else CallbackRecords(cbs[0]) + Mentions(cbs[1..])
  }

  /**
   * The PreGenericize records that closed a parse interval. Such a record is also
   * kept as the begin of a genericize interval, so it is handed out a second time.
   */
  function Echoes(cbs: seq<Callback>): multiset<Record>
  {
    if cbs == [] then multiset{}
    else
      (if cbs[0].Match? && IsPreGenericize(cbs[0].end) then multiset{cbs[0].end} else multiset{})
      + Echoes(cbs[1..])
  }

  /** The PreGenericize records of a record list. */
  function PreGenericizes(rs: seq<Record>): multiset<Record>
  {
    if rs == [] then multiset{}
    else (if IsPreGenericize(rs[0]) then multiset{rs[0]} else multiset{}) + PreGenericizes(rs[1..])
  }

  lemma {:induction false} MentionsAppend(a: seq<Callback>, b: seq<Callback>)
    ensures Mentions(a + b) == Mentions(a) + Mentions(b)
    ensures Echoes(a + b) == Echoes(a) + Echoes(b)
  {
    if a == [] {
      assert a + b == b;
    } else {
      assert (a + b)[0] == a[0];
      assert (a + b)[1..] == a[1..] + b;
      MentionsAppend(a[1..], b);
    }
  }

  lemma {:induction false} MentionsBound(cbs: seq<Callback>)
    ensures |cbs| <= |Mentions(cbs)|
  {
    if cbs != [] {
      MentionsBound(cbs[1..]);
    }
  }

  lemma {:induction false} EchoesAreMentioned(cbs: seq<Callback>)
    ensures Echoes(cbs) <= Mentions(cbs)
  {
    if cbs != [] {
      EchoesAreMentioned(cbs[1..]);
    }
  }

  lemma {:induction false} PreGenericizesAppend(a: seq<Record>, b: seq<Record>)
    ensures PreGenericizes(a + b) == PreGenericizes(a) + PreGenericizes(b)
  {
    if a == [] {
      assert a + b == b;
    } else {
      assert (a + b)[0] == a[0];
      assert (a + b)[1..] == a[1..] + b;
      PreGenericizesAppend(a[1..], b);
    }
  }

  lemma {:induction false} PreGenericizesOnly(rs: seq<Record>, x: Record)
    requires x in PreGenericizes(rs)
    ensures IsPreGenericize(x) && x in rs
  {
    if rs != [] && !(IsPreGenericize(rs[0]) && x == rs[0]) {
      PreGenericizesOnly(rs[1..], x);
    }
  }

  lemma {:induction false} PreGenericizesCount(rs: seq<Record>, x: Record)
    requires IsPreGenericize(x)
    ensures PreGenericizes(rs)[x] == multiset(rs)[x]
  {
    if rs != [] {
      assert rs == [rs[0]] + rs[1..];
      PreGenericizesCount(rs[1..], x);
    }
  }
}
