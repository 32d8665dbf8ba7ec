/**
 * The quoting `get_decl_name` applies to a printable declaration name before it is
 * placed inside a JSON string: each `"` becomes `\"`, every other character is
 * copied as it is. Nothing else (backslashes, control characters) is escaped.
 */
module Escaping {
  import opened Concat

  /** The reference definition: the name with each quote preceded by a backslash. */
  function Escape(s: string): (e: string)
    ensures |s| <= |e|
    ensures e != [] ==> e[0] != '"'
  {
    if s == [] then []
    else (if s[0] == '"' then "\\\"" else [s[0]]) + Escape(s[1..])
  }

  /** Every quote of `e` comes right after a backslash. */
  predicate Guarded(e: string)
  {
    && (e != [] ==> e[0] != '"')
    && forall i :: 0 < i < |e| && e[i] == '"' ==> e[i - 1] == '\\'
  }

  lemma {:induction false} EscapeGuarded(s: string)
    ensures Guarded(Escape(s))
  {
    if s != [] {
      var head := if s[0] == '"' then "\\\"" else [s[0]];
      var rest := Escape(s[1..]);
      EscapeGuarded(s[1..]);
      var e := Escape(s);
      assert e == head + rest;
      forall i | 0 < i < |e| && e[i] == '"'
        ensures e[i - 1] == '\\'
      {
        if i >= |head| {
          assert e[i] == rest[i - |head|];
        }
      }
    }
  }

  /** Deletes the backslash in front of every quote. */
  function Unescape(e: string): string
  {
    if e == [] then []
    else if 2 <= |e| && e[0] == '\\' && e[1] == '"' then "\"" + Unescape(e[2..])
    else [e[0]] + Unescape(e[1..])
  }

  /** Deleting the inserted backslashes recovers the name. */
  lemma {:induction false} UnescapeEscape(s: string)
    ensures Unescape(Escape(s)) == s
  {
    if s != [] {
      var rest := Escape(s[1..]);
      UnescapeEscape(s[1..]);
      if s[0] == '"' {
        assert Escape(s) == "\\\"" + rest;
        assert (Escape(s))[2..] == rest;
      } else {
        assert Escape(s) == [s[0]] + rest;
        assert (Escape(s))[1..] == rest;
        assert rest != [] ==> rest[0] != '"';
      }
    }
  }

  lemma {:induction false} EscapeAppend(a: string, b: string)
    ensures Escape(a + b) == Escape(a) + Escape(b)
  {
    if a == [] {
      assert a + b == b;
    } else {
      assert (a + b)[0] == a[0];
      assert (a + b)[1..] == a[1..] + b;
      EscapeAppend(a[1..], b);
    }
  }

  /** `strcspn(s, "\"")`: the length of the longest prefix without a quote. */
  function Span(s: string): (k: nat)
    ensures k <= |s|
    ensures forall i :: 0 <= i < k ==> s[i] != '"'
    ensures k < |s| ==> s[k] == '"'
  {
    if s == [] || s[0] == '"' then 0 else 1 + Span(s[1..])
  }

  /** One round of the quoting loop: the quote-free span, then `\"` for the quote that ends it. */
  lemma {:induction false} EscapeSpan(s: string)
    ensures Span(s) < |s| ==> Escape(s) == s[..Span(s)] + "\\\"" + Escape(s[Span(s) + 1..])
    ensures Span(s) == |s| ==> Escape(s) == s
  {
    if s != [] && s[0] != '"' {
      var t := s[1..];
      var k := Span(t);
      EscapeSpan(t);
      assert Span(s) == k + 1;
      assert Escape(s) == [s[0]] + Escape(t);
      if k < |t| {
        var q := "\\\"";
        var e := Escape(t[k + 1..]);
        assert [s[0]] + t[..k] == s[..k + 1];
        assert t[k + 1..] == s[k + 2..];
        Reassociate([s[0]], t[..k], q, e);
      } else {
        assert [s[0]] + t == s;
      }
    }
  }

  /** The accumulated output plus the escaping of what is left stays the escaping of the name. */
  lemma StepKeeps(acc: string, rest: string, whole: string)
    requires acc + Escape(rest) == whole
    ensures Span(rest) < |rest| ==>
      (acc + rest[..Span(rest)] + "\\\"") + Escape(rest[Span(rest) + 1..]) == whole
    ensures Span(rest) == |rest| ==> acc + rest[..Span(rest)] == whole
  {
    EscapeSpan(rest);
    var k := Span(rest);
    if k < |rest| {
      var q := "\\\"";
      var tail := Escape(rest[k + 1..]);
      assert acc + (rest[..k] + q + tail) == whole;
      Reassociate(acc, rest[..k], q, tail);
    }
  }

  /**
   * The `strcspn` loop of `get_decl_name`: copy the quote-free span, and while it
   * stopped at a quote append `\"` and continue after that quote.
   */
  method EscapeQuotes(name: string) returns (escaped: string)
    ensures escaped == Escape(name)
  {
    escaped := "";
    var rest := name;
    var len := Span(rest);
    while len < |rest|
      invariant len == Span(rest)
      invariant escaped + Escape(rest) == Escape(name)
      decreases |rest|
    {
      StepKeeps(escaped, rest, Escape(name));
      escaped := escaped + rest[..len] + "\\\"";
      rest := rest[len + 1..];
      len := Span(rest);
    }
    StepKeeps(escaped, rest, Escape(name));
    escaped := escaped + rest[..len];
  }
}
