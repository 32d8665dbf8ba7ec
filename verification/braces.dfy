/**
 * Brace balance of a string: the running difference between opening and
 * closing braces, strings without braces, and single balanced objects.
 */
module Braces {

  /** Opening braces minus closing braces. */
  function Depth(s: string): int
  {
    if s == [] then 0
    else Depth(s[..|s| - 1]) + (if s[|s| - 1] == '{' then 1 else if s[|s| - 1] == '}' then -1 else 0)
  }

  /** Every brace is closed, and never before it was opened. */
  ghost predicate Nested(s: string)
  {
    Depth(s) == 0 && forall k :: 0 <= k <= |s| ==> 0 <= Depth(s[..k])
  }

  /** One object: the first brace is closed by the last character and by nothing earlier. */
  ghost predicate Object(s: string)
  {
    && 2 <= |s| && s[0] == '{' && s[|s| - 1] == '}'
    && Depth(s) == 0
    && forall k :: 0 < k < |s| ==> 0 < Depth(s[..k])
  }

  predicate Flat(s: string)
  {
    '{' !in s && '}' !in s
  }

  lemma {:induction false} DepthAppend(a: string, b: string)
    ensures Depth(a + b) == Depth(a) + Depth(b)
  {
    if b == [] {
      assert a + b == a;
    } else {
      var b' := b[..|b| - 1];
      assert (a + b)[..|a + b| - 1] == a + b';
      DepthAppend(a, b');
    }
  }

  lemma {:induction false} FlatDepth(s: string)
    requires Flat(s)
    ensures Depth(s) == 0
  {
    if s != [] {
      assert s[|s| - 1] in s;
      var s' := s[..|s| - 1];
      assert forall c :: c in s' ==> c in s;
      FlatDepth(s');
    }
  }

  lemma FlatNested(s: string)
    requires Flat(s)
    ensures Nested(s)
  {
    FlatDepth(s);
    forall k | 0 <= k <= |s|
      ensures Depth(s[..k]) == 0
    {
      assert forall c :: c in s[..k] ==> c in s;
      FlatDepth(s[..k]);
    }
  }

  lemma NestedAppend(a: string, b: string)
    requires Nested(a) && Nested(b)
    ensures Nested(a + b)
  {
    DepthAppend(a, b);
    forall k | 0 <= k <= |a + b|
      ensures 0 <= Depth((a + b)[..k])
    {
      if k <= |a| {
        assert (a + b)[..k] == a[..k];
      } else {
        assert (a + b)[..k] == a + b[..k - |a|];
        DepthAppend(a, b[..k - |a|]);
      }
    }
  }

  lemma WrapObject(s: string)
    requires Nested(s)
    ensures Object("{" + s + "}")
    ensures Nested("{" + s + "}")
  {
    var t := "{" + s + "}";
    DepthAppend("{", s);
    DepthAppend("{" + s, "}");
    assert Depth("{") == 1;
    assert Depth("}") == -1;
    forall k | 0 < k < |t|
      ensures 0 < Depth(t[..k])
    {
      assert t[..k] == "{" + s[..k - 1];
      DepthAppend("{", s[..k - 1]);
    }
    assert t[..|t|] == t;
    assert t[..0] == [];
  }

  lemma FlatConcat(a: string, b: string)
    requires Flat(a) && Flat(b)
    ensures Flat(a + b)
  {
    assert forall c :: c in a + b ==> c in a || c in b;
  }
}
