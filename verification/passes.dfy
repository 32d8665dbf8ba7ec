/**
 * Where the plugin places its `Single` marker passes: every pass of every pass
 * list is collected in pre-order, and a marker goes after the first pass of each
 * (type, name) pair, so that a pass that occurs several times is closed only once
 * per name.
 */
module Passes {
  import opened Concat

  datatype PassType = GimplePass | RtlPass | SimpleIpaPass | IpaPass

  /** An `opt_pass` chain: a pass, the list nested under it (`sub`) and its successor (`next`). */
  datatype PassTree = NoPass | PassNode(passType: PassType, name: string, sub: PassTree, next: PassTree)

  /** What the de-duplication compares of a collected pass. */
  datatype PassInfo = PassInfo(passType: PassType, name: string)

  function Size(p: PassTree): nat
  {
    match p
    case NoPass => 0
    case PassNode(_, _, sub, next) => 1 + Size(sub) + Size(next)
  }

  /** The passes of a chain in pre-order: each pass, then its sub list, then its successors. */
  function Collect(p: PassTree): (ps: seq<PassInfo>)
    ensures |ps| == Size(p)
    ensures p.PassNode? ==> ps[0] == PassInfo(p.passType, p.name)
  {
    match p
    case NoPass => []
    case PassNode(t, n, sub, next) => [PassInfo(t, n)] + Collect(sub) + Collect(next)
  }

  /** A pass occurs somewhere in a chain, at any depth. */
  predicate Occurs(x: PassInfo, p: PassTree)
  {
    match p
    case NoPass => false
    case PassNode(t, n, sub, next) => x == PassInfo(t, n) || Occurs(x, sub) || Occurs(x, next)
  }

  /** Collection misses no pass and invents none. */
  lemma {:induction false} CollectComplete(p: PassTree, x: PassInfo)
    ensures x in Collect(p) <==> Occurs(x, p)
  {
    match p
    case NoPass =>
    case PassNode(t, n, sub, next) =>
      CollectComplete(sub, x);
      CollectComplete(next, x);
      assert Collect(p) == [PassInfo(t, n)] + Collect(sub) + Collect(next);
  }

  /**
   * `collect_passes`: walk the `next` chain, appending each pass and then,
   * recursively, its `sub` list.
   */
  method CollectPasses(pass: PassTree) returns (passes: seq<PassInfo>)
    ensures passes == Collect(pass)
    decreases Size(pass)
  {
    passes := [];
    var p := pass;
    while p.PassNode?
      invariant Size(p) <= Size(pass)
      invariant passes + Collect(p) == Collect(pass)
      decreases Size(p)
    {
      var nested := CollectPasses(p.sub);
      var head := [PassInfo(p.passType, p.name)];
      assert Collect(p) == head + nested + Collect(p.next);
      Reassociate(passes, head, nested, Collect(p.next));
      passes := passes + head + nested;
      p := p.next;
    }
    assert passes + [] == passes;
  }

  /** No earlier entry has the same type and name. */
  predicate FirstOccurrence(ps: seq<PassInfo>, i: int)
    requires 0 <= i < |ps|
  {
    forall j :: 0 <= j < i ==> ps[j] != ps[i]
  }

  /**
   * The `std::all_of(begin, i, probe)` test: every entry before `i` differs
   * from entry `i`; the probe stops at the first match.
   */
  method AllDiffer(passes: seq<PassInfo>, i: nat) returns (unseen: bool)
    requires i < |passes|
    ensures unseen <==> FirstOccurrence(passes, i)
    ensures !unseen ==> exists j :: 0 <= j < i && passes[j] == passes[i]
  {
    unseen := true;
    var j := 0;
    while j < i && unseen
      invariant 0 <= j <= i
      invariant unseen ==> forall m :: 0 <= m < j ==> passes[m] != passes[i]
      invariant !unseen ==> 0 < j && passes[j - 1] == passes[i]
    {
      if passes[j] == passes[i] {
        unseen := false;
      }
      j := j + 1;
    }
  }

  /** Some marked entry at or before `k` has the type and name of entry `k`. */
  predicate Covered(passes: seq<PassInfo>, sites: seq<nat>, k: nat)
    requires k < |passes|
  {
    exists s :: s in sites && s <= k && s < |passes| && passes[s] == passes[k]
  }

  /** An entry matching an earlier, covered entry is covered by the same site. */
  lemma CoveredByEarlier(passes: seq<PassInfo>, sites: seq<nat>, j: nat, k: nat)
    requires j < k < |passes| && passes[j] == passes[k]
    requires Covered(passes, sites, j)
    ensures Covered(passes, sites, k)
  {
    var s :| s in sites && s <= j && s < |passes| && passes[s] == passes[j];
    assert s <= k && passes[s] == passes[k];
  }

  /** Adding a site keeps every entry covered. */
  lemma CoveredGrows(passes: seq<PassInfo>, sites: seq<nat>, x: nat)
    requires forall k :: 0 <= k < x <= |passes| ==> Covered(passes, sites, k)
    ensures forall k :: 0 <= k < x <= |passes| ==> Covered(passes, sites + [x], k)
  {
    forall k | 0 <= k < x <= |passes|
      ensures Covered(passes, sites + [x], k)
    {
      assert Covered(passes, sites, k);
      var s :| s in sites && s <= k && s < |passes| && passes[s] == passes[k];
      assert s in sites + [x];
    }
  }

  /** Marked entries are pairwise different: a later one differs from all before it. */
  lemma SitesDistinct(passes: seq<PassInfo>, sites: seq<nat>)
    requires forall a :: 0 <= a < |sites| ==> sites[a] < |passes|
    requires forall a, b :: 0 <= a < b < |sites| ==> sites[a] < sites[b]
    requires forall a :: 0 <= a < |sites| ==> FirstOccurrence(passes, sites[a])
    ensures forall a, b :: 0 <= a < b < |sites| ==> passes[sites[a]] != passes[sites[b]]
  {
    forall a, b | 0 <= a < b < |sites|
      ensures passes[sites[a]] != passes[sites[b]]
    {
      assert FirstOccurrence(passes, sites[b]);
    }
  }

  /**
   * The probe loop of `setup_time_trace_passes`: for each entry, test all
   * earlier entries, and register a marker after it when none has its type
   * and name. The markers go after pairwise different passes, in list order,
   * and every entry shares its type and name with a marked entry at or before it.
   */
  method SingleMarkerSites(passes: seq<PassInfo>) returns (sites: seq<nat>)
    ensures forall a :: 0 <= a < |sites| ==> sites[a] < |passes|
    ensures forall i :: i in sites <==> 0 <= i < |passes| && FirstOccurrence(passes, i)
    ensures forall a, b :: 0 <= a < b < |sites| ==> sites[a] < sites[b]
    ensures forall a, b :: 0 <= a < b < |sites| ==> passes[sites[a]] != passes[sites[b]]
    ensures forall k :: 0 <= k < |passes| ==> Covered(passes, sites, k)
  {
    sites := [];
    var i := 0;
    while i < |passes|
      invariant 0 <= i <= |passes|
      invariant forall a :: 0 <= a < |sites| ==> sites[a] < i
      invariant forall a :: 0 <= a < |sites| ==> FirstOccurrence(passes, sites[a])
      invariant forall s :: s in sites <==> 0 <= s < i && FirstOccurrence(passes, s)
      invariant forall a, b :: 0 <= a < b < |sites| ==> sites[a] < sites[b]
      invariant forall k :: 0 <= k < i ==> Covered(passes, sites, k)
    {
      var unseen := AllDiffer(passes, i);
      if unseen {
        CoveredGrows(passes, sites, i);
        sites := sites + [i];
        assert i in sites;
      } else {
        var j :| 0 <= j < i && passes[j] == passes[i];
        CoveredByEarlier(passes, sites, j, i);
      }
      i := i + 1;
    }
    SitesDistinct(passes, sites);
  }
}
