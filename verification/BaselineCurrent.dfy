/** When the order of the current entries decides which sites are growth. */
module BaselineCurrent {
  import opened Kuhn
  import opened Exchange
  import opened BaselineGate
  import opened BaselineOrder

  /** The size of a largest matching of these sites with the base. */
  ghost function Size(sites: seq<Listed>, before: seq<Listed>): nat {
    MaximumSize(Adjacency(sites, before))
  }

  /** The copies of one site. */
  function Is(v: Listed): Group { (site: Listed) => site == v }

  /** The sites of a group, or the others. */
  function Part(sites: seq<Listed>, of: Group, same: bool): seq<Listed> {
    if sites == [] then []
    else
      var init, last := Part(sites[..|sites| - 1], of, same), sites[|sites| - 1];
      if of(last) == same then init + [last] else init
  }

  /** How many of the first `n` sites are not surplus and are, or are not, in the group. */
  ghost function Kept(now: seq<Listed>, g: Graph, of: Group, same: bool, n: nat): nat
    requires n <= |now| == |g|
  {
    if n == 0 then 0
    else Kept(now, g, of, same, n - 1) + if of(now[n - 1]) == same && !Surplus(g, n - 1) then 1 else 0
  }

  /** What a caller can check beforehand: the copies of a site and the rest do not compete for base sites. */
  ghost predicate Apart(now: seq<Listed>, before: seq<Listed>, v: Listed) {
    Size(Part(now, Is(v), true), before) + Size(Part(now, Is(v), false), before) == Size(now, before)
  }

  // ----- Parts

  lemma PartAppend(sites: seq<Listed>, site: Listed, of: Group, same: bool)
    ensures Part(sites + [site], of, same) ==
            if of(site) == same then Part(sites, of, same) + [site] else Part(sites, of, same)
  {
    assert (sites + [site])[..|sites|] == sites;
  }

  lemma {:induction false} PartCounts(sites: seq<Listed>, of: Group, same: bool, x: Listed)
    ensures multiset(Part(sites, of, same))[x] == if of(x) == same then multiset(sites)[x] else 0
  {
    if sites != [] {
      PartCounts(sites[..|sites| - 1], of, same, x);
      assert sites == sites[..|sites| - 1] + [sites[|sites| - 1]];
    }
  }

  lemma PartsAreAll(now: seq<Listed>, of: Group)
    ensures multiset(Part(now, of, true) + Part(now, of, false)) == multiset(now)
    ensures multiset(Part(now, of, false) + Part(now, of, true)) == multiset(now)
  {
    var own, others := Part(now, of, true), Part(now, of, false);
    forall x
      ensures multiset(own)[x] + multiset(others)[x] == multiset(now)[x]
    {
      PartCounts(now, of, true, x);
      PartCounts(now, of, false, x);
    }
    assert multiset(own + others) == multiset(own) + multiset(others) == multiset(others + own);
  }

  lemma PartReordered(now: seq<Listed>, now': seq<Listed>, before: seq<Listed>, of: Group, same: bool)
    requires multiset(now) == multiset(now')
    ensures Size(Part(now, of, same), before) == Size(Part(now', of, same), before)
  {
    var part, part' := Part(now, of, same), Part(now', of, same);
    forall x
      ensures multiset(part)[x] == multiset(part')[x]
    {
      PartCounts(now, of, same, x);
      PartCounts(now', of, same, x);
    }
    SameMaximum(part, part', before, before);
  }

  // ----- Growth, group by group

  lemma {:induction false} GrowthOfGroup(now: seq<Listed>, g: Graph, of: Group, n: nat)
    requires n <= |now| == |g|
    ensures CountIf(GrowthOf(now, g, n), of) + Kept(now, g, of, true, n) == CountIf(now[..n], of)
  {
    if n > 0 {
      GrowthOfGroup(now, g, of, n - 1);
      assert now[..n] == now[..n - 1] + [now[n - 1]];
      CountAppend(now[..n - 1], now[n - 1], of);
      CountAppend(GrowthOf(now, g, n - 1), now[n - 1], of);
    }
  }

  /** The sites of the group are growth or kept. */
  lemma GroupCounted(now: seq<Listed>, before: seq<Listed>, of: Group)
    ensures CountIf(Growth(now, before), of) + Kept(now, Adjacency(now, before), of, true, |now|) == CountIf(now, of)
  {
    GrowthOfGroup(now, Adjacency(now, before), of, |now|);
    assert now[..|now|] == now;
  }

  lemma {:induction false} KeptAll(now: seq<Listed>, g: Graph, of: Group, n: nat)
    requires n <= |now| == |g|
    ensures Kept(now, g, of, true, n) + Kept(now, g, of, false, n) + SurplusCount(g, n) == n
  {
    if n > 0 {
      KeptAll(now, g, of, n - 1);
    }
  }

  lemma KeptSize(now: seq<Listed>, before: seq<Listed>, of: Group)
    ensures var g := Adjacency(now, before);
            Kept(now, g, of, true, |now|) + Kept(now, g, of, false, |now|) == Size(now, before)
  {
    var g := Adjacency(now, before);
    KeptAll(now, g, of, |now|);
    SurplusCounts(g, |now|);
    assert g[..|now|] == g;
  }

  /** The rows of a graph at the chosen sites. */
  function Rows(g: Graph, now: seq<Listed>, of: Group, same: bool, n: nat): Graph
    requires n <= |now| == |g|
  {
    if n == 0 then []
    else if of(now[n - 1]) == same then Rows(g, now, of, same, n - 1) + [g[n - 1]]
    else Rows(g, now, of, same, n - 1)
  }

  lemma AdjacencyAppend(sites: seq<Listed>, site: Listed, before: seq<Listed>)
    ensures Adjacency(sites + [site], before) == Adjacency(sites, before) + [Adjacent(site, before)]
  {
  }

  lemma {:induction false} RowsOfPart(now: seq<Listed>, before: seq<Listed>, of: Group, same: bool, n: nat)
    requires n <= |now|
    ensures Rows(Adjacency(now, before), now, of, same, n) == Adjacency(Part(now[..n], of, same), before)
  {
    if n > 0 {
      var site, part := now[n - 1], Part(now[..n - 1], of, same);
      RowsOfPart(now, before, of, same, n - 1);
      assert now[..n] == now[..n - 1] + [site];
      PartAppend(now[..n - 1], site, of, same);
      AdjacencyAppend(part, site, before);
    }
  }

  ghost predicate From(k: map<nat, nat>, m: map<nat, nat>, n: nat) {
    forall t <- k :: exists s: nat :: s < n && s in m && m[s] == k[t]
  }

  ghost predicate Selected(g: Graph, now: seq<Listed>, m: map<nat, nat>, of: Group, same: bool, n: nat,
                           k: map<nat, nat>)
    requires n <= |now| == |g|
  {
    Matching(Rows(g, now, of, same, n), k) && |k| == Kept(now, g, of, same, n) && From(k, m, n)
  }

  ghost predicate Holding(g: Graph, m: map<nat, nat>) {
    Matching(g, m) && forall s: nat :: s < |g| ==> (s in m <==> !Surplus(g, s))
  }

  /** A matching of all sites holds a matching of one part of them. */
  lemma {:induction false} PartMatched(g: Graph, now: seq<Listed>, m: map<nat, nat>, of: Group, same: bool, n: nat)
    returns (k: map<nat, nat>)
    requires n <= |now| == |g| && Holding(g, m)
    ensures Selected(g, now, m, of, same, n, k)
  {
    if n == 0 {
      k := map[];
    } else {
      k := PartMatched(g, now, m, of, same, n - 1);
      k := SelectNext(g, now, m, of, same, n - 1, k);
    }
  }

  lemma SelectNext(g: Graph, now: seq<Listed>, m: map<nat, nat>, of: Group, same: bool, n: nat, k: map<nat, nat>)
    returns (next: map<nat, nat>)
    requires n < |now| == |g| && Holding(g, m) && Selected(g, now, m, of, same, n, k)
    ensures Selected(g, now, m, of, same, n + 1, next)
  {
    next := k;
    if of(now[n]) == same {
      next := RowMatched(g, m, Rows(g, now, of, same, n), n, k);
    }
  }

  lemma RowMatched(g: Graph, m: map<nat, nat>, rows: Graph, n: nat, k: map<nat, nat>) returns (next: map<nat, nat>)
    requires n < |g| && Matching(g, m) && Matching(rows, k) && From(k, m, n)
    ensures Matching(rows + [g[n]], next) && |next| == |k| + (if n in m then 1 else 0) && From(next, m, n + 1)
  {
    next := k;
    if n in m {
      next := k[|rows| := m[n]];
      assert next.Keys == k.Keys + {|rows|};
    }
  }

  /** In every order at most as many sites of a part are kept as fit that part alone. */
  lemma KeptBound(now: seq<Listed>, before: seq<Listed>, of: Group, same: bool)
    ensures Kept(now, Adjacency(now, before), of, same, |now|) <= Size(Part(now, of, same), before)
  {
    var g := Adjacency(now, before);
    var m := AllHeld(g);
    var k := PartMatched(g, now, m, of, same, |now|);
    RowsOfPart(now, before, of, same, |now|);
    assert now[..|now|] == now;
    SizeBounds(Rows(g, now, of, same, |now|), k);
  }

  // ----- A part that is listed first keeps all it can

  ghost predicate AllOf(sites: seq<Listed>, of: Group, same: bool) {
    forall i :: 0 <= i < |sites| ==> of(sites[i]) == same
  }

  lemma {:induction false} PartIsOf(sites: seq<Listed>, of: Group, same: bool)
    ensures AllOf(Part(sites, of, same), of, same)
  {
    if sites != [] {
      PartIsOf(sites[..|sites| - 1], of, same);
    }
  }

  lemma {:induction false} KeptRange(now: seq<Listed>, g: Graph, of: Group, same: bool, n: nat, k: nat)
    requires k <= n <= |now| == |g| && AllOf(now[k..], of, !same)
    ensures Kept(now, g, of, same, n) == Kept(now, g, of, same, k)
  {
    if n > k {
      assert now[k..][n - 1 - k] == now[n - 1];
      KeptRange(now, g, of, same, n - 1, k);
    }
  }

  lemma {:induction false} KeptNone(now: seq<Listed>, g: Graph, of: Group, same: bool, n: nat)
    requires n <= |now| == |g| && AllOf(now[..n], of, !same)
    ensures Kept(now, g, of, same, n) == 0
  {
    if n > 0 {
      assert now[..n][n - 1] == now[n - 1] && now[..n - 1] == now[..n][..n - 1];
      KeptNone(now, g, of, same, n - 1);
    }
  }

  lemma FirstKeeps(own: seq<Listed>, rest: seq<Listed>, before: seq<Listed>, of: Group, same: bool)
    requires AllOf(own, of, same) && AllOf(rest, of, !same)
    ensures var now := own + rest; Kept(now, Adjacency(now, before), of, same, |now|) == Size(own, before)
  {
    var now, k := own + rest, |own|;
    var g := Adjacency(now, before);
    assert now[..k] == own && now[k..] == rest && g[..k] == Adjacency(own, before);
    KeptRange(now, g, of, same, |now|, k);
    KeptNone(now, g, of, !same, k);
    KeptAll(now, g, of, k);
    SurplusCounts(g, k);
  }

  // ----- The theorem

  /** With the copies of `v` first, all that fit alone are kept; with them last, only what the others leave. */
  lemma Extremes(now: seq<Listed>, before: seq<Listed>, v: Listed)
    ensures var own, others := Part(now, Is(v), true), Part(now, Is(v), false);
            && multiset(Growth(own + others, before))[v] == multiset(now)[v] - Size(own, before)
            && multiset(Growth(others + own, before))[v] == multiset(now)[v] + Size(others, before) - Size(now, before)
  {
    var own, others := Part(now, Is(v), true), Part(now, Is(v), false);
    PartIsOf(now, Is(v), true);
    PartIsOf(now, Is(v), false);
    PartsAreAll(now, Is(v));
    FirstKeeps(own, others, before, Is(v), true);
    FirstKeeps(others, own, before, Is(v), false);
    KeptSize(others + own, before, Is(v));
    SameMaximum(others + own, now, before, before);
    GrowthCounted(own + others, before, v);
    GrowthCounted(others + own, before, v);
  }

  lemma {:induction false} CopiesCounted(sites: seq<Listed>, v: Listed)
    ensures CountIf(sites, Is(v)) == multiset(sites)[v]
  {
    if sites != [] {
      CopiesCounted(sites[..|sites| - 1], v);
      assert sites == sites[..|sites| - 1] + [sites[|sites| - 1]];
    }
  }

  lemma GrowthCounted(now: seq<Listed>, before: seq<Listed>, v: Listed)
    ensures multiset(Growth(now, before))[v] + Kept(now, Adjacency(now, before), Is(v), true, |now|) == multiset(now)[v]
  {
    GroupCounted(now, before, Is(v));
    CopiesCounted(now, v);
    CopiesCounted(Growth(now, before), v);
  }

  /** Every order keeps a number of copies between the two extremes. */
  lemma Between(now: seq<Listed>, now': seq<Listed>, before: seq<Listed>, v: Listed)
    requires multiset(now) == multiset(now')
    ensures multiset(now)[v] <= multiset(Growth(now', before))[v] + Size(Part(now, Is(v), true), before)
    ensures multiset(Growth(now', before))[v] + Size(now, before) <= multiset(now)[v]
            + Size(Part(now, Is(v), false), before)
  {
    KeptBound(now', before, Is(v), true);
    KeptBound(now', before, Is(v), false);
    KeptSize(now', before, Is(v));
    GrowthCounted(now', before, v);
    PartReordered(now, now', before, Is(v), true);
    PartReordered(now, now', before, Is(v), false);
    SameMaximum(now, now', before, before);
  }

  ghost predicate SameForAllOrders(now: seq<Listed>, before: seq<Listed>) {
    forall now' :: multiset(now') == multiset(now) ==> multiset(Growth(now', before)) == multiset(Growth(now, before))
  }

  /**
   * The growth sites are the same for every order of the current entries if and only if, for each site listed,
   * its copies and the other sites can be matched to the full without getting in each other's way.
   */
  lemma OrderDecidesNothing(now: seq<Listed>, before: seq<Listed>)
    ensures SameForAllOrders(now, before) <==> forall v <- now :: Apart(now, before, v)
  {
    if forall v <- now :: Apart(now, before, v) {
      forall now' | multiset(now') == multiset(now)
        ensures multiset(Growth(now', before)) == multiset(Growth(now, before))
      {
        SameGrowth(now, now', before);
      }
    }
    if SameForAllOrders(now, before) {
      forall v | v in now
        ensures Apart(now, before, v)
      {
        ExtremesAgree(now, before, v);
      }
    }
  }

  lemma ExtremesAgree(now: seq<Listed>, before: seq<Listed>, v: Listed)
    requires SameForAllOrders(now, before)
    ensures Apart(now, before, v)
  {
    var own, others := Part(now, Is(v), true), Part(now, Is(v), false);
    PartsAreAll(now, Is(v));
    Extremes(now, before, v);
    OrdersAgree(now, before, own + others, others + own);
  }

  lemma OrdersAgree(now: seq<Listed>, before: seq<Listed>, one: seq<Listed>, two: seq<Listed>)
    requires SameForAllOrders(now, before) && multiset(one) == multiset(now) == multiset(two)
    ensures multiset(Growth(one, before)) == multiset(Growth(two, before))
  {
  }

  lemma SameGrowth(now: seq<Listed>, now': seq<Listed>, before: seq<Listed>)
    requires multiset(now) == multiset(now') && forall v <- now :: Apart(now, before, v)
    ensures multiset(Growth(now', before)) == multiset(Growth(now, before))
  {
    forall v
      ensures multiset(Growth(now', before))[v] == multiset(Growth(now, before))[v]
    {
      GrowthCounted(now, before, v);
      GrowthCounted(now', before, v);
      if v in multiset(now) {
        assert v in now;
        Between(now, now, before, v);
        Between(now, now', before, v);
      }
    }
  }

  // ----- When a group gains

  ghost predicate NeverGains(now: seq<Listed>, before: seq<Listed>, of: Group) {
    forall now' :: multiset(now') == multiset(now) ==> NoGain(now', before, Growth(now', before), of)
  }

  /** What a caller can check beforehand: no more of the group can be matched than it had sites before. */
  ghost predicate Contained(now: seq<Listed>, before: seq<Listed>, of: Group) {
    Size(Part(now, of, true), before) <= CountIf(before, of)
  }

  /**
   * A group of sites, by owner, by kind or otherwise, gains nothing beyond growth in any order of the current
   * entries if and only if a largest matching of its sites alone is no larger than the group was before.
   */
  lemma GainsExactly(now: seq<Listed>, before: seq<Listed>, of: Group)
    ensures NeverGains(now, before, of) <==> Contained(now, before, of)
  {
    if Contained(now, before, of) {
      forall now' | multiset(now') == multiset(now)
        ensures NoGain(now', before, Growth(now', before), of)
      {
        GroupCounted(now', before, of);
        KeptBound(now', before, of, true);
        PartReordered(now, now', before, of, true);
      }
    }
    if NeverGains(now, before, of) {
      GroupFirst(now, before, of);
      var first := Part(now, of, true) + Part(now, of, false);
      assert NoGain(first, before, Growth(first, before), of);
    }
  }

  /** The order in which a group keeps the most lists it first. */
  lemma GroupFirst(now: seq<Listed>, before: seq<Listed>, of: Group)
    ensures var now' := Part(now, of, true) + Part(now, of, false);
            && multiset(now') == multiset(now)
            && CountIf(now', of) == CountIf(Growth(now', before), of) + Size(Part(now, of, true), before)
  {
    var own, others := Part(now, of, true), Part(now, of, false);
    PartsAreAll(now, of);
    PartIsOf(now, of, true);
    PartIsOf(now, of, false);
    FirstKeeps(own, others, before, of, true);
    GroupCounted(own + others, before, of);
  }
}
