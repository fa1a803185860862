/** What the order of entries decides in the baseline comparison, and what its documentation overstates. */
module BaselineOrder {
  import opened Kuhn
  import opened BaselineGate

  function Remove<T>(t: seq<T>, j: nat): seq<T>
    requires j < |t|
  {
    t[..j] + t[j + 1..]
  }

  lemma RemoveMultiset<T>(t: seq<T>, j: nat)
    requires j < |t|
    ensures multiset(Remove(t, j)) == multiset(t) - multiset{t[j]}
  {
    assert t == t[..j] + ([t[j]] + t[j + 1..]);
  }

  /** Two orders of the same elements differ by a relabelling. */
  lemma {:induction false} Relabelling<T>(s: seq<T>, t: seq<T>) returns (p: seq<nat>)
    requires multiset(s) == multiset(t)
    ensures Relabels(s, t, p)
    decreases |s|
  {
    assert |s| == |multiset(s)| && |t| == |multiset(t)|;
    if s == [] {
      p := [];
    } else {
      assert s[0] in multiset(t);
      var j :| 0 <= j < |t| && t[j] == s[0];
      RemoveMultiset(s, 0);
      RemoveMultiset(t, j);
      var q := Relabelling(Remove(s, 0), Remove(t, j));
      p := Insert(s, t, j, q);
    }
  }

  ghost predicate Relabels<T>(s: seq<T>, t: seq<T>, p: seq<nat>) {
    && |p| == |s| == |t| && Distinct(p)
    && forall i :: 0 <= i < |s| ==> p[i] < |t| && t[p[i]] == s[i]
  }

  lemma Insert<T>(s: seq<T>, t: seq<T>, j: nat, q: seq<nat>) returns (p: seq<nat>)
    requires s != [] && j < |t| && t[j] == s[0] && Relabels(Remove(s, 0), Remove(t, j), q)
    ensures Relabels(s, t, p)
  {
    p := [j] + seq(|q|, i requires 0 <= i < |q| => if q[i] < j then q[i] else q[i] + 1);
    forall i | 0 <= i < |s|
      ensures p[i] < |t| && t[p[i]] == s[i]
    {
      if i > 0 {
        assert Remove(s, 0)[i - 1] == s[i];
      }
    }
  }

  /** Relabelled sites have relabelled edges. */
  lemma Relabelled(now: seq<Listed>, now': seq<Listed>, before: seq<Listed>, before': seq<Listed>, p: seq<nat>,
                   q: seq<nat>)
    requires Relabels(now, now', p) && Relabels(before, before', q)
    ensures Embeds(Adjacency(now, before), Adjacency(now', before'), p, q)
  {
    var g, h := Adjacency(now, before), Adjacency(now', before');
    forall s, i | 0 <= s < |g| && i in g[s]
      ensures q[i] in h[p[s]]
    {
      assert h[p[s]] == Adjacent(now'[p[s]], before');
    }
  }

  lemma SameMaximum(now: seq<Listed>, now': seq<Listed>, before: seq<Listed>, before': seq<Listed>)
    requires multiset(now) == multiset(now') && multiset(before) == multiset(before')
    ensures MaximumSize(Adjacency(now, before)) == MaximumSize(Adjacency(now', before'))
  {
    var p := Relabelling(now, now');
    var q := Relabelling(before, before');
    Relabelled(now, now', before, before', p, q);
    EmbeddedSize(Adjacency(now, before), Adjacency(now', before'), p, q);
    p := Relabelling(now', now);
    q := Relabelling(before', before);
    Relabelled(now', now, before', before, p, q);
    EmbeddedSize(Adjacency(now', before'), Adjacency(now, before), p, q);
  }

  lemma GrowthCount(now: seq<Listed>, before: seq<Listed>)
    ensures |Growth(now, before)| + MaximumSize(Adjacency(now, before)) == |now|
  {
    var g := Adjacency(now, before);
    GrowthSize(now, g, |now|);
    SurplusCounts(g, |now|);
    assert g[..|now|] == g;
  }

  /** How many sites are growth does not depend on the order of entries on either side. */
  lemma CountIgnoresOrder(now: seq<Listed>, now': seq<Listed>, before: seq<Listed>, before': seq<Listed>)
    requires multiset(now) == multiset(now') && multiset(before) == multiset(before')
    ensures |Growth(now, before)| == |Growth(now', before')|
  {
    SameMaximum(now, now', before, before');
    GrowthCount(now, before);
    GrowthCount(now', before');
    assert |now| == |multiset(now)| == |multiset(now')| == |now'|;
  }

  /** Which sites are growth does not depend on the order of the base at all. */
  lemma ListIgnoresBaseOrder(now: seq<Listed>, before: seq<Listed>, before': seq<Listed>)
    requires multiset(before) == multiset(before')
    ensures Growth(now, before) == Growth(now, before')
  {
    GrowthFromBase(now, before, before', |now|);
  }

  lemma {:induction false} GrowthFromBase(now: seq<Listed>, before: seq<Listed>, before': seq<Listed>, n: nat)
    requires multiset(before) == multiset(before') && n <= |now|
    ensures GrowthOf(now, Adjacency(now, before), n) == GrowthOf(now, Adjacency(now, before'), n)
  {
    if n > 0 {
      GrowthFromBase(now, before, before', n - 1);
      PrefixFromBase(now, before, before', n - 1);
      PrefixFromBase(now, before, before', n);
    }
  }

  lemma PrefixFromBase(now: seq<Listed>, before: seq<Listed>, before': seq<Listed>, n: nat)
    requires multiset(before) == multiset(before') && n <= |now|
    ensures MaximumSize(Adjacency(now, before)[..n]) == MaximumSize(Adjacency(now, before')[..n])
  {
    SameMaximum(now[..n], now[..n], before, before');
    assert Adjacency(now, before)[..n] == Adjacency(now[..n], before);
    assert Adjacency(now, before')[..n] == Adjacency(now[..n], before');
  }

  // ----- Where order and owners do matter

  /** One base site can pay for either of two current sites; the first one listed takes it. */
  lemma FirstListedWins(a: Listed, b: Listed, base: Listed)
    requires Edge(a, base) && Edge(b, base)
    ensures Growth([a, b], [base]) == [b]
  {
    var g := Adjacency([a, b], [base]);
    assert 0 in g[0] && 0 in g[1];
    var none, one: map<nat, nat> := map[], map[0 := 0];
    SingleBase(g[..0], none);
    SingleBase(g[..1], one);
    SingleBase(g[..2], one);
    assert !Surplus(g, 0) && Surplus(g, 1);
    assert GrowthOf([a, b], g, 1) == [];
    assert GrowthOf([a, b], g, 2) == [b];
  }

  lemma SingleBase(g: Graph, m: map<nat, nat>)
    requires Bounded(g, 1) && Matching(g, m) && (|m| == 1 || g == [])
    ensures MaximumSize(g) == |m|
  {
    forall other: map<nat, nat> | Matching(g, other)
      ensures |other| <= |m|
    {
      if g == [] {
        MatchingSize(g, other);
      } else {
        InjectionSize(other, other.Keys, {0});
      }
    }
    SizeOf(g, m);
  }

  /** The growth list itself does depend on the order of the current entries. */
  lemma ListDependsOnCurrentOrder()
    ensures exists a, b, base :: Growth([a, b], [base]) != Growth([b, a], [base])
  {
    var base := Listed("f", "o", Reject, "x");
    var a, b := base.(text := "y"), base.(text := "z");
    FirstListedWins(a, b, base);
    FirstListedWins(b, a, base);
  }

  lemma NoGrowth(a: Listed, base: Listed)
    requires Edge(a, base)
    ensures Growth([a], [base]) == []
  {
    var g := Adjacency([a], [base]);
    assert 0 in g[0];
    SingleBase(g[..0], map[]);
    SingleBase(g[..1], map[0 := 0]);
    assert !Surplus(g, 0);
    assert GrowthOf([a], g, 1) == [];
  }

  // ----- Which groups can gain

  /** One site can take the place of another without growth, and then every group of the one but not the other gains. */
  lemma GroupGains(a: Listed, base: Listed, of: Group)
    requires Edge(a, base) && of(a) && !of(base)
    ensures !NoGain([a], [base], Growth([a], [base]), of) && Growth([a], [base]) == []
  {
    NoGrowth(a, base);
    CountOne(a, of);
    CountOne(base, of);
  }

  /** The stable sets of kinds are exactly those that no edge leads out of, from a site now to one before. */
  lemma StableKinds(kinds: set<Kind>)
    ensures Stable(kinds) <==> forall a, base: Listed :: Edge(a, base) && a.kind in kinds ==> base.kind in kinds
  {
    if !Stable(kinds) {
      var inside :| inside in kinds && (inside !in PENDING || !(PENDING <= kinds));
      var outside :| outside !in kinds && (outside in PENDING || inside !in PENDING);
      var base := Listed("f", "o", outside, "x");
      assert Edge(base.(kind := inside), base);
    }
  }

  /** An unstable set of kinds does gain: some base pays for a site of the set with one outside it. */
  lemma UnstableKindsGain(kinds: set<Kind>)
    requires !Stable(kinds)
    ensures exists a, base: Listed :: Growth([a], [base]) == [] && !NoGain([a], [base], [], KindIn(kinds))
  {
    StableKinds(kinds);
    var a, base: Listed :| Edge(a, base) && a.kind in kinds && base.kind !in kinds;
    GroupGains(a, base, KindIn(kinds));
  }

  lemma {:induction false} AnotherOwner(owners: set<string>) returns (owner: string)
    ensures owner !in owners && forall o <- owners :: |o| < |owner|
  {
    if o :| o in owners {
      owner := AnotherOwner(owners - {o});
      owner := owner + o + "x";
      assert forall k <- owners :: k == o || k in owners - {o};
    } else {
      owner := "x";
    }
  }

  /** Every set of owners but the empty one can gain a site without growth: a text that moves takes its site along. */
  lemma OwnersGain(owners: set<string>)
    requires owners != {}
    ensures exists a, base: Listed :: Growth([a], [base]) == [] && !NoGain([a], [base], [], OwnerIn(owners))
  {
    var owner :| owner in owners;
    var other := AnotherOwner(owners);
    var a := Listed("f", owner, Reject, "x");
    GroupGains(a, a.(owner := other), OwnerIn(owners));
  }
}
