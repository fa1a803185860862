/** Two matchings of one graph can exchange sites; so the sites that are not surplus are matched together. */
module Exchange {
  import opened Kuhn

  ghost predicate Uses(m: map<nat, nat>, a: map<nat, nat>, b: map<nat, nat>) {
    forall s <- m :: m[s] in a.Values || m[s] in b.Values
  }

  ghost function OwnerOf(m: map<nat, nat>, j: nat): (s: nat)
    requires j in m.Values
    ensures s in m && m[s] == j
  {
    var s :| s in m && m[s] == j;
    s
  }

  lemma Joined(g: Graph, m: map<nat, nat>, s: nat, j: nat)
    requires Matching(g, m) && s < |g| && j in g[s] && j !in m.Values && s !in m
    ensures Matching(g, m[s := j]) && m[s := j].Keys == m.Keys + {s}
  {
    assert forall t <- m :: m[t] in m.Values;
  }

  lemma Dropped(g: Graph, m: map<nat, nat>, s: nat)
    requires Matching(g, m) && s in m
    ensures Matching(g, m - {s}) && (m - {s}).Keys == m.Keys - {s} && m[s] !in (m - {s}).Values
    ensures forall j <- (m - {s}).Values :: j in m.Values
  {
    var rest := m - {s};
    forall j | j in rest.Values
      ensures j in m.Values
    {
      var t := OwnerOf(rest, j);
      assert m[t] == j;
    }
  }

  /** What following the two matchings alternately from `s` ends with. */
  ghost predicate Exchanged(g: Graph, a: map<nat, nat>, b: map<nat, nat>, s: nat, grows: bool, m: map<nat, nat>,
                            t: nat) {
    && Matching(g, m) && Uses(m, a, b)
    && if grows then m.Keys == a.Keys + {s} else t in a.Keys - b.Keys && m.Keys == b.Keys - {s} + {t}
  }

  /** A site of `b` joins the sites of `a`, or its place in `b` can be taken by a site that only `a` has. */
  lemma {:induction false} Swap(g: Graph, a: map<nat, nat>, b: map<nat, nat>, s: nat)
    returns (grows: bool, m: map<nat, nat>, t: nat)
    requires Matching(g, a) && Matching(g, b) && s in b && s !in a
    ensures Exchanged(g, a, b, s, grows, m, t)
    decreases |b|
  {
    var j := b[s];
    assert j in b.Values;
    Dropped(g, b, s);
    if j !in a.Values {
      Joined(g, a, s, j);
      grows, m, t := true, a[s := j], s;
      assert forall x <- a :: a[x] in a.Values;
    } else {
      var u := OwnerOf(a, j);
      Dropped(g, a, u);
      if u !in b {
        Joined(g, b - {s}, u, j);
        grows, m, t := false, (b - {s})[u := j], u;
        assert forall x <- b :: b[x] in b.Values;
      } else {
        var n;
        grows, n, t := Swap(g, a - {u}, b - {s}, u);
        assert j !in n.Values;
        m := SwapBack(g, a, b, s, u, grows, n, t);
      }
    }
  }

  lemma SwapBack(g: Graph, a: map<nat, nat>, b: map<nat, nat>, s: nat, u: nat, grows: bool, n: map<nat, nat>, t: nat)
    returns (m: map<nat, nat>)
    requires Matching(g, a) && Matching(g, b) && s in b && s !in a && u in a && u in b && a[u] == b[s]
    requires Exchanged(g, a - {u}, b - {s}, u, grows, n, t) && b[s] !in n.Values
    ensures Exchanged(g, a, b, s, grows, m, t)
  {
    var j, joining := b[s], if grows then s else u;
    Dropped(g, a, u);
    Dropped(g, b, s);
    Joined(g, n, joining, j);
    m := n[joining := j];
    assert j in b.Values;
  }

  ghost predicate Held(g: Graph, n: nat, m: map<nat, nat>)
    requires n <= |g|
  {
    && Matching(g[..n], m) && |m| == MaximumSize(g[..n])
    && forall s: nat :: s in m <==> s < n && !Surplus(g, s)
  }

  /** The sites that are not surplus, and no others, are matched by one largest matching. */
  lemma {:induction false} HeldTogether(g: Graph, n: nat) returns (m: map<nat, nat>)
    requires n <= |g|
    ensures Held(g, n, m)
  {
    if n == 0 {
      m := map[];
      SurplusCounts(g, 0);
    } else {
      m := HeldTogether(g, n - 1);
      m := HoldNext(g, n - 1, m);
    }
  }

  lemma HoldNext(g: Graph, n: nat, held: map<nat, nat>) returns (m: map<nat, nat>)
    requires n < |g| && Held(g, n, held)
    ensures Held(g, n + 1, m)
  {
    PrefixSizes(g, n);
    Lifted(g, n, held);
    if Surplus(g, n) {
      m := held;
    } else {
      m := OneMore(g, n, held);
      assert |m.Keys| == |held.Keys| + 1;
    }
  }

  lemma Lifted(g: Graph, n: nat, m: map<nat, nat>)
    requires n < |g| && Matching(g[..n], m)
    ensures Matching(g[..n + 1], m) && n !in m
  {
  }

  lemma OneMore(g: Graph, n: nat, held: map<nat, nat>) returns (m: map<nat, nat>)
    requires n < |g| && Matching(g[..n], held) && |held| == MaximumSize(g[..n])
    requires MaximumSize(g[..n + 1]) == |held| + 1
    ensures Matching(g[..n + 1], m) && m.Keys == held.Keys + {n}
  {
    var best := LargerExists(g[..n + 1], map[]);
    SizeOf(g[..n + 1], best);
    Lifted(g, n, held);
    if n !in best {
      NotLarger(g, n, best);
    }
    var grows, t;
    grows, m, t := Swap(g[..n + 1], held, best, n);
    if !grows {
      assert |m.Keys| == |best.Keys|;
      NotLarger(g, n, m);
    }
  }

  lemma SizeBounds(g: Graph, m: map<nat, nat>)
    requires Matching(g, m)
    ensures |m| <= MaximumSize(g)
  {
    var best := LargerExists(g, map[]);
    SizeOf(g, best);
  }

  lemma NotLarger(g: Graph, n: nat, m: map<nat, nat>)
    requires n < |g| && Matching(g[..n + 1], m) && n !in m
    ensures |m| <= MaximumSize(g[..n])
  {
    SizeBounds(g[..n], m);
  }

  lemma AllHeld(g: Graph) returns (m: map<nat, nat>)
    ensures Matching(g, m) && forall s: nat :: s < |g| ==> (s in m <==> !Surplus(g, s))
  {
    m := HeldTogether(g, |g|);
    assert g[..|g|] == g;
  }
}
