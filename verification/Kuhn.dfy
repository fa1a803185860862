/**
 * Kuhn's augmenting-path matching over adjacency lists, as the baseline gate runs it. The left vertices are
 * the current sites, the right vertices the base sites, and `owner` records which site holds a base site.
 */
module Kuhn {

  type Graph = seq<seq<nat>>

  ghost predicate Bounded(g: Graph, n: nat) {
    forall s, i :: 0 <= s < |g| && i in g[s] ==> i < n
  }

  // ----- Matchings, independently of the algorithm

  /** A matching pairs a site with a base site along an edge, each at most once. */
  ghost predicate Matching(g: Graph, m: map<nat, nat>) {
    && (forall s <- m :: s < |g| && m[s] in g[s])
    && Injective(m)
  }

  ghost predicate Maximum(g: Graph, m: map<nat, nat>) {
    && Matching(g, m)
    && forall other: map<nat, nat> :: Matching(g, other) ==> |other| <= |m|
  }

  ghost predicate Injective<T(!new), U(!new)>(f: map<T, U>) {
    forall x, y :: x in f && y in f && f[x] == f[y] ==> x == y
  }

  /** An injection of `a` into `b` bounds the size of `a`. */
  lemma {:induction false} InjectionSize<T(!new), U(!new)>(f: map<T, U>, a: set<T>, b: set<U>)
    requires Injective(f) && (forall x <- a :: x in f && f[x] in b)
    ensures |a| <= |b|
  {
    if x :| x in a {
      InjectionSize(f, a - {x}, b - {f[x]});
    }
  }

  lemma SubsetSize<T>(a: set<T>, b: set<T>)
    requires a <= b
    ensures |a| <= |b|
  {
    assert b == a + (b - a);
  }

  lemma DifferenceSize<T>(a: set<T>, b: set<T>)
    requires b <= a
    ensures |a - b| == |a| - |b|
  {
    assert a == b + (a - b);
  }

  ghost function Below(n: nat): (r: set<nat>)
    ensures forall i: nat :: i in r <==> i < n
    ensures |r| == n
  {
    if n == 0 then {} else Below(n - 1) + {n - 1}
  }

  lemma MatchingSize(g: Graph, m: map<nat, nat>)
    requires Matching(g, m)
    ensures |m| <= |g|
  {
    assert m.Keys <= Below(|g|);
    SubsetSize(m.Keys, Below(|g|));
  }

  lemma {:induction false} LargerExists(g: Graph, m: map<nat, nat>) returns (best: map<nat, nat>)
    requires Matching(g, m)
    ensures Maximum(g, best)
    decreases |g| - |m|
  {
    if other: map<nat, nat> :| Matching(g, other) && |other| > |m| {
      MatchingSize(g, other);
      best := LargerExists(g, other);
    } else {
      best := m;
    }
  }

  /** The size of a largest matching. */
  ghost function MaximumSize(g: Graph): nat {
    Largest(g, |g|)
  }

  ghost predicate HasMatching(g: Graph, k: nat) {
    exists m: map<nat, nat> :: Matching(g, m) && |m| == k
  }

  ghost function Largest(g: Graph, k: nat): nat {
    if k == 0 || HasMatching(g, k) then k else Largest(g, k - 1)
  }

  lemma SizeOf(g: Graph, m: map<nat, nat>)
    requires Maximum(g, m)
    ensures |m| == MaximumSize(g)
  {
    MatchingSize(g, m);
    assert HasMatching(g, |m|);
    LargestIs(g, m, |g|);
  }

  lemma {:induction false} LargestIs(g: Graph, m: map<nat, nat>, k: nat)
    requires Maximum(g, m) && HasMatching(g, |m|) && |m| <= k
    ensures Largest(g, k) == |m|
  {
    if k > |m| {
      assert !HasMatching(g, k);
      LargestIs(g, m, k - 1);
    }
  }

  // ----- The owner array and the certificate the failed searches leave behind

  /** Every owned base site is owned along an edge. */
  ghost predicate Owners(g: Graph, owner: seq<int>) {
    forall i: nat :: i < |owner| ==> -1 <= owner[i] < |g| && (owner[i] >= 0 ==> i in g[owner[i]])
  }

  ghost predicate InjectiveOff(owner: seq<int>, seen: set<nat>) {
    forall i: nat, j: nat ::
      i < |owner| && j < |owner| && i !in seen && j !in seen && owner[i] == owner[j] >= 0 ==> i == j
  }

  ghost predicate OwnsOff(owner: seq<int>, seen: set<nat>, site: int) {
    exists i: nat :: i < |owner| && i !in seen && owner[i] == site
  }

  ghost predicate NeighboursIn(g: Graph, site: nat, f: set<nat>)
    requires site < |g|
  {
    forall i <- g[site] :: i in f
  }

  /** A set of base sites that is owned throughout and that its owners cannot leave. */
  ghost predicate Closed(g: Graph, owner: seq<int>, f: set<nat>)
    requires Owners(g, owner)
  {
    forall i <- f :: i < |owner| && owner[i] >= 0 && NeighboursIn(g, owner[i], f)
  }

  /** What a search that found an augmenting path did to the owners outside `seen`. */
  ghost predicate Augmented(was: seq<int>, post: seq<int>, site: nat, seen: set<nat>) {
    && |post| == |was|
    && (forall i: nat :: i in seen && i < |was| ==> post[i] == was[i])
    && InjectiveOff(post, seen)
    && (forall s :: s >= 0 ==> (OwnsOff(post, seen, s) <==> OwnsOff(was, seen, s) || s == site))
  }

  lemma Extend(was: seq<int>, mid: seq<int>, site: nat, index: nat, seen: set<nat>)
    requires index < |was| == |mid| && index !in seen
    requires !OwnsOff(was, seen, site)
    requires InjectiveOff(was, seen)
    requires was[index] >= 0 ==> Augmented(was, mid, was[index], seen + {index})
    requires was[index] < 0 ==> mid == was
    ensures Augmented(was, mid[index := site], site, seen)
  {
    var post := mid[index := site];
    var more := seen + {index};
    forall s | s >= 0
      ensures OwnsOff(post, seen, s) <==> OwnsOff(was, seen, s) || s == site
    {
      if OwnsOff(post, seen, s) && s != site {
        var i: nat :| i < |post| && i !in seen && post[i] == s;
        assert OwnsOff(mid, more, s);
      }
      if s == site {
        assert post[index] == s;
      } else if OwnsOff(was, seen, s) {
        var i: nat :| i < |was| && i !in seen && was[i] == s;
        if i == index {
          assert OwnsOff(mid, more, s);
        } else {
          assert OwnsOff(was, more, s);
        }
        var j: nat :| j < |mid| && j !in more && mid[j] == s;
        assert post[j] == s;
      }
    }
    StillFree(was, mid, site, index, seen);
    forall i: nat, j: nat | i < |post| && j < |post| && i !in seen && j !in seen && post[i] == post[j] >= 0
      ensures i == j
    {
      if i != index && j != index {
        assert i !in more && j !in more;
      }
    }
  }

  lemma StillFree(was: seq<int>, mid: seq<int>, site: nat, index: nat, seen: set<nat>)
    requires index < |was| == |mid| && index !in seen
    requires !OwnsOff(was, seen, site)
    requires was[index] >= 0 ==> Augmented(was, mid, was[index], seen + {index})
    requires was[index] < 0 ==> mid == was
    ensures !OwnsOff(mid, seen + {index}, site)
  {
    assert was[index] == site ==> OwnsOff(was, seen, site);
    assert OwnsOff(was, seen + {index}, site) ==> OwnsOff(was, seen, site);
  }

  /** A search may have visited more than it started with before it finds its way. */
  lemma Widen(was: seq<int>, post: seq<int>, site: nat, seen: set<nat>, prior: set<nat>)
    requires seen <= prior && Augmented(was, post, site, prior)
    requires InjectiveOff(was, seen) && !OwnsOff(was, seen, site)
    ensures Augmented(was, post, site, seen)
  {
    forall s | s >= 0
      ensures OwnsOff(post, seen, s) <==> OwnsOff(was, seen, s) || s == site
    {
      if OwnsOff(post, seen, s) && s != site {
        var i: nat :| i < |post| && i !in seen && post[i] == s;
        if i in prior {
          assert was[i] == s;
        } else {
          assert OwnsOff(post, prior, s);
        }
      }
      if OwnsOff(was, seen, s) {
        var i: nat :| i < |was| && i !in seen && was[i] == s;
        if i in prior {
          assert post[i] == s;
        } else {
          assert OwnsOff(was, prior, s);
        }
      }
      if s == site {
        assert OwnsOff(post, prior, s);
      }
    }
    forall i: nat, j: nat | i < |post| && j < |post| && i !in seen && j !in seen && post[i] == post[j] >= 0
      ensures i == j
    {
      if i in prior && j !in prior {
        Apart(was, post, site, seen, prior, i, j);
      } else if j in prior && i !in prior {
        Apart(was, post, site, seen, prior, j, i);
      }
    }
  }

  lemma Apart(was: seq<int>, post: seq<int>, site: nat, seen: set<nat>, prior: set<nat>, i: nat, j: nat)
    requires seen <= prior && Augmented(was, post, site, prior)
    requires InjectiveOff(was, seen) && !OwnsOff(was, seen, site)
    requires i < |post| && j < |post| && i in prior && i !in seen && j !in prior && post[j] >= 0
    ensures post[i] != post[j]
  {
    if post[i] == post[j] {
      assert was[i] == post[j];
      assert OwnsOff(post, prior, post[j]);
    }
  }

  /** What every search may assume of the owners, and what it keeps. */
  ghost predicate Searchable(g: Graph, owner: seq<int>, site: nat, seen: set<nat>, frozen: set<nat>) {
    && site < |g| && Bounded(g, |owner|) && Owners(g, owner)
    && (forall i <- seen :: i < |owner|)
    && InjectiveOff(owner, seen) && !OwnsOff(owner, seen, site)
    && Closed(g, owner, frozen)
  }

  lemma StillSearchable(g: Graph, owner: seq<int>, site: nat, seen: set<nat>, visited: set<nat>, frozen: set<nat>)
    requires Searchable(g, owner, site, seen, frozen)
    requires seen <= visited && forall i <- visited :: i < |owner|
    ensures Searchable(g, owner, site, visited, frozen)
  {
  }

  /** The base sites visited since `seen` are owned, and their owners reach nothing unvisited. */
  ghost predicate Exhausted(g: Graph, owner: seq<int>, seen: set<nat>, visited: set<nat>)
    requires Owners(g, owner)
  {
    forall i <- visited - seen :: i < |owner| && owner[i] >= 0 && NeighboursIn(g, owner[i], visited)
  }

  /**
   * One search. `frozen` is any closed set: a successful search never changes it, and a search whose site
   * has all its neighbours inside it fails. A failed search leaves a new closed set behind.
   */
  method Augment(g: Graph, owner: array<int>, site: nat, seen: set<nat>, ghost frozen: set<nat>)
    returns (found: bool, visited: set<nat>)
    requires Searchable(g, owner[..], site, seen, frozen)
    modifies owner
    decreases Below(owner.Length) - seen, 1
    ensures seen <= visited && forall i <- visited :: i < owner.Length
    ensures Owners(g, owner[..])
    ensures found ==> Augmented(old(owner[..]), owner[..], site, seen)
    ensures found ==> !NeighboursIn(g, site, frozen) && Closed(g, owner[..], frozen)
    ensures !found ==> owner[..] == old(owner[..])
    ensures !found ==> NeighboursIn(g, site, visited) && Exhausted(g, owner[..], seen, visited)
  {
    var adjacent := g[site];
    found, visited := false, seen;
    for k := 0 to |adjacent|
      invariant !found && owner[..] == old(owner[..])
      invariant seen <= visited && forall i <- visited :: i < owner.Length
      invariant forall j :: 0 <= j < k ==> adjacent[j] in visited
      invariant Exhausted(g, owner[..], seen, visited)
    {
      var index := adjacent[k];
      if index !in visited {
        ghost var prior := visited;
        assert index in g[site];
        StillSearchable(g, owner[..], site, seen, visited, frozen);
        found, visited := Take(g, owner, site, index, visited, frozen);
        if found {
          Widen(old(owner[..]), owner[..], site, seen, prior);
          return;
        }
      }
    }
  }

  /** Takes the base site `index` for `site` if it is free or its owner can find another. */
  method Take(g: Graph, owner: array<int>, site: nat, index: nat, seen: set<nat>, ghost frozen: set<nat>)
    returns (found: bool, visited: set<nat>)
    requires Searchable(g, owner[..], site, seen, frozen)
    requires index in g[site] && index !in seen
    modifies owner
    decreases Below(owner.Length) - seen, 0
    ensures seen < visited && index in visited && forall i <- visited :: i < owner.Length
    ensures Owners(g, owner[..])
    ensures found ==> Augmented(old(owner[..]), owner[..], site, seen)
    ensures found ==> index !in frozen && Closed(g, owner[..], frozen)
    ensures !found ==> owner[..] == old(owner[..]) && Exhausted(g, owner[..], seen, visited)
  {
    ghost var was := owner[..];
    visited := seen + {index};
    found := owner[index] == -1;
    if !found {
      assert was[index] == owner[index];
      found, visited := Augment(g, owner, owner[index], visited, frozen);
    }
    if found {
      ghost var mid := owner[..];
      Extend(was, mid, site, index, seen);
      owner[index] := site;
      assert owner[..] == mid[index := site];
    }
  }

  // ----- The certificate proves the matching maximum

  /** The pairs the owner array holds, seen from the current sites. */
  ghost predicate PairsOf(owner: seq<int>, pair: map<nat, nat>) {
    && (forall s <- pair :: pair[s] < |owner| && owner[pair[s]] == s)
    && (forall i: nat :: i < |owner| && owner[i] >= 0 ==> owner[i] in pair && pair[owner[i] as nat] == i)
  }

  /** Every site is owned, or failed with all its neighbours inside `f`. */
  ghost predicate Settled(g: Graph, owner: seq<int>, f: set<nat>) {
    forall s: nat :: s < |g| ==> OwnsOff(owner, {}, s) || NeighboursIn(g, s, f)
  }

  /** The keys of `m` whose partner lies in `f`. */
  ghost function Into(m: map<nat, nat>, f: set<nat>): (r: set<nat>)
    ensures r <= m.Keys
    ensures forall s <- m :: s in r <==> m[s] in f
  {
    set s | s in m && m[s] in f
  }

  /** Weak duality: the union of the failed searches bounds every matching. */
  lemma CertificateBounds(g: Graph, owner: seq<int>, f: set<nat>, pair: map<nat, nat>, other: map<nat, nat>)
    requires Owners(g, owner) && Closed(g, owner, f) && Settled(g, owner, f) && PairsOf(owner, pair)
    requires Matching(g, other)
    ensures |other| <= |pair|
  {
    InsideBound(g, owner, f, pair, other);
    OutsideBound(g, owner, f, pair, other);
    DifferenceSize(other.Keys, Into(other, f));
    DifferenceSize(pair.Keys, Into(pair, f));
  }

  lemma OutsideBound(g: Graph, owner: seq<int>, f: set<nat>, pair: map<nat, nat>, other: map<nat, nat>)
    requires Owners(g, owner) && Closed(g, owner, f) && Settled(g, owner, f) && PairsOf(owner, pair)
    requires Matching(g, other)
    ensures |other.Keys - Into(other, f)| <= |pair.Keys - Into(pair, f)|
  {
    forall s | s in other.Keys - Into(other, f)
      ensures s in pair.Keys - Into(pair, f)
    {
      assert other[s] in g[s] && other[s] !in f;
      assert OwnsOff(owner, {}, s);
    }
    SubsetSize(other.Keys - Into(other, f), pair.Keys - Into(pair, f));
  }

  lemma InsideBound(g: Graph, owner: seq<int>, f: set<nat>, pair: map<nat, nat>, other: map<nat, nat>)
    requires Owners(g, owner) && Closed(g, owner, f) && PairsOf(owner, pair) && Matching(g, other)
    ensures |Into(other, f)| <= |Into(pair, f)|
  {
    var inside := Into(other, f);
    var into: map<nat, nat> := map s | s in inside :: owner[other[s]] as nat;
    assert into.Keys == inside;
    forall s, t | s in into && t in into && into[s] == into[t]
      ensures s == t
    {
      assert pair[into[s]] == other[s] && pair[into[t]] == other[t];
    }
    InjectionSize(into, inside, Into(pair, f));
  }

  // ----- All searches

  /** The pairs of the first `k` base sites. */
  function Pairs(owner: seq<int>, k: nat): map<nat, nat>
    requires k <= |owner|
  {
    if k == 0 then map[]
    else if owner[k - 1] >= 0 then Pairs(owner, k - 1)[owner[k - 1] as nat := k - 1]
    else Pairs(owner, k - 1)
  }

  lemma {:induction false} PairsHold(owner: seq<int>, k: nat)
    requires k <= |owner| && InjectiveOff(owner, {})
    ensures forall s <- Pairs(owner, k) :: Pairs(owner, k)[s] < k && owner[Pairs(owner, k)[s]] == s
    ensures forall i: nat :: i < k && owner[i] >= 0 ==>
              owner[i] in Pairs(owner, k) && Pairs(owner, k)[owner[i] as nat] == i
  {
    if k > 0 {
      PairsHold(owner, k - 1);
    }
  }

  /** A largest matching of the sites up to and including `s` is no larger than one of those before it. */
  ghost predicate Surplus(g: Graph, s: nat)
    requires s < |g|
  {
    MaximumSize(g[..s + 1]) == MaximumSize(g[..s])
  }

  /** The state between two searches: the first `n` sites have been tried. */
  ghost predicate Tried(g: Graph, owner: seq<int>, f: set<nat>, n: nat) {
    && n <= |g| && Bounded(g, |owner|) && Owners(g, owner)
    && (forall i: nat :: i < |owner| ==> owner[i] < n)
    && InjectiveOff(owner, {})
    && Closed(g, owner, f)
    && (forall s: nat :: s < n ==> OwnsOff(owner, {}, s) || NeighboursIn(g, s, f))
  }

  lemma TriedMaximum(g: Graph, owner: seq<int>, f: set<nat>, n: nat)
    requires Tried(g, owner, f, n)
    ensures Maximum(g[..n], Pairs(owner, |owner|))
    ensures forall s: nat :: s in Pairs(owner, |owner|).Keys <==> OwnsOff(owner, {}, s)
    ensures forall s <- Pairs(owner, |owner|).Keys :: s < n
  {
    var p, pair := g[..n], Pairs(owner, |owner|);
    PairsHold(owner, |owner|);
    assert forall s: nat :: s < n ==> p[s] == g[s];
    forall i | i in f
      ensures i < |owner| && owner[i] >= 0 && NeighboursIn(p, owner[i], f)
    {
      assert NeighboursIn(g, owner[i], f);
    }
    forall s: nat | s < n
      ensures OwnsOff(owner, {}, s) || NeighboursIn(p, s, f)
    {
      assert OwnsOff(owner, {}, s) || NeighboursIn(g, s, f);
    }
    forall other: map<nat, nat> | Matching(p, other)
      ensures |other| <= |pair|
    {
      CertificateBounds(p, owner, f, pair, other);
    }
  }

  /** One more search keeps the state, and decides the new site for good. */
  lemma TriedStep(g: Graph, was: seq<int>, post: seq<int>, f: set<nat>, n: nat, found: bool, visited: set<nat>)
    requires Tried(g, was, f, n) && n < |g| && |post| == |was| && Owners(g, post)
    requires found ==> Augmented(was, post, n, {}) && Closed(g, post, f)
    requires !found ==> post == was && NeighboursIn(g, n, visited) && Exhausted(g, post, {}, visited)
    ensures Tried(g, post, if found then f else f + visited, n + 1)
    ensures forall s: nat :: s < n ==> (OwnsOff(post, {}, s) <==> OwnsOff(was, {}, s))
    ensures OwnsOff(post, {}, n) <==> found
  {
    if found {
      forall i: nat | i < |post|
        ensures post[i] < n + 1
      {
        if post[i] >= 0 {
          assert OwnsOff(post, {}, post[i]);
        }
      }
    } else {
      var more := f + visited;
      forall i | i in more
        ensures i < |post| && post[i] >= 0 && NeighboursIn(g, post[i], more)
      {
        if i !in f {
          assert i in visited - {};
        }
      }
      forall s: nat | s < n + 1
        ensures OwnsOff(post, {}, s) || NeighboursIn(g, s, more)
      {
        assert s < n ==> OwnsOff(was, {}, s) || NeighboursIn(g, s, f);
      }
    }
  }

  /** A site is left out exactly when the search for it failed. */
  lemma TriedDecides(g: Graph, was: seq<int>, post: seq<int>, f: set<nat>, f': set<nat>, n: nat)
    requires Tried(g, was, f, n) && n < |g| && Tried(g, post, f', n + 1)
    requires forall s: nat :: s < n ==> (OwnsOff(post, {}, s) <==> OwnsOff(was, {}, s))
    ensures OwnsOff(post, {}, n) <==> !Surplus(g, n)
  {
    TriedMaximum(g, was, f, n);
    TriedMaximum(g, post, f', n + 1);
    var a, b := Pairs(was, |was|), Pairs(post, |post|);
    KeysStep(was, post, n, a.Keys, b.Keys);
    SurplusBySize(g, n, a, b);
  }

  lemma KeysStep(was: seq<int>, post: seq<int>, n: nat, a: set<nat>, b: set<nat>)
    requires forall s: nat :: s in a <==> OwnsOff(was, {}, s)
    requires forall s: nat :: s in b <==> OwnsOff(post, {}, s)
    requires forall s: nat :: s < n ==> (OwnsOff(post, {}, s) <==> OwnsOff(was, {}, s))
    requires (forall s <- a :: s < n) && (forall s <- b :: s < n + 1)
    ensures n !in a && b - {n} == a
  {
  }

  lemma SurplusBySize(g: Graph, n: nat, a: map<nat, nat>, b: map<nat, nat>)
    requires n < |g| && Maximum(g[..n], a) && Maximum(g[..n + 1], b)
    requires n !in a.Keys && b.Keys - {n} == a.Keys
    ensures n in b <==> !Surplus(g, n)
  {
    SizeOf(g[..n], a);
    SizeOf(g[..n + 1], b);
    assert n in b ==> b.Keys == a.Keys + {n};
    assert n !in b ==> b.Keys == a.Keys;
  }

  /**
   * Runs every search in order. The pairs are a largest matching, and which sites stay without a partner is
   * decided by the sites alone, one by one.
   */
  method MatchAll(g: Graph, n: nat) returns (pair: map<nat, nat>)
    requires Bounded(g, n)
    ensures Maximum(g, pair)
    ensures forall s: nat :: s < |g| ==> (s in pair <==> !Surplus(g, s))
  {
    var owner := new int[n](_ => -1);
    ghost var failed: set<nat> := {};
    for site := 0 to |g|
      invariant Tried(g, owner[..], failed, site)
      invariant forall s: nat :: s < site ==> (OwnsOff(owner[..], {}, s) <==> !Surplus(g, s))
    {
      ghost var was, f := owner[..], failed;
      var found, visited := Augment(g, owner, site, {}, failed);
      TriedStep(g, was, owner[..], failed, site, found, visited);
      failed := if found then failed else failed + visited;
      TriedDecides(g, was, owner[..], f, failed, site);
    }
    pair := Pairs(owner[..], owner.Length);
    TriedMaximum(g, owner[..], failed, |g|);
    assert g[..|g|] == g;
  }

  // ----- Sizes of prefixes and of relabelled graphs

  /** Adding a site raises the maximum by at most one. */
  lemma PrefixSizes(g: Graph, s: nat)
    requires s < |g|
    ensures MaximumSize(g[..s]) <= MaximumSize(g[..s + 1]) <= MaximumSize(g[..s]) + 1
  {
    var a := LargerExists(g[..s], map[]);
    var b := LargerExists(g[..s + 1], map[]);
    SizeOf(g[..s], a);
    SizeOf(g[..s + 1], b);
    PrefixMatchings(g, s, a, b);
  }

  lemma PrefixMatchings(g: Graph, s: nat, a: map<nat, nat>, b: map<nat, nat>)
    requires s < |g| && Maximum(g[..s], a) && Maximum(g[..s + 1], b)
    ensures |a| <= |b| <= |a| + 1
  {
    assert Matching(g[..s + 1], a);
    var c := b - {s};
    assert c.Keys == b.Keys - {s};
    assert Matching(g[..s], c);
  }

  /** How many of the first `n` sites are surplus. */
  ghost function SurplusCount(g: Graph, n: nat): nat
    requires n <= |g|
  {
    if n == 0 then 0 else SurplusCount(g, n - 1) + if Surplus(g, n - 1) then 1 else 0
  }

  lemma {:induction false} SurplusCounts(g: Graph, n: nat)
    requires n <= |g|
    ensures SurplusCount(g, n) + MaximumSize(g[..n]) == n
  {
    if n == 0 {
      var best := LargerExists(g[..0], map[]);
      MatchingSize(g[..0], best);
      SizeOf(g[..0], best);
    } else {
      SurplusCounts(g, n - 1);
      PrefixSizes(g, n - 1);
    }
  }

  ghost predicate Distinct(p: seq<nat>) {
    forall i, j :: 0 <= i < |p| && 0 <= j < |p| && p[i] == p[j] ==> i == j
  }

  /** `p` relabels sites and `q` base sites so that every edge of `g` is one of `h`. */
  ghost predicate Embeds(g: Graph, h: Graph, p: seq<nat>, q: seq<nat>) {
    && |p| == |g| && Distinct(p) && Distinct(q) && Bounded(g, |q|)
    && (forall s :: 0 <= s < |g| ==> p[s] < |h|)
    && (forall s, i :: 0 <= s < |g| && i in g[s] ==> q[i] in h[p[s]])
  }

  lemma EmbeddedSize(g: Graph, h: Graph, p: seq<nat>, q: seq<nat>)
    requires Embeds(g, h, p, q)
    ensures MaximumSize(g) <= MaximumSize(h)
  {
    var m := LargerExists(g, map[]);
    var best := LargerExists(h, map[]);
    SizeOf(g, m);
    SizeOf(h, best);
    var moved := Transport(g, h, p, q, m);
  }

  lemma {:induction false} Transport(g: Graph, h: Graph, p: seq<nat>, q: seq<nat>, m: map<nat, nat>)
    returns (moved: map<nat, nat>)
    requires Embeds(g, h, p, q) && Matching(g, m)
    ensures Matching(h, moved) && |moved| == |m|
    ensures forall t <- moved :: exists s: nat :: s in m && p[s] == t && moved[t] == q[m[s]]
    decreases |m|
  {
    if m.Keys == {} {
      moved := map[];
    } else {
      var s :| s in m;
      var rest := m - {s};
      assert rest.Keys == m.Keys - {s};
      var sub := Transport(g, h, p, q, rest);
      moved := sub[p[s] := q[m[s]]];
      assert p[s] !in sub;
      assert moved.Keys == sub.Keys + {p[s]};
      forall t | t in moved
        ensures exists s': nat :: s' in m && p[s'] == t && moved[t] == q[m[s']]
      {
        if t != p[s] {
          var s': nat :| s' in rest && p[s'] == t && sub[t] == q[rest[s']];
          assert s' in m;
        }
      }
    }
  }
}
