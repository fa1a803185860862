/** The baseline gate's comparison of the scanned sites with the baseline, as counts per key. */
module BaselineCheck {

  datatype Id = Id(file: string, owner: string, text: string)

  datatype Site = Site(id: Id, exempt: bool)

  const NUL: char := '\0'

  /** The three parts joined by NUL. */
  function Key(id: Id): string {
    id.file + [NUL] + (id.owner + [NUL] + id.text)
  }

  /** The part of the text before its first NUL, or all of it. */
  function Head(s: string): (h: string)
    ensures NUL !in h && h <= s
    ensures |h| < |s| ==> s[|h|] == NUL
  {
    if s == [] || s[0] == NUL then [] else [s[0]] + Head(s[1..])
  }

  /** What follows the first NUL, or nothing. */
  function Tail(s: string): string {
    if |Head(s)| < |s| then s[|Head(s)| + 1..] else []
  }

  /** Splitting at NUL and keeping the first three parts. */
  function Split(key: string): Id {
    Id(Head(key), Head(Tail(key)), Head(Tail(Tail(key))))
  }

  predicate Clean(id: Id) {
    NUL !in id.file && NUL !in id.owner && NUL !in id.text
  }

  lemma {:induction false} HeadOf(a: string, b: string)
    requires NUL !in a
    ensures Head(a + [NUL] + b) == a && Tail(a + [NUL] + b) == b
  {
    var s := a + [NUL] + b;
    if a == [] {
      assert s == [NUL] + b;
    } else {
      HeadOf(a[1..], b);
      assert s[1..] == a[1..] + [NUL] + b;
      assert a[0] in a;
    }
  }

  lemma {:induction false} HeadWhole(a: string)
    requires NUL !in a
    ensures Head(a) == a
  {
    if a != [] {
      assert forall c <- a[1..] :: c in a;
      HeadWhole(a[1..]);
    }
  }

  /** A key splits back into its parts exactly when no part holds a NUL. */
  lemma SplitKey(id: Id)
    ensures Split(Key(id)) == id <==> Clean(id)
  {
    if Clean(id) {
      HeadOf(id.file, id.owner + [NUL] + id.text);
      HeadOf(id.owner, id.text);
      HeadWhole(id.text);
    }
  }

  lemma KeysDiffer(a: Id, b: Id)
    requires Clean(a) && Clean(b) && Key(a) == Key(b)
    ensures a == b
  {
    SplitKey(a);
    SplitKey(b);
  }

  // ----- The comparison

  ghost function Keys(ids: seq<Id>): multiset<string> {
    if ids == [] then multiset{} else Keys(ids[..|ids| - 1]) + multiset{Key(ids[|ids| - 1])}
  }

  ghost function CheckedKeys(sites: seq<Site>): multiset<string> {
    if sites == [] then multiset{}
    else
      var last := sites[|sites| - 1];
      CheckedKeys(sites[..|sites| - 1]) + if last.exempt then multiset{} else multiset{Key(last.id)}
  }

  function Count(counts: map<string, nat>, key: string): nat {
    if key in counts then counts[key] else 0
  }

  ghost predicate Tallies(counts: map<string, nat>, keys: multiset<string>) {
    forall k :: Count(counts, k) == keys[k]
  }

  ghost predicate Listing(order: seq<string>, counts: map<string, nat>) {
    && (forall k :: k in order <==> k in counts)
    && (forall i, j :: 0 <= i < j < |order| ==> order[i] != order[j])
  }

  function Copies(key: string, n: nat): seq<string> {
    if n == 0 then [] else Copies(key, n - 1) + [key]
  }

  lemma {:induction false} CopiesMultiset(key: string, n: nat)
    ensures multiset(Copies(key, n))[key] == n
    ensures forall k :: k != key ==> multiset(Copies(key, n))[k] == 0
  {
    if n > 0 {
      CopiesMultiset(key, n - 1);
    }
  }

  method TallyBaseline(baseline: seq<Id>) returns (counts: map<string, nat>, order: seq<string>)
    ensures Tallies(counts, Keys(baseline)) && Listing(order, counts)
  {
    counts, order := map[], [];
    for i := 0 to |baseline|
      invariant Tallies(counts, Keys(baseline[..i])) && Listing(order, counts)
    {
      var key := Key(baseline[i]);
      assert baseline[..i + 1][..i] == baseline[..i];
      if key !in counts {
        order := order + [key];
      }
      counts := counts[key := Count(counts, key) + 1];
    }
    assert baseline[..|baseline|] == baseline;
  }

  /** One checked site either uses up a baseline key or is added. */
  lemma CheckStep(base: multiset<string>, seen: multiset<string>, key: string)
    ensures (base - seen)[key] > 0 ==> base - (seen + multiset{key}) == (base - seen) - multiset{key}
    ensures (base - seen)[key] > 0 ==> (seen + multiset{key}) - base == seen - base
    ensures (base - seen)[key] == 0 ==> base - (seen + multiset{key}) == base - seen
    ensures (base - seen)[key] == 0 ==> (seen + multiset{key}) - base == (seen - base) + multiset{key}
  {
  }

  lemma CheckedAppend(sites: seq<Site>, site: Site)
    ensures CheckedKeys(sites + [site]) ==
            CheckedKeys(sites) + if site.exempt then multiset{} else multiset{Key(site.id)}
  {
    assert (sites + [site])[..|sites|] == sites;
  }

  lemma TakeOne(counts: map<string, nat>, keys: multiset<string>, key: string)
    requires Tallies(counts, keys) && Count(counts, key) > 0
    ensures Tallies(counts[key := counts[key] - 1], keys - multiset{key})
  {
    forall k
      ensures Count(counts[key := counts[key] - 1], k) == (keys - multiset{key})[k]
    {
      assert Count(counts, k) == keys[k];
    }
  }

  method UseUp(sites: seq<Site>, counts: map<string, nat>, order: seq<string>, ghost base: multiset<string>)
    returns (added: seq<Site>, remaining: map<string, nat>)
    requires Tallies(counts, base) && Listing(order, counts)
    ensures CheckedKeys(added) == CheckedKeys(sites) - base
    ensures forall site <- added :: site in sites && !site.exempt
    ensures Tallies(remaining, base - CheckedKeys(sites)) && Listing(order, remaining)
  {
    remaining, added := counts, [];
    ghost var seen: multiset<string> := multiset{};
    for i := 0 to |sites|
      invariant seen == CheckedKeys(sites[..i])
      invariant Tallies(remaining, base - seen) && Listing(order, remaining)
      invariant CheckedKeys(added) == seen - base
      invariant forall site <- added :: site in sites && !site.exempt
    {
      var site := sites[i];
      assert sites[..i + 1] == sites[..i] + [site];
      CheckedAppend(sites[..i], site);
      if !site.exempt {
        var key := Key(site.id);
        CheckStep(base, seen, key);
        if Count(remaining, key) > 0 {
          TakeOne(remaining, base - seen, key);
          remaining := remaining[key := remaining[key] - 1];
        } else {
          CheckedAppend(added, site);
          added := added + [site];
        }
        seen := seen + multiset{key};
      }
    }
    assert sites[..|sites|] == sites;
  }

  method Leftovers(remaining: map<string, nat>, order: seq<string>, ghost keys: multiset<string>)
    returns (stale: seq<string>)
    requires Tallies(remaining, keys) && Listing(order, remaining)
    ensures multiset(stale) == keys
  {
    stale := [];
    for j := 0 to |order|
      invariant forall k :: multiset(stale)[k] == if k in order[..j] then Count(remaining, k) else 0
    {
      CopiesMultiset(order[j], remaining[order[j]]);
      stale := stale + Copies(order[j], remaining[order[j]]);
      assert order[..j + 1] == order[..j] + [order[j]];
    }
    assert order[..|order|] == order;
    assert forall k :: multiset(stale)[k] == Count(remaining, k);
  }

  function Ids(keys: seq<string>): (r: seq<Id>)
    ensures |r| == |keys|
  {
    if keys == [] then [] else Ids(keys[..|keys| - 1]) + [Split(keys[|keys| - 1])]
  }

  lemma {:induction false} BaselineKey(baseline: seq<Id>, key: string) returns (id: Id)
    requires key in Keys(baseline)
    ensures id in baseline && Key(id) == key
  {
    var last := baseline[|baseline| - 1];
    if Key(last) == key {
      id := last;
    } else {
      id := BaselineKey(baseline[..|baseline| - 1], key);
    }
  }

  /** Splitting a clean key and joining it again changes nothing, so the listed ids stand for the keys. */
  lemma {:induction false} IdsKeepKeys(keys: seq<string>, baseline: seq<Id>)
    requires forall id <- baseline :: Clean(id)
    requires forall key <- keys :: key in Keys(baseline)
    ensures Keys(Ids(keys)) == multiset(keys)
  {
    if keys != [] {
      var init, key := keys[..|keys| - 1], keys[|keys| - 1];
      assert keys == init + [key];
      IdsKeepKeys(init, baseline);
      var id := BaselineKey(baseline, key);
      SplitKey(id);
      assert Ids(keys)[..|init|] == Ids(init);
    }
  }

  /**
   * `added` is the checked sites minus the baseline and `stale` the baseline minus the checked sites, as
   * multisets of keys. The stale keys are listed split; the split keeps them when the baseline holds no NUL.
   */
  method CheckBaseline(sites: seq<Site>, baseline: seq<Id>)
    returns (added: seq<Site>, stale: seq<Id>, ghost keys: seq<string>)
    ensures CheckedKeys(added) == CheckedKeys(sites) - Keys(baseline)
    ensures forall site <- added :: site in sites && !site.exempt
    ensures stale == Ids(keys) && multiset(keys) == Keys(baseline) - CheckedKeys(sites)
    ensures (forall id <- baseline :: Clean(id)) ==> Keys(stale) == Keys(baseline) - CheckedKeys(sites)
  {
    var counts, order := TallyBaseline(baseline);
    var remaining;
    added, remaining := UseUp(sites, counts, order, Keys(baseline));
    var left := Leftovers(remaining, order, Keys(baseline) - CheckedKeys(sites));
    stale, keys := Ids(left), left;
    if forall id <- baseline :: Clean(id) {
      assert forall key <- keys :: key in multiset(keys);
      IdsKeepKeys(keys, baseline);
    }
  }
}
