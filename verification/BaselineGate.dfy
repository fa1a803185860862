/** The baseline gate's comparison with the base commit. */
module BaselineGate {
  import opened Kuhn

  datatype Kind = Reject | Decide | Extract | Format | OwnText | ExternalText | Display

  datatype Entry = Entry(file: string, owner: string, kind: Kind, sites: seq<string>)

  /** A site as the baseline lists it. */
  datatype Listed = Listed(file: string, owner: string, kind: Kind, text: string)

  /** A matched site that is shown for review. */
  datatype Notice = Notice(site: Listed, from: Listed, edited: bool, moved: bool, relaxed: bool)

  const PENDING: set<Kind> := {Reject, Decide, Extract}

  function ListedOf(e: Entry, sites: seq<string>): (r: seq<Listed>)
    ensures |r| == |sites| && forall i :: 0 <= i < |r| ==> r[i] == Listed(e.file, e.owner, e.kind, sites[i])
  {
    seq(|sites|, i requires 0 <= i < |sites| => Listed(e.file, e.owner, e.kind, sites[i]))
  }

  function SitesOf(entries: seq<Entry>): seq<Listed> {
    if entries == [] then [] else ListedOf(entries[0], entries[0].sites) + SitesOf(entries[1..])
  }

  /** How often the entries list a site. */
  function Listings(entries: seq<Entry>, x: Listed): nat {
    if entries == [] then 0
    else
      var e := entries[|entries| - 1];
      Listings(entries[..|entries| - 1], x) +
      if e.file == x.file && e.owner == x.owner && e.kind == x.kind then multiset(e.sites)[x.text] else 0
  }

  lemma {:induction false} SitesJoin(a: seq<Entry>, b: seq<Entry>)
    ensures SitesOf(a + b) == SitesOf(a) + SitesOf(b)
  {
    if a == [] {
      assert [] + b == b;
    } else {
      assert (a + b)[1..] == a[1..] + b;
      SitesJoin(a[1..], b);
    }
  }

  lemma {:induction false} EntryListed(e: Entry, sites: seq<string>, x: Listed)
    ensures multiset(ListedOf(e, sites))[x] ==
            if e.file == x.file && e.owner == x.owner && e.kind == x.kind then multiset(sites)[x.text] else 0
  {
    if sites != [] {
      var init, text := sites[..|sites| - 1], sites[|sites| - 1];
      EntryListed(e, init, x);
      assert sites == init + [text];
      assert ListedOf(e, sites) == ListedOf(e, init) + [Listed(e.file, e.owner, e.kind, text)];
    }
  }

  /** The sites are those of all entries, each as often as it is listed. */
  lemma {:induction false} SitesListed(entries: seq<Entry>, x: Listed)
    ensures multiset(SitesOf(entries))[x] == Listings(entries, x)
  {
    if entries != [] {
      var init, e := entries[..|entries| - 1], entries[|entries| - 1];
      assert entries == init + [e];
      SitesListed(init, x);
      SitesJoin(init, [e]);
      EntryListed(e, e.sites, x);
      assert SitesOf([e]) == ListedOf(e, e.sites);
    }
  }

  predicate Exact(a: Listed, b: Listed) {
    && a.file == b.file
    && a.owner == b.owner
    && a.text == b.text
    && (b.kind in PENDING || a.kind !in PENDING)
  }

  predicate Edge(a: Listed, b: Listed) {
    || Exact(a, b)
    || (&& a.kind == b.kind
        && (|| (a.text == b.text && (a.file == b.file || a.owner == b.owner))
            || (a.file == b.file && a.owner == b.owner)))
  }

  /** In how many of text, file and owner two sites differ. */
  function Differences(a: Listed, b: Listed): nat {
    (if a.text != b.text then 1 else 0) + (if a.file != b.file then 1 else 0) + (if a.owner != b.owner then 1 else 0)
  }

  /**
   * A site may have come from another of its kind that differs in one thing at most, or from any that differs in the
   * kind alone unless that would take it into PENDING; the exact pairs are those that differ in the kind at most.
   */
  lemma EdgeDiffers(a: Listed, b: Listed)
    ensures Exact(a, b) <==> Differences(a, b) == 0 && (a.kind in PENDING ==> b.kind in PENDING)
    ensures Edge(a, b) <==> if a.kind == b.kind then Differences(a, b) <= 1 else Exact(a, b)
  {
  }

  // ----- Adjacency: the edges of one site, exact pairs first

  predicate Precedes(site: Listed, before: seq<Listed>, i: nat, j: nat) {
    && i < |before| && j < |before|
    && if Exact(site, before[i]) == Exact(site, before[j]) then i < j else Exact(site, before[i])
  }

  function Select(site: Listed, before: seq<Listed>, exact: bool, n: nat): (r: seq<nat>)
    requires n <= |before|
    ensures forall i: nat :: i in r <==> i < n && Edge(site, before[i]) && Exact(site, before[i]) == exact
  {
    if n == 0 then []
    else
      var init := Select(site, before, exact, n - 1);
      if Edge(site, before[n - 1]) && Exact(site, before[n - 1]) == exact then init + [n - 1] else init
  }

  function Adjacent(site: Listed, before: seq<Listed>): (r: seq<nat>)
    ensures forall i: nat :: i in r <==> i < |before| && Edge(site, before[i])
  {
    Select(site, before, true, |before|) + Select(site, before, false, |before|)
  }

  ghost predicate Increasing(r: seq<nat>) {
    forall j, k :: 0 <= j < k < |r| ==> r[j] < r[k]
  }

  lemma {:induction false} SelectSorted(site: Listed, before: seq<Listed>, exact: bool, n: nat)
    requires n <= |before|
    ensures Increasing(Select(site, before, exact, n))
  {
    if n > 0 {
      SelectSorted(site, before, exact, n - 1);
      var init := Select(site, before, exact, n - 1);
      forall j | 0 <= j < |init|
        ensures init[j] < n - 1
      {
        assert init[j] in init;
      }
    }
  }

  /** Candidates are tried once each: exact pairs first, and otherwise in the order of the base. */
  lemma AdjacentOrder(site: Listed, before: seq<Listed>, j: nat, k: nat)
    requires j < k < |Adjacent(site, before)|
    ensures Precedes(site, before, Adjacent(site, before)[j], Adjacent(site, before)[k])
  {
    var r, exact, other := Adjacent(site, before), Select(site, before, true, |before|),
      Select(site, before, false, |before|);
    SelectSorted(site, before, true, |before|);
    SelectSorted(site, before, false, |before|);
    assert r == exact + other && r[j] in r && r[k] in r;
    forall i: nat | i < |r|
      ensures r[i] in r && Exact(site, before[r[i]]) == (i < |exact|)
    {
      if i < |exact| {
        assert exact[i] in exact;
      } else {
        assert other[i - |exact|] in other;
      }
    }
  }

  function Adjacency(now: seq<Listed>, before: seq<Listed>): (g: Graph)
    ensures |g| == |now|
    ensures forall s :: 0 <= s < |now| ==> g[s] == Adjacent(now[s], before)
    ensures Bounded(g, |before|)
  {
    seq(|now|, s requires 0 <= s < |now| => Adjacent(now[s], before))
  }

  // ----- What growth is, independently of the algorithm

  /** The sites, in order, that no largest matching of the sites up to them can afford. */
  ghost function GrowthOf(now: seq<Listed>, g: Graph, n: nat): seq<Listed>
    requires n <= |now| == |g|
  {
    if n == 0 then []
    else if Surplus(g, n - 1) then GrowthOf(now, g, n - 1) + [now[n - 1]]
    else GrowthOf(now, g, n - 1)
  }

  ghost function Growth(now: seq<Listed>, before: seq<Listed>): seq<Listed> {
    GrowthOf(now, Adjacency(now, before), |now|)
  }

  /** The notice for a matched pair, if the pair changed anything that review must see. */
  function NoticeOf(site: Listed, from: Listed): Notice {
    Notice(site, from,
           from.text != site.text,
           from.file != site.file || from.owner != site.owner,
           from.kind in PENDING && site.kind !in PENDING)
  }

  predicate Shown(n: Notice) {
    n.edited || n.moved || n.relaxed
  }

  function NoticesOf(now: seq<Listed>, before: seq<Listed>, pair: map<nat, nat>, n: nat): seq<Notice>
    requires n <= |now|
    requires forall s <- pair :: pair[s] < |before|
  {
    if n == 0 then []
    else
      var init := NoticesOf(now, before, pair, n - 1);
      if n - 1 in pair && Shown(NoticeOf(now[n - 1], before[pair[n - 1]]))
      then init + [NoticeOf(now[n - 1], before[pair[n - 1]])] else init
  }

  /** What review is shown of a matched pair: that its text, its place or its way out of PENDING changed, if one did. */
  ghost predicate Reviewed(now: seq<Listed>, before: seq<Listed>, pair: map<nat, nat>, notices: seq<Notice>)
    requires forall s <- pair :: s < |now| && pair[s] < |before|
  {
    // Every changed pair has its notice, with what changed.
    && (forall s <- pair ::
          var site, from := now[s], before[pair[s]];
          && (site.text != from.text ==> exists n <- notices :: n.site == site && n.from == from && n.edited)
          && (site.file != from.file || site.owner != from.owner ==>
                exists n <- notices :: n.site == site && n.from == from && n.moved)
          && (from.kind in PENDING && site.kind !in PENDING ==>
                exists n <- notices :: n.site == site && n.from == from && n.relaxed))
    // Every notice is of a pair and says no more than what changed, which is something.
    && (forall n <- notices ::
          && (exists s <- pair :: now[s] == n.site && before[pair[s]] == n.from)
          && (n.edited <==> n.site.text != n.from.text)
          && (n.moved <==> n.site.file != n.from.file || n.site.owner != n.from.owner)
          && (n.relaxed <==> n.from.kind in PENDING && n.site.kind !in PENDING)
          && (n.edited || n.moved || n.relaxed))
    // There is one notice for each changed pair.
    && |notices| == |ChangedPairs(now, before, pair)|
  }

  /** The matched sites that differ from their base site in text or place, or left PENDING. */
  ghost function ChangedPairs(now: seq<Listed>, before: seq<Listed>, pair: map<nat, nat>): set<nat>
    requires forall s <- pair :: s < |now| && pair[s] < |before|
  {
    set s | s in pair &&
            var site, from := now[s], before[pair[s]];
            || site.text != from.text || site.file != from.file || site.owner != from.owner
            || (from.kind in PENDING && site.kind !in PENDING)
  }

  // ----- Groups of sites: by kind or by owner

  type Group = Listed -> bool

  function KindIn(kinds: set<Kind>): Group { (site: Listed) => site.kind in kinds }

  function OwnerIn(owners: set<string>): Group { (site: Listed) => site.owner in owners }

  ghost function CountIf(sites: seq<Listed>, of: Group): nat {
    if sites == [] then 0 else CountIf(sites[..|sites| - 1], of) + if of(sites[|sites| - 1]) then 1 else 0
  }

  /** The group has no more sites than before, but for those that growth shows. */
  ghost predicate NoGain(now: seq<Listed>, before: seq<Listed>, growth: seq<Listed>, of: Group) {
    CountIf(now, of) <= CountIf(before, of) + CountIf(growth, of)
  }

  /** These sets of kinds never gain. */
  ghost predicate Stable(kinds: set<Kind>) {
    kinds == {} || kinds == PENDING || forall k: Kind :: k in kinds
  }

  /** No edge of this comparison leads out of the group. */
  ghost predicate Closes(now: seq<Listed>, before: seq<Listed>, of: Group) {
    forall a, b :: a in now && b in before && of(a) && Edge(a, b) ==> of(b)
  }

  /** How many notices show a site that came into the group from outside it. */
  ghost function Arrivals(notices: seq<Notice>, of: Group): nat {
    if notices == [] then 0
    else
      var last := notices[|notices| - 1];
      Arrivals(notices[..|notices| - 1], of) + if of(last.site) && !of(last.from) then 1 else 0
  }

  method BaselineChange(current: seq<Entry>, base: seq<Entry>)
    returns (growth: seq<Listed>, notices: seq<Notice>, pair: map<nat, nat>)
    ensures var now, before := SitesOf(current), SitesOf(base);
            && Maximum(Adjacency(now, before), pair)
            && growth == Growth(now, before)
            && |growth| + |pair| == |now|
            && (forall s <- pair :: pair[s] < |before|)
            && notices == NoticesOf(now, before, pair, |now|)
            && (forall s <- pair :: s < |now|) && Reviewed(now, before, pair, notices)
            && (forall kinds :: Stable(kinds) ==> NoGain(now, before, growth, KindIn(kinds)))
            && (forall owners :: Closes(now, before, OwnerIn(owners)) ==> NoGain(now, before, growth, OwnerIn(owners)))
            && (forall owners :: CountIf(now, OwnerIn(owners)) <=
                  CountIf(before, OwnerIn(owners)) + CountIf(growth, OwnerIn(owners))
                    + Arrivals(notices, OwnerIn(owners)))
  {
    var now, before := SitesOf(current), SitesOf(base);
    var g := Adjacency(now, before);
    pair := MatchAll(g, |before|);
    growth, notices := [], [];
    for index := 0 to |now|
      invariant growth == GrowthOf(now, g, index)
      invariant notices == NoticesOf(now, before, pair, index)
    {
      if index !in pair {
        growth := growth + [now[index]];
      } else {
        var notice := NoticeOf(now[index], before[pair[index]]);
        if Shown(notice) {
          notices := notices + [notice];
        }
      }
    }
    assert g[..|g|] == g;
    SurplusCounts(g, |now|);
    SizeOf(g, pair);
    GrowthSize(now, g, |now|);
    GrowthIsWithout(now, g, pair.Keys, |now|);
    PairsReviewed(now, before, pair);
    forall kinds | Stable(kinds)
      ensures NoGain(now, before, growth, KindIn(kinds))
    {
      KindsHold(now, before, pair, kinds);
    }
    forall owners
      ensures CountIf(now, OwnerIn(owners)) <=
              CountIf(before, OwnerIn(owners)) + CountIf(growth, OwnerIn(owners)) + Arrivals(notices, OwnerIn(owners))
    {
      OwnersHold(now, before, pair, owners);
    }
    forall owners | Closes(now, before, OwnerIn(owners))
      ensures NoGain(now, before, growth, OwnerIn(owners))
    {
      ClosedHold(now, before, pair, OwnerIn(owners));
    }
  }

  ghost function ChangedBelow(now: seq<Listed>, before: seq<Listed>, pair: map<nat, nat>, n: nat): set<nat>
    requires forall s <- pair :: s < |now| && pair[s] < |before|
  {
    set s | s in ChangedPairs(now, before, pair) && s < n
  }

  lemma ChangedNext(now: seq<Listed>, before: seq<Listed>, pair: map<nat, nat>, n: nat)
    requires n > 0 && forall s <- pair :: s < |now| && pair[s] < |before|
    ensures var below := ChangedBelow(now, before, pair, n - 1);
            && n - 1 !in below
            && ChangedBelow(now, before, pair, n) ==
               below + if n - 1 in ChangedPairs(now, before, pair) then {n - 1} else {}
  {
  }

  lemma {:induction false} NoticesCounted(now: seq<Listed>, before: seq<Listed>, pair: map<nat, nat>, n: nat)
    requires n <= |now| && forall s <- pair :: s < |now| && pair[s] < |before|
    ensures |NoticesOf(now, before, pair, n)| == |ChangedBelow(now, before, pair, n)|
  {
    if n > 0 {
      NoticesCounted(now, before, pair, n - 1);
      ChangedNext(now, before, pair, n);
    }
  }

  lemma {:induction false} NoticeFound(now: seq<Listed>, before: seq<Listed>, pair: map<nat, nat>, n: nat, s: nat)
    requires n <= |now| && forall s <- pair :: s < |now| && pair[s] < |before|
    requires s < n && s in ChangedPairs(now, before, pair)
    ensures NoticeOf(now[s], before[pair[s]]) in NoticesOf(now, before, pair, n)
  {
    if s < n - 1 {
      NoticeFound(now, before, pair, n - 1, s);
    }
  }

  lemma {:induction false} NoticeMeans(now: seq<Listed>, before: seq<Listed>, pair: map<nat, nat>, n: nat,
                                       notice: Notice) returns (s: nat)
    requires n <= |now| && forall s <- pair :: s < |now| && pair[s] < |before|
    requires notice in NoticesOf(now, before, pair, n)
    ensures s in ChangedPairs(now, before, pair) && notice == NoticeOf(now[s], before[pair[s]])
  {
    if notice in NoticesOf(now, before, pair, n - 1) {
      s := NoticeMeans(now, before, pair, n - 1, notice);
    } else {
      s := n - 1;
    }
  }

  lemma PairsReviewed(now: seq<Listed>, before: seq<Listed>, pair: map<nat, nat>)
    requires forall s <- pair :: s < |now| && pair[s] < |before|
    ensures Reviewed(now, before, pair, NoticesOf(now, before, pair, |now|))
  {
    var notices := NoticesOf(now, before, pair, |now|);
    NoticesCounted(now, before, pair, |now|);
    assert ChangedBelow(now, before, pair, |now|) == ChangedPairs(now, before, pair);
    forall s | s in pair && s in ChangedPairs(now, before, pair)
      ensures NoticeOf(now[s], before[pair[s]]) in notices
    {
      NoticeFound(now, before, pair, |now|, s);
    }
    forall n | n in notices
      ensures exists s <- pair :: s in ChangedPairs(now, before, pair) && n == NoticeOf(now[s], before[pair[s]])
    {
      var s := NoticeMeans(now, before, pair, |now|, n);
    }
  }

  lemma {:induction false} GrowthSize(now: seq<Listed>, g: Graph, n: nat)
    requires n <= |now| == |g|
    ensures |GrowthOf(now, g, n)| == SurplusCount(g, n)
  {
    if n > 0 {
      GrowthSize(now, g, n - 1);
    }
  }

  // ----- What a pairing keeps of a group

  /** The positions among the first `n` that are in `held` and belong to the group. */
  ghost function Positions(sites: seq<Listed>, of: Group, held: set<nat>, n: nat): (r: set<nat>)
    requires n <= |sites|
    ensures forall i: nat :: i in r <==> i < n && i in held && of(sites[i])
  {
    if n == 0 then {}
    else Positions(sites, of, held, n - 1) + if n - 1 in held && of(sites[n - 1]) then {n - 1} else {}
  }

  /** The sites among the first `n` that are not held. */
  ghost function Without(sites: seq<Listed>, held: set<nat>, n: nat): seq<Listed>
    requires n <= |sites|
  {
    if n == 0 then []
    else if n - 1 in held then Without(sites, held, n - 1)
    else Without(sites, held, n - 1) + [sites[n - 1]]
  }

  lemma CountAppend(sites: seq<Listed>, site: Listed, of: Group)
    ensures CountIf(sites + [site], of) == CountIf(sites, of) + if of(site) then 1 else 0
  {
    assert (sites + [site])[..|sites|] == sites;
  }

  lemma CountOne(site: Listed, of: Group)
    ensures CountIf([site], of) == if of(site) then 1 else 0
  {
    CountAppend([], site, of);
    assert [] + [site] == [site];
  }

  lemma PositionsStep(sites: seq<Listed>, of: Group, held: set<nat>, n: nat)
    requires n < |sites|
    ensures |Positions(sites, of, held, n + 1)| ==
            |Positions(sites, of, held, n)| + if n in held && of(sites[n]) then 1 else 0
  {
    assert n !in Positions(sites, of, held, n);
  }

  lemma WithoutStep(sites: seq<Listed>, of: Group, held: set<nat>, n: nat)
    requires n < |sites|
    ensures CountIf(Without(sites, held, n + 1), of) ==
            CountIf(Without(sites, held, n), of) + if n !in held && of(sites[n]) then 1 else 0
  {
    CountAppend(Without(sites, held, n), sites[n], of);
  }

  lemma CountNext(sites: seq<Listed>, of: Group, n: nat)
    requires n < |sites|
    ensures CountIf(sites[..n + 1], of) == CountIf(sites[..n], of) + if of(sites[n]) then 1 else 0
  {
    assert sites[..n + 1] == sites[..n] + [sites[n]];
    CountAppend(sites[..n], sites[n], of);
  }

  ghost predicate SplitUpTo(sites: seq<Listed>, of: Group, held: set<nat>, n: nat)
    requires n <= |sites|
  {
    CountIf(sites[..n], of) == |Positions(sites, of, held, n)| + CountIf(Without(sites, held, n), of)
  }

  /** One site more is counted on both sides. */
  lemma SplitStep(sites: seq<Listed>, of: Group, held: set<nat>, n: nat)
    requires n < |sites| && SplitUpTo(sites, of, held, n)
    ensures SplitUpTo(sites, of, held, n + 1)
  {
    CountNext(sites, of, n);
    PositionsStep(sites, of, held, n);
    WithoutStep(sites, of, held, n);
  }

  lemma CountSplit(sites: seq<Listed>, of: Group, held: set<nat>, n: nat)
    requires n <= |sites|
    ensures SplitUpTo(sites, of, held, n)
  {
    for i := 0 to n
      invariant SplitUpTo(sites, of, held, i)
    {
      SplitStep(sites, of, held, i);
    }
  }

  lemma CountAll(sites: seq<Listed>, of: Group, held: set<nat>)
    ensures CountIf(sites, of) == |Positions(sites, of, held, |sites|)| + CountIf(Without(sites, held, |sites|), of)
  {
    assert sites[..|sites|] == sites;
    CountSplit(sites, of, held, |sites|);
  }

  lemma {:induction false} GrowthIsWithout(now: seq<Listed>, g: Graph, held: set<nat>, n: nat)
    requires n <= |now| == |g|
    requires forall s: nat :: s < |now| ==> (s in held <==> !Surplus(g, s))
    ensures GrowthOf(now, g, n) == Without(now, held, n)
  {
    if n > 0 {
      GrowthIsWithout(now, g, held, n - 1);
    }
  }

  ghost predicate Paired(now: seq<Listed>, before: seq<Listed>, pair: map<nat, nat>) {
    Injective(pair) && forall s <- pair :: s < |now| && pair[s] < |before| && Edge(now[s], before[pair[s]])
  }

  /** The pairs that lead from the group now to a site outside it before. */
  ghost function Crossing(now: seq<Listed>, before: seq<Listed>, pair: map<nat, nat>, of: Group, n: nat): (r: set<nat>)
    requires n <= |now| && Paired(now, before, pair)
    ensures forall s: nat :: s in r <==> s < n && s in pair && of(now[s]) && !of(before[pair[s]])
  {
    if n == 0 then {}
    else
      Crossing(now, before, pair, of, n - 1) +
      if n - 1 in pair && of(now[n - 1]) && !of(before[pair[n - 1]]) then {n - 1} else {}
  }

  /** A group gains no more than the unpaired sites and the pairs that cross into it. */
  lemma GroupHolds(now: seq<Listed>, before: seq<Listed>, pair: map<nat, nat>, of: Group)
    requires Paired(now, before, pair)
    ensures CountIf(now, of) <=
            CountIf(before, of) + CountIf(Without(now, pair.Keys, |now|), of) + |Crossing(now, before, pair, of, |now|)|
  {
    CountAll(now, of, pair.Keys);
    CountAll(before, of, pair.Values);
    var here, there := Positions(now, of, pair.Keys, |now|), Positions(before, of, pair.Values, |before|);
    var crossing := Crossing(now, before, pair, of, |now|);
    InjectionSize(pair, here - crossing, there);
    DifferenceSize(here, crossing);
  }

  lemma ClosedHold(now: seq<Listed>, before: seq<Listed>, pair: map<nat, nat>, of: Group)
    requires Paired(now, before, pair) && Closes(now, before, of)
    ensures NoGain(now, before, Without(now, pair.Keys, |now|), of)
  {
    GroupHolds(now, before, pair, of);
    forall s | s in pair && of(now[s])
      ensures of(before[pair[s]])
    {
      assert now[s] in now && before[pair[s]] in before;
    }
    assert Crossing(now, before, pair, of, |now|) == {};
  }

  lemma KindsHold(now: seq<Listed>, before: seq<Listed>, pair: map<nat, nat>, kinds: set<Kind>)
    requires Paired(now, before, pair) && Stable(kinds)
    ensures NoGain(now, before, Without(now, pair.Keys, |now|), KindIn(kinds))
  {
    ClosedHold(now, before, pair, KindIn(kinds));
  }

  lemma ArrivalsAppend(notices: seq<Notice>, notice: Notice, of: Group)
    ensures Arrivals(notices + [notice], of) ==
            Arrivals(notices, of) + if of(notice.site) && !of(notice.from) then 1 else 0
  {
    assert (notices + [notice])[..|notices|] == notices;
  }

  /** When every pair that crosses into the group changes something shown, each is a notice. */
  lemma {:induction false} CrossingShown(now: seq<Listed>, before: seq<Listed>, pair: map<nat, nat>, of: Group, n: nat)
    requires n <= |now| && Paired(now, before, pair)
    requires forall a, b :: of(a) && !of(b) ==> Shown(NoticeOf(a, b))
    ensures Arrivals(NoticesOf(now, before, pair, n), of) == |Crossing(now, before, pair, of, n)|
  {
    if n > 0 {
      CrossingShown(now, before, pair, of, n - 1);
      if n - 1 in pair {
        ArrivalsAppend(NoticesOf(now, before, pair, n - 1), NoticeOf(now[n - 1], before[pair[n - 1]]), of);
      }
    }
  }

  lemma OwnersHold(now: seq<Listed>, before: seq<Listed>, pair: map<nat, nat>, owners: set<string>)
    requires Paired(now, before, pair)
    ensures CountIf(now, OwnerIn(owners)) <=
            CountIf(before, OwnerIn(owners)) + CountIf(Without(now, pair.Keys, |now|), OwnerIn(owners))
            + Arrivals(NoticesOf(now, before, pair, |now|), OwnerIn(owners))
  {
    GroupHolds(now, before, pair, OwnerIn(owners));
    CrossingShown(now, before, pair, OwnerIn(owners), |now|);
  }
}
