/** The breadth-first reach of the row-lock audit, with its cap on specializations and its call chains. */
module RowLockReach {
  import opened RowLockAudit

  /** What the walk of one state finds; the search takes it as given. */
  type Walk = Target -> Summary

  const MAX_SPECIALIZATIONS: nat := 512

  const EMPTY: Env := map[]

  // ----- Specializations

  type Table = map<nat, set<Env>>

  function Pinnings(table: Table, fn: nat): set<Env> {
    if fn in table then table[fn] else {}
  }

  /** At most 512 specializations of a function, or 513 when the unpinned one came last. */
  ghost predicate Capped(table: Table) {
    forall fn: nat ::
      var envs := Pinnings(table, fn);
      |envs| <= MAX_SPECIALIZATIONS || (|envs| == MAX_SPECIALIZATIONS + 1 && EMPTY in envs)
  }

  ghost predicate Grown(was: Table, table: Table) {
    forall fn: nat :: Pinnings(was, fn) <= Pinnings(table, fn)
  }

  /** The function of `t` has as many specializations as it may, without that of `t`. */
  ghost predicate Full(table: Table, t: Target) {
    |Pinnings(table, t.fn) - {t.env}| >= MAX_SPECIALIZATIONS
  }

  /** The state asked for, or the unpinned one of its function, and that only when the function is full. */
  ghost predicate StandsFor(state: Target, t: Target, table: Table) {
    state == t || (state == Target(t.fn, EMPTY) && Full(table, t))
  }

  lemma {:induction false} SubsetSize<T>(a: set<T>, b: set<T>)
    requires a <= b
    ensures |a| <= |b|
  {
    assert b == a + (b - a);
  }

  lemma StandsOn(state: Target, t: Target, was: Table, table: Table)
    requires StandsFor(state, t, was) && Grown(was, table)
    ensures StandsFor(state, t, table)
  {
    SubsetSize(Pinnings(was, t.fn) - {t.env}, Pinnings(table, t.fn) - {t.env});
  }

  /** The registered states of the first `n` functions. */
  ghost function States(table: Table, n: nat): set<Target> {
    if n == 0 then {} else States(table, n - 1) + Own(n - 1, Pinnings(table, n - 1))
  }

  ghost function Own(fn: nat, envs: set<Env>): set<Target> {
    set env | env in envs :: Target(fn, env)
  }

  lemma {:induction false} OwnSize(fn: nat, envs: set<Env>)
    ensures |Own(fn, envs)| == |envs|
  {
    if envs != {} {
      var env :| env in envs;
      OwnSize(fn, envs - {env});
      assert Own(fn, envs) == Own(fn, envs - {env}) + {Target(fn, env)};
    }
  }

  lemma {:induction false} StatesHave(table: Table, n: nat, t: Target)
    requires t.fn < n && t.env in Pinnings(table, t.fn)
    ensures t in States(table, n)
  {
    if t.fn < n - 1 {
      StatesHave(table, n - 1, t);
    }
  }

  lemma UnionSize<T>(a: set<T>, b: set<T>)
    ensures |a + b| <= |a| + |b|
  {
    assert a + b == a + (b - a);
    assert b == (b - a) + (b * a);
  }

  lemma {:induction false} StatesSize(table: Table, n: nat)
    requires Capped(table)
    ensures |States(table, n)| <= 513 * n
  {
    if n > 0 {
      StatesSize(table, n - 1);
      OwnSize(n - 1, Pinnings(table, n - 1));
      CapSize(table, n - 1);
      UnionSize(States(table, n - 1), Own(n - 1, Pinnings(table, n - 1)));
    }
  }

  lemma CapSize(table: Table, fn: nat)
    requires Capped(table)
    ensures |Pinnings(table, fn)| <= 513
  {
  }

  ghost predicate Registered(states: set<Target>, table: Table, functions: nat) {
    forall t <- states :: t.fn < functions && t.env in Pinnings(table, t.fn)
  }

  lemma StillRegistered(seen: set<Target>, more: set<Target>, callees: seq<Target>, was: Table, table: Table,
                        functions: nat)
    requires Registered(seen, was, functions) && Grown(was, table)
    requires forall c <- callees :: c.fn < functions && c.env in Pinnings(table, c.fn)
    requires forall t <- more :: t in seen || t in callees
    ensures Registered(more, table, functions)
  {
    forall t | t in more
      ensures t.fn < functions && t.env in Pinnings(table, t.fn)
    {
      assert Pinnings(was, t.fn) <= Pinnings(table, t.fn);
    }
  }

  /** No search finishes more states than the cap allows. */
  lemma SearchSize(done: seq<Target>, queue: seq<Target>, seen: set<Target>, table: Table, functions: nat)
    requires Once(done + queue) && (forall t <- done + queue :: t in seen) && Registered(seen, table, functions)
             && Capped(table)
    ensures |done| <= 513 * functions
  {
    var all := done + queue;
    assert forall i :: 0 <= i < |done| ==> all[i] == done[i] && all[i] in all;
    forall t | t in done
      ensures t in States(table, functions)
    {
      StatesHave(table, functions, t);
    }
    OnceSize(done, States(table, functions));
    StatesSize(table, functions);
  }

  // ----- The call graph the audit follows

  /** A summary whose callees are states. */
  datatype Resolved = Resolved(locks: set<nat>, callees: seq<Target>)

  /** Each callee keeps its pins, or has fallen back to none because its function was full. */
  ghost predicate Resolves(raw: seq<Target>, states: seq<Target>, table: Table) {
    |states| == |raw| && forall i :: 0 <= i < |raw| ==> StandsFor(states[i], raw[i], table)
  }

  lemma ResolvesOn(raw: seq<Target>, states: seq<Target>, was: Table, table: Table)
    requires Resolves(raw, states, was) && Grown(was, table)
    ensures Resolves(raw, states, table)
  {
    forall i | 0 <= i < |raw|
      ensures StandsFor(states[i], raw[i], table)
    {
      StandsOn(states[i], raw[i], was, table);
    }
  }

  /** Every state is registered. */
  ghost predicate Placed(states: seq<Target>, table: Table, functions: nat) {
    forall c <- states :: c.fn < functions && c.env in Pinnings(table, c.fn)
  }

  lemma OneMoreState(raw: seq<Target>, i: nat, states: seq<Target>, state: Target, was: Table, table: Table,
                     functions: nat)
    requires i < |raw| && Resolves(raw[..i], states, was) && Placed(states, was, functions) && Grown(was, table)
    requires StandsFor(state, raw[i], table) && state.fn < functions && state.env in Pinnings(table, state.fn)
    ensures Resolves(raw[..i + 1], states + [state], table) && Placed(states + [state], table, functions)
  {
    ResolvesOn(raw[..i], states, was, table);
    assert raw[..i + 1] == raw[..i] + [raw[i]];
    forall c | c in states
      ensures c.env in Pinnings(table, c.fn)
    {
      assert Pinnings(was, c.fn) <= Pinnings(table, c.fn);
    }
  }

  type Summaries = map<Target, Resolved>

  /** Cached summaries say what the walk found, with every callee a registered state. */
  ghost predicate Faithful(walk: Walk, functions: nat, summaries: Summaries, table: Table) {
    forall t <- summaries ::
      && t.fn < functions
      && summaries[t].locks == walk(t).locks
      && Resolves(walk(t).callees, summaries[t].callees, table)
      && Placed(summaries[t].callees, table, functions)
  }

  lemma FaithfulOn(walk: Walk, functions: nat, summaries: Summaries, was: Table, table: Table)
    requires Faithful(walk, functions, summaries, was) && Grown(was, table)
    ensures Faithful(walk, functions, summaries, table)
  {
    forall t | t in summaries
      ensures Resolves(walk(t).callees, summaries[t].callees, table)
      ensures forall c <- summaries[t].callees :: c.env in Pinnings(table, c.fn)
    {
      ResolvesOn(walk(t).callees, summaries[t].callees, was, table);
      assert forall fn: nat :: Pinnings(was, fn) <= Pinnings(table, fn);
    }
  }

  /** The walk names functions that exist. */
  ghost predicate Total(walk: Walk, functions: nat) {
    forall t: Target :: t.fn < functions ==> forall c <- walk(t).callees :: c.fn < functions
  }

  ghost predicate Step(summaries: Summaries, barriers: set<nat>, a: Target, b: Target) {
    a in summaries && b in summaries[a].callees && b.fn !in barriers
  }

  /** A call path: consecutive states call each other and none after the first is a barrier. */
  ghost predicate CallPath(summaries: Summaries, barriers: set<nat>, path: seq<Target>) {
    forall i :: 0 <= i < |path| - 1 ==> Step(summaries, barriers, path[i], path[i + 1])
  }

  // ----- The search

  ghost predicate Once<T>(s: seq<T>) {
    forall i, j :: 0 <= i < j < |s| ==> s[i] != s[j]
  }

  lemma {:induction false} OnceSize<T>(s: seq<T>, all: set<T>)
    requires Once(s) && forall x <- s :: x in all
    ensures |s| <= |all|
  {
    if s != [] {
      var last, init := s[|s| - 1], s[..|s| - 1];
      assert s == init + [last];
      assert last !in init;
      OnceSize(init, all - {last});
    }
  }

  /** The state of the search: what is finished, what waits, what has been seen, and who called whom. */
  datatype Search = Search(done: seq<Target>, queue: seq<Target>, seen: set<Target>, parents: map<Target, Target>)

  /** Finished and waiting states are distinct and seen; whoever is seen beyond them is a barrier. */
  ghost predicate OrderedStates(states: seq<Target>, seen: set<Target>, start: Target, barriers: set<nat>) {
    && Once(states)
    && (forall t <- states :: t in seen)
    && (forall t <- seen :: t in states || t.fn in barriers)
    && start in states
  }

  ghost predicate Ordered(s: Search, start: Target, barriers: set<nat>) {
    OrderedStates(s.done + s.queue, s.seen, start, barriers)
  }

  /** Every state but the first has a caller that comes before it. */
  ghost predicate Earlier(states: seq<Target>, start: Target, parents: map<Target, Target>) {
    forall j :: 0 <= j < |states| && states[j] != start ==> states[j] in parents && parents[states[j]] in states[..j]
  }

  /** Every state but the first was called by a finished one. */
  ghost predicate Called(s: Search, start: Target, summaries: Summaries, barriers: set<nat>) {
    && Earlier(s.done + s.queue, start, s.parents)
    && (forall t <- s.parents :: s.parents[t] in s.done && Step(summaries, barriers, s.parents[t], t))
  }

  ghost predicate Entered(s: Search, t: Target, summaries: Summaries) {
    t in summaries && forall c <- summaries[t].callees :: c in s.seen
  }

  ghost predicate Searching(s: Search, start: Target, summaries: Summaries, barriers: set<nat>) {
    Ordered(s, start, barriers) && Called(s, start, summaries, barriers)
      && forall t <- s.done :: Entered(s, t, summaries)
  }

  function Finish(s: Search): Search
    requires s.queue != []
  {
    s.(done := s.done + [s.queue[0]], queue := s.queue[1..])
  }

  function Add(s: Search, state: Target, callee: Target, barriers: set<nat>): Search {
    if callee in s.seen then s
    else
      var t := s.(seen := s.seen + {callee});
      if callee.fn in barriers then t else t.(queue := t.queue + [callee], parents := t.parents[callee := state])
  }

  lemma FinishKeeps(s: Search, start: Target, summaries: Summaries, barriers: set<nat>)
    requires s.queue != [] && Ordered(s, start, barriers) && Called(s, start, summaries, barriers)
    ensures Ordered(Finish(s), start, barriers) && Called(Finish(s), start, summaries, barriers)
  {
    FinishStates(s);
    forall t | t in s.parents
      ensures s.parents[t] in Finish(s).done
    {
      assert s.parents[t] in s.done;
    }
  }

  lemma FinishStates(s: Search)
    requires s.queue != []
    ensures Finish(s).done + Finish(s).queue == s.done + s.queue
  {
    assert s.queue == [s.queue[0]] + s.queue[1..];
  }

  lemma EarlierAdd(states: seq<Target>, start: Target, parents: map<Target, Target>, state: Target, callee: Target)
    requires Earlier(states, start, parents) && state in states && callee !in states
    ensures Earlier(states + [callee], start, parents[callee := state])
  {
    var all, more := states + [callee], parents[callee := state];
    forall j | 0 <= j < |all| && all[j] != start
      ensures all[j] in more && more[all[j]] in all[..j]
    {
      if j == |states| {
        assert all[..j] == states;
      } else {
        assert all[..j] == states[..j] && all[j] == states[j];
      }
    }
  }

  lemma AddKeeps(s: Search, start: Target, state: Target, callee: Target, summaries: Summaries, barriers: set<nat>)
    requires Ordered(s, start, barriers) && Called(s, start, summaries, barriers)
    requires state in s.done && state in summaries && callee in summaries[state].callees
    ensures var t := Add(s, state, callee, barriers);
            Ordered(t, start, barriers) && Called(t, start, summaries, barriers) && t.done == s.done
              && t.seen == s.seen + {callee}
  {
    if callee !in s.seen && callee.fn !in barriers {
      var t := Add(s, state, callee, barriers);
      assert t.done + t.queue == (s.done + s.queue) + [callee];
      assert callee !in s.done + s.queue;
      EarlierAdd(s.done + s.queue, start, s.parents, state, callee);
    }
  }

  /** Finishes the first waiting state and queues the callees not seen before. */
  method Advance(s: Search, start: Target, sum: Resolved, ghost summaries: Summaries, barriers: set<nat>)
    returns (next: Search)
    requires Searching(s, start, summaries, barriers) && s.queue != []
    requires s.queue[0] in summaries && summaries[s.queue[0]] == sum
    ensures Searching(next, start, summaries, barriers)
    ensures next.done == s.done + [s.queue[0]]
    ensures forall t <- next.seen :: t in s.seen || t in sum.callees
  {
    var state := s.queue[0];
    next := Finish(s);
    FinishKeeps(s, start, summaries, barriers);
    for k := 0 to |sum.callees|
      invariant Ordered(next, start, barriers) && Called(next, start, summaries, barriers)
      invariant next.done == s.done + [state]
      invariant s.seen <= next.seen && forall j :: 0 <= j < k ==> sum.callees[j] in next.seen
      invariant forall t <- next.seen :: t in s.seen || t in sum.callees
    {
      AddKeeps(next, start, state, sum.callees[k], summaries, barriers);
      next := Add(next, state, sum.callees[k], barriers);
    }
    forall t | t in next.done
      ensures Entered(next, t, summaries)
    {
      if t != state {
        assert Entered(s, t, summaries);
      }
    }
  }

  ghost predicate Extends(was: Summaries, summaries: Summaries) {
    forall t <- was :: t in summaries && summaries[t] == was[t]
  }

  lemma SearchingOn(s: Search, start: Target, was: Summaries, summaries: Summaries, barriers: set<nat>)
    requires Searching(s, start, was, barriers) && Extends(was, summaries)
    ensures Searching(s, start, summaries, barriers)
  {
    forall t | t in s.done
      ensures Entered(s, t, summaries)
    {
      assert Entered(s, t, was);
    }
    forall t | t in s.parents
      ensures Step(summaries, barriers, s.parents[t], t)
    {
      assert Step(was, barriers, s.parents[t], t);
    }
  }

  /** What the search reports: every state reachable without crossing a barrier, each once. */
  ghost predicate Report(done: seq<Target>, start: Target, summaries: Summaries, barriers: set<nat>) {
    && Once(done) && start in done
    && (forall t <- done :: t in summaries && forall c <- summaries[t].callees :: c in done || c.fn in barriers)
  }

  lemma ReportFound(s: Search, start: Target, summaries: Summaries, barriers: set<nat>)
    requires Searching(s, start, summaries, barriers) && s.queue == []
    ensures Report(s.done, start, summaries, barriers) && Earlier(s.done, start, s.parents)
    ensures forall t <- s.done :: t in s.seen
  {
    assert s.done + s.queue == s.done;
  }

  /** Every state that a call path leads to is reported; `Chain` gives the converse. */
  lemma {:induction false} PathReported(done: seq<Target>, start: Target, summaries: Summaries, barriers: set<nat>,
                                        path: seq<Target>)
    requires Report(done, start, summaries, barriers)
    requires path != [] && path[0] == start && CallPath(summaries, barriers, path)
    ensures path[|path| - 1] in done
    decreases |path|
  {
    if |path| > 1 {
      var init := path[..|path| - 1];
      PathReported(done, start, summaries, barriers, init);
      assert Step(summaries, barriers, path[|path| - 2], path[|path| - 1]);
    }
  }

  ghost function LocksOf(done: seq<Target>, summaries: Summaries): (r: set<nat>)
    requires forall t <- done :: t in summaries
    ensures forall t <- done :: summaries[t].locks <= r
    ensures forall k <- r :: exists t :: t in done && k in summaries[t].locks
  {
    if done == [] then {}
    else
      assert forall t <- done :: t == done[0] || t in done[1..];
      summaries[done[0]].locks + LocksOf(done[1..], summaries)
  }

  lemma {:induction false} LocksAppend(done: seq<Target>, t: Target, summaries: Summaries)
    requires forall u <- done + [t] :: u in summaries
    requires forall u <- done :: u in summaries
    ensures LocksOf(done + [t], summaries) == LocksOf(done, summaries) + summaries[t].locks
  {
    if done == [] {
      assert [] + [t] == [t];
    } else {
      assert (done + [t])[1..] == done[1..] + [t];
      LocksAppend(done[1..], t, summaries);
    }
  }

  /** Collects the locks of the reported states. */
  method Collect(done: seq<Target>, summaries: Summaries) returns (locks: set<nat>)
    requires forall t <- done :: t in summaries
    ensures locks == LocksOf(done, summaries)
  {
    locks := {};
    for i := 0 to |done|
      invariant locks == LocksOf(done[..i], summaries)
    {
      assert done[..i + 1] == done[..i] + [done[i]];
      LocksAppend(done[..i], done[i], summaries);
      locks := locks + summaries[done[i]].locks;
    }
    assert done[..|done|] == done;
  }

  /** The recorded chain from the handler to a reported state is a call path. */
  method Chain(done: seq<Target>, parents: map<Target, Target>, start: Target, current: Target,
               ghost summaries: Summaries, ghost barriers: set<nat>)
    returns (chain: seq<Target>)
    requires Earlier(done, start, parents) && current in done
    requires forall t <- parents :: Step(summaries, barriers, parents[t], t)
    ensures chain != [] && chain[0] == start && chain[|chain| - 1] == current
    ensures CallPath(summaries, barriers, chain)
  {
    var cursor := current;
    chain := [current];
    ghost var at :| 0 <= at < |done| && done[at] == current;
    while cursor != start
      invariant 0 <= at < |done| && done[at] == cursor
      invariant chain != [] && chain[0] == cursor && chain[|chain| - 1] == current
      invariant CallPath(summaries, barriers, chain)
      decreases at
    {
      ghost var caller :| 0 <= caller < at && done[caller] == parents[cursor];
      cursor, at := parents[cursor], caller;
      chain := [cursor] + chain;
    }
  }

  class Audit {
    const walk: Walk
    const functions: nat
    var specializations: Table
    var summaries: Summaries

    constructor (walk: Walk, functions: nat)
      requires Total(walk, functions)
      ensures Valid() && this.walk == walk && this.functions == functions
    {
      this.walk, this.functions := walk, functions;
      specializations, summaries := map[], map[];
    }

    ghost predicate Valid()
      reads this
    {
      Total(walk, functions) && Capped(specializations) && Faithful(walk, functions, summaries, specializations)
    }

    /** Registers a specialization, or falls back to the unpinned one when the function has too many. */
    method StateOf(t: Target) returns (s: Target)
      requires Valid()
      modifies this`specializations
      ensures Valid() && Grown(old(specializations), specializations)
      ensures var seen := Pinnings(old(specializations), t.fn);
              && s == (if t.env in seen || |seen| < MAX_SPECIALIZATIONS then t else Target(t.fn, EMPTY))
              && specializations == old(specializations)[t.fn := seen + {s.env}]
      ensures StandsFor(s, t, specializations) && s.env in Pinnings(specializations, s.fn)
    {
      var seen := Pinnings(specializations, t.fn);
      s := t;
      if t.env !in seen && |seen| >= MAX_SPECIALIZATIONS {
        s := Target(t.fn, EMPTY);
      }
      ghost var was := specializations;
      specializations := specializations[t.fn := seen + {s.env}];
      assert forall fn: nat :: fn != t.fn ==> Pinnings(specializations, fn) == Pinnings(was, fn);
      assert s.env in seen ==> seen + {s.env} == seen;
      FaithfulOn(walk, functions, summaries, was, specializations);
      if s != t {
        assert seen - {t.env} == seen;
        SubsetSize(seen - {t.env}, Pinnings(specializations, t.fn) - {t.env});
      }
    }

    /** A state for each callee. */
    method StatesOf(raw: seq<Target>) returns (states: seq<Target>)
      requires Valid() && forall t <- raw :: t.fn < functions
      modifies this`specializations
      ensures Valid() && Grown(old(specializations), specializations)
      ensures Resolves(raw, states, specializations) && Placed(states, specializations, functions)
    {
      states := [];
      for i := 0 to |raw|
        invariant Valid() && Grown(old(specializations), specializations)
        invariant Resolves(raw[..i], states, specializations) && Placed(states, specializations, functions)
      {
        ghost var was := specializations;
        assert raw[i] in raw;
        var state := StateOf(raw[i]);
        OneMoreState(raw, i, states, state, was, specializations, functions);
        states := states + [state];
      }
      assert raw[..|raw|] == raw;
    }

    /** The summary of a state, computed once. */
    method SummaryOf(t: Target) returns (r: Resolved)
      requires Valid() && t.fn < functions
      modifies this
      ensures Valid() && Grown(old(specializations), specializations)
      ensures t in summaries && summaries[t] == r
      ensures Extends(old(summaries), summaries)
    {
      if t in summaries {
        return summaries[t];
      }
      var sum := walk(t);
      var callees := StatesOf(sum.callees);
      r := Resolved(sum.locks, callees);
      summaries := summaries[t := r];
    }

    /** Breadth-first from one state; barriers are seen but not entered. */
    method Reach(start: Target, barriers: set<nat>) returns (done: seq<Target>, parents: map<Target, Target>)
      requires Valid() && start.fn < functions && start.env in Pinnings(specializations, start.fn)
      modifies this
      ensures Valid() && |done| <= 513 * functions && Grown(old(specializations), specializations)
      ensures Report(done, start, summaries, barriers)
      ensures Earlier(done, start, parents)
      ensures forall t <- parents :: Step(summaries, barriers, parents[t], t)
      ensures forall t <- done :: t.fn < functions
    {
      var s := Search([], [start], {start}, map[]);
      assert s.done + s.queue == [start];
      while s.queue != []
        invariant Valid() && Searching(s, start, summaries, barriers)
        invariant Grown(old(specializations), specializations)
        invariant Registered(s.seen, specializations, functions)
        invariant |s.done| <= 513 * functions
        decreases 513 * functions - |s.done|
      {
        ghost var was, table := summaries, specializations;
        assert s.queue[0] in s.done + s.queue;
        var sum := SummaryOf(s.queue[0]);
        SearchingOn(s, start, was, summaries, barriers);
        var next := Advance(s, start, sum, summaries, barriers);
        StillRegistered(s.seen, next.seen, sum.callees, table, specializations, functions);
        SearchSize(next.done, next.queue, next.seen, specializations, functions);
        s := next;
      }
      done, parents := s.done, s.parents;
      ReportFound(s, start, summaries, barriers);
    }

    /** The locks of every state one route reaches, whatever earlier routes left in the caches. */
    method RouteLocks(entry: Target, barriers: set<nat>)
      returns (locks: set<nat>, start: Target, done: seq<Target>, parents: map<Target, Target>)
      requires Valid() && entry.fn < functions
      modifies this
      ensures Grown(old(specializations), specializations)
      ensures Valid() && StandsFor(start, entry, specializations)
      ensures Report(done, start, summaries, barriers) && |done| <= 513 * functions
      ensures Earlier(done, start, parents) && forall t <- parents :: Step(summaries, barriers, parents[t], t)
      ensures forall t <- done :: t.fn < functions
      ensures locks == LocksOf(done, summaries)
    {
      start := StateOf(entry);
      ghost var was := specializations;
      done, parents := Reach(start, barriers);
      StandsOn(start, entry, was, specializations);
      locks := Collect(done, summaries);
    }
  }
}
