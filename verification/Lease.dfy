/**
 * The authority lease of the terminal host. Checks with the server are in flight while
 * calls come in, owners are removed and the clock moves; an observation is an object with
 * an identity of its own, so that a late reply can tell that it was replaced.
 */
module Lease {
  import opened Options

  datatype Verdict = Current | Revoked | Unknown

  /** `lastCurrentAt` is 0 until the server first said `current`. */
  datatype Observation = Observation(checkedAt: int, lastCurrentAt: int, result: Verdict, pending: Option<nat>)

  /** A question to the server about one target, asked for one observation. */
  datatype Check = Check(key: nat, observation: nat, stage: Stage)

  /** A reply is taken over in one turn, and the check is cleared away in a later one. */
  datatype Stage = Asked | Replied | Settled

  datatype Outcome = HostClosed | LimitReached | AuthorizationRevoked | AuthorizationUnknown | Granted

  datatype Call =
    | Waiting(key: nat, observation: nat, check: Option<nat>)
    | Finished(outcome: Outcome)

  datatype State = State(
    now: int,
    disposed: bool,
    owners: set<nat>,
    table: map<nat, nat>,        // from an owner key to its observation
    heap: seq<Observation>,      // every observation ever made
    checks: seq<Check>,
    calls: seq<Call>)

  datatype Event =
    | Tick(now: int)
    | Own(key: nat)
    | Remove(key: nat)
    | Dispose
    | Enter(key: nat, refresh: bool)
    | Resume(call: nat)
    | Answer(check: nat, verdict: Verdict)
    | Settle(check: nat)

  const LEASE: int := 5_000
  const REFRESH: int := 500
  const MAX_ENTRIES: nat := 128

  const INITIAL: State := State(0, false, {}, map[], [], [], [])

  /** The observation that has the lease at this moment. */
  predicate Leased(o: Observation, now: int) {
    o.result != Revoked && o.lastCurrentAt != 0 && now - o.lastCurrentAt < LEASE
  }

  predicate Holds(s: State, key: nat, observation: nat) {
    key in s.table && s.table[key] == observation
  }

  /** The last look of a call, with nothing between it and the answer. */
  function Decide(s: State, key: nat, observation: nat): Outcome
    requires observation < |s.heap|
  {
    var o := s.heap[observation];
    if s.disposed then HostClosed
    else if o.result == Revoked then AuthorizationRevoked
    else if !Holds(s, key, observation) || o.lastCurrentAt == 0 || s.now - o.lastCurrentAt >= LEASE
    then AuthorizationUnknown
    else Granted
  }

  /** Entries without an owner and without a check in flight may go. */
  function Prune(s: State): map<nat, nat> {
    map key | key in s.table
      && (key in s.owners || s.table[key] >= |s.heap| || s.heap[s.table[key]].pending.Some?) :: s.table[key]
  }

  /** Finds or makes the observation of a key; `None` when the table is full. */
  function Lookup(s: State, key: nat): (State, Option<nat>) {
    if key in s.table then (s, Some(s.table[key]))
    else
      var kept := if |s.table| >= MAX_ENTRIES then s.(table := Prune(s)) else s;
      if |kept.table| >= MAX_ENTRIES then (kept, None)
      else (kept.(table := kept.table[key := |s.heap|], heap := s.heap + [Observation(0, 0, Unknown, None)]),
        Some(|s.heap|))
  }

  function StartCheck(s: State, key: nat, observation: nat, refresh: bool): State
    requires observation < |s.heap|
  {
    var o := s.heap[observation];
    if o.pending.None? && (refresh || s.now - o.checkedAt >= REFRESH) then
      s.(checks := s.checks + [Check(key, observation, Asked)],
         heap := s.heap[observation := o.(pending := Some(|s.checks|))])
    else s
  }

  function OnEnter(s: State, key: nat, refresh: bool): (State, Call) {
    if s.disposed then (s, Finished(HostClosed))
    else
      var (found, at) := Lookup(s, key);
      if at.None? || at.value >= |found.heap| then (found, Finished(LimitReached))
      else if found.heap[at.value].result == Revoked then (found, Finished(AuthorizationRevoked))
      else
        var next := StartCheck(found, key, at.value, refresh);
        var o := next.heap[at.value];
        if refresh || o.lastCurrentAt == 0 || s.now - o.lastCurrentAt >= LEASE
        then (next, Waiting(key, at.value, o.pending))
        else (next, Finished(Decide(next, key, at.value)))
  }

  function OnResume(s: State, call: nat): State {
    if call >= |s.calls| || !s.calls[call].Waiting? then s
    else
      var Waiting(key, observation, check) := s.calls[call];
      if observation >= |s.heap|
        || (check.Some? && (check.value >= |s.checks| || !s.checks[check.value].stage.Settled?)) then s
      else s.(calls := s.calls[call := Finished(Decide(s, key, observation))])
  }

  /** A reply counts only for the observation still in the table of a host that is not disposed. */
  predicate Counts(s: State, check: nat) {
    && check < |s.checks| && s.checks[check].stage.Asked? && !s.disposed
    && Holds(s, s.checks[check].key, s.checks[check].observation)
  }

  function Recorded(o: Observation, verdict: Verdict, now: int): Observation {
    o.(result := verdict, checkedAt := now, lastCurrentAt := if verdict == Current then now else o.lastCurrentAt)
  }

  function OnAnswer(s: State, check: nat, verdict: Verdict): State {
    if check >= |s.checks| || !s.checks[check].stage.Asked? || s.checks[check].observation >= |s.heap| then s
    else
      var observation := s.checks[check].observation;
      var o := if Counts(s, check) then Recorded(s.heap[observation], verdict, s.now) else s.heap[observation];
      s.(checks := s.checks[check := s.checks[check].(stage := Replied)], heap := s.heap[observation := o])
  }

  function OnSettle(s: State, check: nat): State {
    if check >= |s.checks| || !s.checks[check].stage.Replied? || s.checks[check].observation >= |s.heap| then s
    else
      var observation := s.checks[check].observation;
      var o := s.heap[observation];
      s.(checks := s.checks[check := s.checks[check].(stage := Settled)],
         heap := s.heap[observation := if o.pending == Some(check) then o.(pending := None) else o])
  }

  function After(s: State, event: Event): State {
    match event
    case Tick(now) => s.(now := now)
    case Own(key) => s.(owners := s.owners + {key})
    case Remove(key) => if key in s.owners then s.(owners := s.owners - {key}, table := s.table - {key}) else s
    case Dispose => s.(disposed := true)
    case Enter(key, refresh) => var (next, call) := OnEnter(s, key, refresh); next.(calls := next.calls + [call])
    case Resume(call) => OnResume(s, call)
    case Answer(check, verdict) => OnAnswer(s, check, verdict)
    case Settle(check) => OnSettle(s, check)
  }

  function Run(events: seq<Event>): State {
    if events == [] then INITIAL else After(Run(events[..|events| - 1]), events[|events| - 1])
  }

  /** What a step says to the world: a verdict taken over, or a call let through. */
  datatype Note = Took(observation: nat, verdict: Verdict, at: int) | LetThrough(key: nat, observation: nat)

  function NoteOf(s: State, event: Event): Option<Note> {
    match event
    case Answer(check, verdict) =>
      if Counts(s, check) && s.checks[check].observation < |s.heap|
        then Some(Took(s.checks[check].observation, verdict, s.now)) else None
    case Enter(key, refresh) =>
      var (next, call) := OnEnter(s, key, refresh);
      if call == Finished(Granted) && key in next.table then Some(LetThrough(key, next.table[key])) else None
    case Resume(call) =>
      if call < |s.calls| && s.calls[call].Waiting? && OnResume(s, call).calls[call] == Finished(Granted)
      then Some(LetThrough(s.calls[call].key, s.calls[call].observation)) else None
    case _ => None
  }

  function History(events: seq<Event>): seq<Note> {
    if events == [] then []
    else
      var init := events[..|events| - 1];
      var note := NoteOf(Run(init), events[|events| - 1]);
      if note.Some? then History(init) + [note.value] else History(init)
  }

  // ----- What every event keeps

  ghost predicate Referenced(s: State) {
    && |s.table| <= MAX_ENTRIES
    && (forall key <- s.table :: s.table[key] < |s.heap|)
    && (forall i :: 0 <= i < |s.checks| ==> s.checks[i].observation < |s.heap|)
    && (forall i :: 0 <= i < |s.calls| && s.calls[i].Waiting? ==> s.calls[i].observation < |s.heap|)
  }

  /** A check in flight is the one its observation waits for, so there is at most one. */
  ghost predicate OneCheck(s: State) {
    forall i: nat :: i < |s.checks| && !s.checks[i].stage.Settled? ==>
      s.checks[i].observation < |s.heap| && s.heap[s.checks[i].observation].pending == Some(i)
  }

  /** No question about a revoked observation is open. */
  ghost predicate RevokedQuiet(s: State) {
    forall i: nat :: i < |s.checks| && s.checks[i].stage.Asked? ==>
      s.checks[i].observation < |s.heap| && s.heap[s.checks[i].observation].result != Revoked
  }

  ghost predicate Sound(s: State) { Referenced(s) && OneCheck(s) && RevokedQuiet(s) }

  lemma PruneFits(s: State)
    requires Referenced(s)
    ensures Prune(s).Keys <= s.table.Keys && |Prune(s)| <= |s.table|
    ensures forall key <- Prune(s) :: Prune(s)[key] == s.table[key]
  {
    var kept := Prune(s);
    assert s.table.Keys == kept.Keys + (s.table.Keys - kept.Keys);
    assert |kept.Keys + (s.table.Keys - kept.Keys)| == |kept.Keys| + |s.table.Keys - kept.Keys|;
    assert |kept.Keys| == |kept| && |s.table.Keys| == |s.table|;
  }

  lemma TableAdds(table: map<nat, nat>, key: nat, observation: nat)
    requires key !in table && |table| < MAX_ENTRIES
    ensures |table[key := observation]| <= MAX_ENTRIES
  {
    assert table[key := observation].Keys == table.Keys + {key};
  }

  lemma LookupKeeps(s: State, key: nat)
    requires Sound(s)
    ensures var (next, at) := Lookup(s, key);
            && Sound(next) && next.calls == s.calls && next.now == s.now && next.disposed == s.disposed
            && s.heap <= next.heap
            && (at.Some? ==> at.value < |next.heap| && Holds(next, key, at.value))
            && (at.Some? && key !in s.table ==> at.value == |s.heap|)
            && (forall k <- next.table :: k != key ==> k in s.table && next.table[k] == s.table[k])
  {
    if key !in s.table {
      PruneFits(s);
      var kept := if |s.table| >= MAX_ENTRIES then Prune(s) else s.table;
      if |kept| < MAX_ENTRIES {
        TableAdds(kept, key, |s.heap|);
      }
    }
  }

  lemma StartKeeps(s: State, key: nat, observation: nat, refresh: bool)
    requires Sound(s) && observation < |s.heap| && s.heap[observation].result != Revoked
    ensures var next := StartCheck(s, key, observation, refresh);
            && Sound(next) && |next.heap| == |s.heap| && next.table == s.table && next.calls == s.calls
            && next.now == s.now && next.disposed == s.disposed
            && forall i :: 0 <= i < |s.heap| ==>
                 next.heap[i].lastCurrentAt == s.heap[i].lastCurrentAt && next.heap[i].result == s.heap[i].result
  {
  }

  lemma CallAdds(s: State, call: Call)
    requires Sound(s) && (call.Waiting? ==> call.observation < |s.heap|)
    ensures Sound(s.(calls := s.calls + [call]))
  {
    var next := s.(calls := s.calls + [call]);
    assert Referenced(next) && OneCheck(next) && RevokedQuiet(next);
  }

  /** Entering with the observation found or made. */
  lemma FoundKeeps(s: State, key: nat, refresh: bool)
    requires Sound(s) && !s.disposed && Lookup(s, key).1.Some?
    ensures var (next, call) := OnEnter(s, key, refresh);
            Sound(next) && (call.Waiting? ==> call.observation < |next.heap|)
  {
    LookupKeeps(s, key);
    var (found, at) := Lookup(s, key);
    if found.heap[at.value].result != Revoked {
      StartKeeps(found, key, at.value, refresh);
    }
  }

  lemma EnterKeeps(s: State, key: nat, refresh: bool)
    requires Sound(s)
    ensures Sound(After(s, Enter(key, refresh)))
  {
    var (next, call) := OnEnter(s, key, refresh);
    if !s.disposed {
      if Lookup(s, key).1.Some? {
        FoundKeeps(s, key, refresh);
      } else {
        LookupKeeps(s, key);
      }
    }
    CallAdds(next, call);
  }

  lemma AnswerKeeps(s: State, check: nat, verdict: Verdict)
    requires Sound(s)
    ensures Sound(OnAnswer(s, check, verdict))
  {
    if check < |s.checks| && s.checks[check].stage.Asked? {
      var next := OnAnswer(s, check, verdict);
      assert s.heap[s.checks[check].observation].pending == Some(check);
      assert OneCheck(next);
    }
  }

  lemma SettleKeeps(s: State, check: nat)
    requires Sound(s)
    ensures Sound(OnSettle(s, check))
  {
    if check < |s.checks| && s.checks[check].stage.Replied? {
      var next := OnSettle(s, check);
      assert s.heap[s.checks[check].observation].pending == Some(check);
      assert OneCheck(next);
    }
  }

  lemma RemoveKeeps(s: State, key: nat)
    requires Sound(s)
    ensures Sound(After(s, Remove(key)))
  {
    var left := s.table - {key};
    assert s.table.Keys == left.Keys + (s.table.Keys - left.Keys);
    assert |left.Keys + (s.table.Keys - left.Keys)| == |left.Keys| + |s.table.Keys - left.Keys|;
    assert |left.Keys| == |left| && |s.table.Keys| == |s.table|;
  }

  lemma AfterKeeps(s: State, event: Event)
    requires Sound(s)
    ensures Sound(After(s, event))
  {
    match event
    case Tick(now) =>
    case Own(key) =>
    case Remove(key) => RemoveKeeps(s, key);
    case Dispose =>
    case Enter(key, refresh) => EnterKeeps(s, key, refresh);
    case Resume(call) =>
    case Answer(check, verdict) => AnswerKeeps(s, check, verdict);
    case Settle(check) => SettleKeeps(s, check);
  }

  lemma {:induction false} SoundAlways(events: seq<Event>)
    ensures Sound(Run(events))
  {
    if events != [] {
      SoundAlways(events[..|events| - 1]);
      AfterKeeps(Run(events[..|events| - 1]), events[|events| - 1]);
    }
  }

  // ----- Only a verdict that counts changes a lease

  /** The verdict a step takes over for one observation. */
  function TookFor(s: State, event: Event, observation: nat): Option<Verdict> {
    var note := NoteOf(s, event);
    if note.Some? && note.value.Took? && note.value.observation == observation then Some(note.value.verdict) else None
  }

  ghost predicate SameLease(was: Observation, now: Observation) {
    now.result == was.result && now.lastCurrentAt == was.lastCurrentAt
  }

  lemma EnterLeases(s: State, key: nat, refresh: bool, observation: nat)
    requires Sound(s) && observation < |s.heap|
    ensures var post := After(s, Enter(key, refresh));
            observation < |post.heap| && SameLease(s.heap[observation], post.heap[observation])
  {
    if !s.disposed {
      LookupKeeps(s, key);
      var (found, at) := Lookup(s, key);
      if at.Some? && found.heap[at.value].result != Revoked {
        StartKeeps(found, key, at.value, refresh);
      }
    }
  }

  /** An observation changes by the verdict taken over for it and by nothing else, and a revoked one takes none. */
  lemma StepLeases(s: State, event: Event, observation: nat)
    requires Sound(s) && observation < |s.heap|
    ensures var was, post, verdict := s.heap[observation], After(s, event), TookFor(s, event, observation);
            && observation < |post.heap|
            && (verdict.None? ==> SameLease(was, post.heap[observation]))
            && (verdict.Some? ==>
                  was.result != Revoked && SameLease(Recorded(was, verdict.value, s.now), post.heap[observation]))
  {
    match event
    case Enter(key, refresh) => EnterLeases(s, key, refresh, observation);
    case Answer(check, verdict) =>
      if check < |s.checks| && s.checks[check].stage.Asked? {
        assert s.heap[s.checks[check].observation].pending == Some(check);
      }
    case _ =>
  }

  lemma EnterHeap(s: State, key: nat, refresh: bool)
    requires Sound(s)
    ensures var post := After(s, Enter(key, refresh));
            && (|post.heap| == |s.heap|
                  || (|post.heap| == |s.heap| + 1 && SameLease(post.heap[|s.heap|], Observation(0, 0, Unknown, None))))
            && (forall k <- post.table :: post.table[k] >= |s.heap| || (k in s.table && post.table[k] == s.table[k]))
  {
    if !s.disposed {
      LookupKeeps(s, key);
      var (found, at) := Lookup(s, key);
      if at.Some? && found.heap[at.value].result != Revoked {
        StartKeeps(found, key, at.value, refresh);
      }
    }
  }

  // ----- Whole runs

  /** The clock at the last `current` taken over for an observation, 0 if there was none. */
  function LastCurrent(history: seq<Note>, observation: nat): int {
    if history == [] then 0
    else
      var note := history[|history| - 1];
      if note.Took? && note.observation == observation && note.verdict == Current then note.at
      else LastCurrent(history[..|history| - 1], observation)
  }

  ghost predicate EverRevoked(history: seq<Note>, observation: nat) {
    exists i :: 0 <= i < |history| && history[i].Took? && history[i].observation == observation
      && history[i].verdict == Revoked
  }

  lemma HistoryAppend(history: seq<Note>, note: Note, observation: nat)
    ensures LastCurrent(history + [note], observation) ==
            if note.Took? && note.observation == observation && note.verdict == Current then note.at
            else LastCurrent(history, observation)
    ensures EverRevoked(history + [note], observation) <==>
            EverRevoked(history, observation)
              || (note.Took? && note.observation == observation && note.verdict == Revoked)
  {
    assert (history + [note])[..|history|] == history;
    if EverRevoked(history, observation) {
      var i :| 0 <= i < |history| && history[i].Took? && history[i].observation == observation
        && history[i].verdict == Revoked;
      assert (history + [note])[i] == history[i];
    }
    assert (history + [note])[|history|] == note;
  }

  lemma NoteIsOld(s: State, event: Event)
    requires Sound(s)
    ensures NoteOf(s, event).Some? && NoteOf(s, event).value.Took? ==> NoteOf(s, event).value.observation < |s.heap|
    ensures |s.heap| <= |After(s, event).heap| <= |s.heap| + 1
    ensures |After(s, event).heap| > |s.heap| ==> event.Enter?
  {
    if event.Enter? {
      EnterHeap(s, event.key, event.refresh);
    }
  }

  /** The lease of an observation is what the last `current` made it; no other reply, and no late one, moves it. */
  lemma {:induction false} LeaseIsLastCurrent(events: seq<Event>, observation: nat)
    ensures var s, history := Run(events), History(events);
            if observation < |s.heap| then
              && s.heap[observation].lastCurrentAt == LastCurrent(history, observation)
              && (s.heap[observation].result == Revoked <==> EverRevoked(history, observation))
            else LastCurrent(history, observation) == 0 && !EverRevoked(history, observation)
  {
    if events != [] {
      var init, last := events[..|events| - 1], events[|events| - 1];
      var s := Run(init);
      LeaseIsLastCurrent(init, observation);
      SoundAlways(init);
      NoteIsOld(s, last);
      if NoteOf(s, last).Some? {
        HistoryAppend(History(init), NoteOf(s, last).value, observation);
      }
      if observation < |s.heap| {
        StepLeases(s, last, observation);
      } else if last.Enter? {
        EnterHeap(s, last.key, last.refresh);
      }
    }
  }

  /** What a step that lets a call through found. */
  lemma StepLetsThrough(s: State, event: Event, key: nat, observation: nat)
    requires Sound(s) && NoteOf(s, event) == Some(LetThrough(key, observation))
    ensures var post := After(s, event);
            && !post.disposed && Holds(post, key, observation) && post.now == s.now
            && observation < |s.heap| <= |post.heap|
            && SameLease(s.heap[observation], post.heap[observation]) && Leased(s.heap[observation], s.now)
  {
    if event.Enter? {
      LookupKeeps(s, key);
      var (found, at) := Lookup(s, key);
      StartKeeps(found, key, at.value, event.refresh);
      EnterLeases(s, key, event.refresh, observation);
    }
  }

  /** A call is let through only while the server's last `current` for the observation in the table is younger than five
      seconds, and only if the server never revoked it. */
  lemma LeaseHolds(before: seq<Event>, event: Event, key: nat, observation: nat)
    requires NoteOf(Run(before), event) == Some(LetThrough(key, observation))
    ensures var post, history := Run(before + [event]), History(before);
            && !post.disposed && Holds(post, key, observation)
            && LastCurrent(history, observation) != 0 && post.now - LastCurrent(history, observation) < LEASE
            && !EverRevoked(history, observation)
  {
    assert (before + [event])[..|before|] == before;
    SoundAlways(before);
    StepLetsThrough(Run(before), event, key, observation);
    LeaseIsLastCurrent(before, observation);
  }

  /** A call without refresh is answered at once exactly when the lease runs, with no round trip. */
  lemma LeaseIsEnough(events: seq<Event>, key: nat)
    ensures var s := Run(events);
            NoteOf(s, Enter(key, false)).Some? <==>
            !s.disposed && key in s.table && s.table[key] < |s.heap| && Leased(s.heap[s.table[key]], s.now)
  {
    var s := Run(events);
    SoundAlways(events);
    LookupKeeps(s, key);
    var (found, at) := Lookup(s, key);
    if !s.disposed && at.Some? && found.heap[at.value].result != Revoked {
      StartKeeps(found, key, at.value, false);
    }
  }

  // ----- A replaced observation stays out

  ghost predicate Out(s: State, observation: nat) {
    observation < |s.heap| && forall key <- s.table :: s.table[key] != observation
  }

  lemma StepStaysOut(s: State, event: Event, observation: nat)
    requires Sound(s) && Out(s, observation)
    ensures Out(After(s, event), observation)
  {
    StepLeases(s, event, observation);
    if event.Enter? {
      EnterHeap(s, event.key, event.refresh);
    }
  }

  lemma {:induction false} StaysOut(before: seq<Event>, later: seq<Event>, observation: nat)
    requires Out(Run(before), observation)
    ensures Out(Run(before + later), observation)
  {
    if later == [] {
      assert before + later == before;
    } else {
      var init, last := later[..|later| - 1], later[|later| - 1];
      StaysOut(before, init, observation);
      assert (before + later)[..|before + later| - 1] == before + init;
      SoundAlways(before + init);
      StepStaysOut(Run(before + init), last, observation);
    }
  }

  /** Once its owner was removed or its entry dropped, an observation lets no call through, whatever arrives late. */
  lemma NeverRevived(before: seq<Event>, later: seq<Event>, event: Event, key: nat, observation: nat)
    requires Out(Run(before), observation)
    ensures NoteOf(Run(before + later), event) != Some(LetThrough(key, observation))
  {
    var s := Run(before + later);
    StaysOut(before, later, observation);
    SoundAlways(before + later);
    if NoteOf(s, event) == Some(LetThrough(key, observation)) {
      StepLetsThrough(s, event, key, observation);
      StepStaysOut(s, event, observation);
    }
  }

  // ----- What each event does, from what happened before

  lemma RunAppend(events: seq<Event>, event: Event)
    ensures Run(events + [event]) == After(Run(events), event)
  {
    assert (events + [event])[..|events|] == events;
  }

  lemma {:induction false} DisposedExactly(events: seq<Event>)
    ensures Run(events).disposed <==> Dispose in events
  {
    if events != [] {
      var init, last := events[..|events| - 1], events[|events| - 1];
      assert events == init + [last];
      DisposedExactly(init);
    }
  }

  /** The entries that survive a full table: those with an owner or a check in flight. */
  ghost function Needed(s: State): set<nat>
    requires Referenced(s)
  {
    set key | key in s.table && (key in s.owners || s.heap[s.table[key]].pending.Some?)
  }

  ghost predicate Room(s: State, key: nat)
    requires Referenced(s)
  {
    key in s.table || |s.table| < MAX_ENTRIES || |Needed(s)| < MAX_ENTRIES
  }

  /** The observation a call finds or makes. */
  ghost function Found(s: State, key: nat): Observation
    requires Referenced(s)
  {
    if key in s.table then s.heap[s.table[key]] else Observation(0, 0, Unknown, None)
  }

  lemma PruneIsNeeded(s: State)
    requires Referenced(s)
    ensures Prune(s).Keys == Needed(s) && |Prune(s)| == |Needed(s)|
  {
    assert |Prune(s).Keys| == |Prune(s)|;
  }

  /** A call that is not refused finds its entry, or makes it after a full table has let go of what is not needed. */
  lemma LookupExactly(s: State, key: nat)
    requires Sound(s)
    ensures var (next, at) := Lookup(s, key);
            && (at.Some? <==> Room(s, key))
            && (at.Some? ==>
                  at.value < |next.heap| && Holds(next, key, at.value) && next.heap[at.value] == Found(s, key))
            && next.checks == s.checks && next.now == s.now && next.disposed == s.disposed && next.calls == s.calls
            && (forall k :: k in next.table <==>
                  || (k == key && at.Some?)
                  || (k in s.table && (key in s.table || |s.table| < MAX_ENTRIES || k in Needed(s))))
  {
    PruneIsNeeded(s);
  }

  /** What a call that is not refused outright finds, asks and answers. */
  ghost predicate Admitted(s: State, post: State, key: nat, refresh: bool, call: Call)
    requires Referenced(s)
  {
    var o := Found(s, key);
    var asks := o.result != Revoked && o.pending.None? && (refresh || s.now - o.checkedAt >= REFRESH);
    && key in post.table
    && post.checks == (if asks then s.checks + [Check(key, post.table[key], Asked)] else s.checks)
    && call == if o.result == Revoked then Finished(AuthorizationRevoked)
               else if !refresh && Leased(o, s.now) then Finished(Granted)
               else Waiting(key, post.table[key], if asks then Some(|s.checks|) else o.pending)
  }

  lemma AdmittedFound(s: State, key: nat, refresh: bool)
    requires Sound(s) && !s.disposed && Room(s, key)
    ensures var (next, call) := OnEnter(s, key, refresh); Admitted(s, next, key, refresh, call) && next.calls == s.calls
  {
    LookupExactly(s, key);
  }

  /**
   * A call is refused by a closed host, by a full table and for a revoked observation; one without refresh passes
   * at once while the lease runs; every other waits for the check in flight. A check is asked exactly if none is in
   * flight and the call is a refresh or the last one is 500 ms old.
   */
  lemma EnterExactly(events: seq<Event>, key: nat, refresh: bool)
    ensures var s, post := Run(events), Run(events + [Enter(key, refresh)]);
            && Referenced(s) && |post.calls| == |s.calls| + 1 && post.calls[..|s.calls|] == s.calls
            && var call := post.calls[|s.calls|];
               if Dispose in events then call == Finished(HostClosed) && post.checks == s.checks
               else if !Room(s, key) then call == Finished(LimitReached) && post.checks == s.checks
               else Admitted(s, post, key, refresh, call)
  {
    var s := Run(events);
    RunAppend(events, Enter(key, refresh));
    SoundAlways(events);
    DisposedExactly(events);
    if !s.disposed && Room(s, key) {
      AdmittedFound(s, key, refresh);
    } else {
      LookupExactly(s, key);
    }
  }

  /** A waiting call goes on exactly when its check is cleared away, and passes exactly under a running lease. */
  lemma ResumeExactly(events: seq<Event>, call: nat)
    requires call < |Run(events).calls| && Run(events).calls[call].Waiting?
    ensures var s, post := Run(events), Run(events + [Resume(call)]);
            var key, observation, check := s.calls[call].key, s.calls[call].observation, s.calls[call].check;
            var clear := check.None? || (check.value < |s.checks| && s.checks[check.value].stage.Settled?);
            && observation < |s.heap|
            && var outcome :=
                 if Dispose in events then HostClosed
                 else if s.heap[observation].result == Revoked then AuthorizationRevoked
                 else if Holds(s, key, observation) && Leased(s.heap[observation], s.now) then Granted
                 else AuthorizationUnknown;
               post == if clear then s.(calls := s.calls[call := Finished(outcome)]) else s
  {
    RunAppend(events, Resume(call));
    SoundAlways(events);
    DisposedExactly(events);
  }

  /** A reply is taken over exactly if it is the first, the host is open and the table still has the observation. */
  lemma TakenExactly(events: seq<Event>, check: nat, verdict: Verdict)
    requires check < |Run(events).checks|
    ensures var s := Run(events);
            var asked := s.checks[check];
            NoteOf(s, Answer(check, verdict)) ==
            if asked.stage.Asked? && Dispose !in events && Holds(s, asked.key, asked.observation)
            then Some(Took(asked.observation, verdict, s.now)) else None
  {
    SoundAlways(events);
    DisposedExactly(events);
  }

  /** Clearing a check away, once it was replied to, ends it and lets the next one be asked. */
  lemma ClearedExactly(events: seq<Event>, check: nat)
    requires check < |Run(events).checks|
    ensures var s, post := Run(events), Run(events + [Settle(check)]);
            var observation := s.checks[check].observation;
            if !s.checks[check].stage.Replied? then post == s
            else
              && post.checks == s.checks[check := s.checks[check].(stage := Settled)]
              && observation < |s.heap| && s.heap[observation].pending == Some(check)
              && post.heap == s.heap[observation := s.heap[observation].(pending := None)]
  {
    RunAppend(events, Settle(check));
    SoundAlways(events);
  }

  /** The clock at the last reply taken over for an observation, 0 if there was none. */
  function LastReply(history: seq<Note>, observation: nat): int {
    if history == [] then 0
    else
      var note := history[|history| - 1];
      if note.Took? && note.observation == observation then note.at
      else LastReply(history[..|history| - 1], observation)
  }

  lemma EnterChecked(s: State, key: nat, refresh: bool, observation: nat)
    requires Sound(s)
    ensures var post := After(s, Enter(key, refresh));
            && (observation < |s.heap| ==>
                  observation < |post.heap| && post.heap[observation].checkedAt == s.heap[observation].checkedAt)
            && (|s.heap| <= observation < |post.heap| ==> post.heap[observation].checkedAt == 0)
  {
    if !s.disposed && Lookup(s, key).1.Some? {
      LookupKeeps(s, key);
    }
  }

  /** The 500 ms count from the last reply taken over, whatever it said. */
  lemma {:induction false} CheckedIsLastReply(events: seq<Event>, observation: nat)
    ensures var s, history := Run(events), History(events);
            if observation < |s.heap| then s.heap[observation].checkedAt == LastReply(history, observation)
            else LastReply(history, observation) == 0
  {
    if events != [] {
      var init, last := events[..|events| - 1], events[|events| - 1];
      var s := Run(init);
      CheckedIsLastReply(init, observation);
      SoundAlways(init);
      NoteIsOld(s, last);
      if NoteOf(s, last).Some? {
        assert (History(init) + [NoteOf(s, last).value])[..|History(init)|] == History(init);
      }
      if last.Enter? {
        EnterChecked(s, last.key, last.refresh, observation);
      }
    }
  }

  /** No two keys share an observation. */
  ghost predicate Apart(s: State) {
    && (forall k :: k in s.table ==> s.table[k] < |s.heap|)
    && forall k, l :: k in s.table && l in s.table && s.table[k] == s.table[l] ==> k == l
  }

  lemma {:induction false} ApartAlways(events: seq<Event>)
    ensures Apart(Run(events))
  {
    if events != [] {
      var init, last := events[..|events| - 1], events[|events| - 1];
      ApartAlways(init);
      SoundAlways(init);
      SoundAlways(events);
      if last.Enter? {
        EnterTable(Run(init), last.key, last.refresh);
      }
    }
  }

  lemma LookupTable(s: State, key: nat)
    requires Sound(s)
    ensures forall k :: k in Lookup(s, key).0.table ==>
              var at := Lookup(s, key).0.table[k];
              (k in s.table && at == s.table[k]) || (k == key && at == |s.heap|)
  {
    PruneFits(s);
  }

  lemma OnEnterTable(s: State, key: nat, refresh: bool)
    ensures OnEnter(s, key, refresh).0.table == if s.disposed then s.table else Lookup(s, key).0.table
  {
  }

  lemma EnterTable(s: State, key: nat, refresh: bool)
    requires Sound(s)
    ensures forall k :: k in After(s, Enter(key, refresh)).table ==>
              var at := After(s, Enter(key, refresh)).table[k];
              (k in s.table && at == s.table[k]) || (k == key && at == |s.heap|)
  {
    LookupTable(s, key);
    OnEnterTable(s, key, refresh);
  }

  /** Removing an owner drops its entry, and from then on its observation lets no call through, whatever arrives. */
  lemma RemovedStaysOut(before: seq<Event>, later: seq<Event>, event: Event, key: nat, caller: nat)
    requires var s := Run(before); key in s.owners && key in s.table
    ensures NoteOf(Run(before + [Remove(key)] + later), event) != Some(LetThrough(caller, Run(before).table[key]))
  {
    var s := Run(before);
    RunAppend(before, Remove(key));
    ApartAlways(before);
    assert Out(Run(before + [Remove(key)]), s.table[key]);
    NeverRevived(before + [Remove(key)], later, event, caller, s.table[key]);
  }

  /** An owner is one that was added and not removed since, and the clock is what it was last set to. */
  lemma OwnersAndClock(events: seq<Event>, event: Event)
    ensures var s, post := Run(events), Run(events + [event]);
            && post.owners == (if event.Own? then s.owners + {event.key}
                               else if event.Remove? then s.owners - {event.key} else s.owners)
            && post.now == (if event.Tick? then event.now else s.now)
            && (!event.Enter? ==>
                  forall k :: k in post.table <==> k in s.table && !(event == Remove(k) && k in s.owners))
  {
    RunAppend(events, event);
    SoundAlways(events);
    if event.Enter? {
      LookupKeeps(Run(events), event.key);
      LookupOwners(Run(events), event.key);
    }
  }

  lemma LookupOwners(s: State, key: nat)
    ensures Lookup(s, key).0.owners == s.owners
  {
  }

  // ----- The host as an object

  class Host {
    var now: int
    var disposed: bool
    var owners: set<nat>
    var table: map<nat, nat>
    var heap: seq<Observation>
    var checks: seq<Check>
    var calls: seq<Call>

    ghost function View(): State
      reads this
    {
      State(now, disposed, owners, table, heap, checks, calls)
    }

    constructor ()
      ensures View() == INITIAL && Sound(View())
    {
      now, disposed, owners, table, heap, checks, calls := 0, false, {}, map[], [], [], [];
    }

    /** Drops the entries that may go, one by one. */
    method PruneEntries()
      requires Sound(View())
      modifies this`table
      ensures table == Prune(old(View()))
    {
      var left := table.Keys;
      while left != {}
        invariant left <= table.Keys && table.Keys <= old(table).Keys
        invariant forall key <- table :: table[key] == old(table)[key]
        invariant forall key <- old(table) :: key in left || (key in table <==> key in Prune(old(View())))
        decreases |left|
      {
        var key :| key in left;
        left := left - {key};
        if key !in owners && heap[table[key]].pending.None? {
          table := table - {key};
        }
      }
    }

    /** The call up to the first moment it may have to wait. */
    method Authorize(key: nat, refresh: bool) returns (call: Call)
      requires Sound(View())
      modifies this
      ensures View() == After(old(View()), Enter(key, refresh)) && Sound(View())
      ensures calls == old(calls) + [call]
    {
      AfterKeeps(View(), Enter(key, refresh));
      call := Finished(HostClosed);
      if !disposed {
        call := Admit(key, refresh);
      }
      calls := calls + [call];
    }

    method Admit(key: nat, refresh: bool) returns (call: Call)
      requires Sound(View()) && !disposed
      modifies this`table, this`heap, this`checks
      ensures (View(), call) == OnEnter(old(View()), key, refresh)
    {
      LookupKeeps(View(), key);
      if key !in table {
        if |table| >= MAX_ENTRIES {
          PruneEntries();
          if |table| >= MAX_ENTRIES {
            return Finished(LimitReached);
          }
        }
        table, heap := table[key := |heap|], heap + [Observation(0, 0, Unknown, None)];
      }
      var at := table[key];
      var o := heap[at];
      if o.result == Revoked {
        return Finished(AuthorizationRevoked);
      }
      if o.pending.None? && (refresh || now - o.checkedAt >= REFRESH) {
        o := o.(pending := Some(|checks|));
        checks, heap := checks + [Check(key, at, Asked)], heap[at := o];
      }
      if refresh || o.lastCurrentAt == 0 || now - o.lastCurrentAt >= LEASE {
        return Waiting(key, at, o.pending);
      }
      call := Finished(Granted);
    }

    /** The reply of the server arrives, maybe too late. */
    method TakeAnswer(check: nat, verdict: Verdict)
      requires Sound(View()) && check < |checks| && checks[check].stage.Asked?
      modifies this`heap, this`checks
      ensures View() == After(old(View()), Answer(check, verdict)) && Sound(View())
    {
      AfterKeeps(View(), Answer(check, verdict));
      var Check(key, at, _) := checks[check];
      var o := heap[at];
      if !disposed && key in table && table[key] == at {
        o := o.(result := verdict, checkedAt := now);
        if verdict == Current {
          o := o.(lastCurrentAt := now);
        }
      }
      heap, checks := heap[at := o], checks[check := checks[check].(stage := Replied)];
    }

    /** The later turn in which the check is cleared away and those who waited for it go on. */
    method ClearCheck(check: nat)
      requires Sound(View()) && check < |checks| && checks[check].stage.Replied?
      modifies this`heap, this`checks
      ensures View() == After(old(View()), Settle(check)) && Sound(View())
    {
      AfterKeeps(View(), Settle(check));
      var at := checks[check].observation;
      var o := heap[at];
      if o.pending == Some(check) {
        o := o.(pending := None);
      }
      heap, checks := heap[at := o], checks[check := checks[check].(stage := Settled)];
    }
  }
}
