/**
 * The coalescing queue of the folder watcher. Change notifications arrive between any two
 * steps of the job that runs; one entry per path remembers whether a change is still owed
 * an observation.
 */
module Watcher {
  import opened Options

  type Path = string

  /** What a notification is about, once its path is made relative to the root. */
  datatype Change = OfRoot | Ignored | OfFile(path: Path)

  datatype Job = Watch(path: Path) | Other

  /** The job that runs; `count` numbers the observations of a watched path. */
  datatype Running = Observing(path: Path, count: nat) | Working

  datatype State = State(
    active: bool,
    aborted: bool,
    paths: map<Path, bool>, // the dirty flag of each path with a job
    tail: seq<Job>,
    running: Option<Running>)

  datatype Event =
    | Activate
    | Notify(change: Change)
    | Reconcile
    | Start
    | Finish(thrown: bool) // a tolerated error counts as not thrown
    | Close
    | Clear

  const MAX_PATHS: nat := 2_000
  const MAX_ROUNDS: nat := 8

  const INITIAL: State := State(false, false, map[], [], None)

  function Fail(s: State): State { s.(active := false, aborted := true) }

  function OnChange(s: State, change: Change): State {
    if !s.active || s.aborted then s
    else match change
      case OfRoot => s.(tail := s.tail + [Other])
      case Ignored => s
      case OfFile(path) =>
        if path in s.paths then s.(paths := s.paths[path := true])
        else if |s.paths| >= MAX_PATHS then Fail(s)
        else s.(paths := s.paths[path := true], tail := s.tail + [Watch(path)])
  }

  function OnStart(s: State): State {
    if s.running.Some? || s.tail == [] then s
    else
      var job := s.tail[0];
      match job
      case Other => s.(running := Some(Working), tail := s.tail[1..])
      case Watch(path) => s.(running := Some(Observing(path, 0)), tail := s.tail[1..], paths := s.paths[path := false])
  }

  /** The end of an observation: observe again while dirty; the last look and dropping the entry are one step. */
  function OnFinish(s: State, thrown: bool): State {
    if s.running.None? then s
    else match s.running.value
      case Working => if thrown then Fail(s.(running := None)) else s.(running := None)
      case Observing(path, count) =>
        var done := s.(running := None, paths := s.paths - {path});
        if thrown then Fail(done)
        else if path !in s.paths || !s.paths[path] then done
        else if count + 1 >= MAX_ROUNDS then Fail(done)
        else s.(running := Some(Observing(path, count + 1)), paths := s.paths[path := false])
  }

  predicate Watches(s: State, path: Path) {
    Watch(path) in s.tail || (s.running.Some? && s.running.value.Observing? && s.running.value.path == path)
  }

  predicate NoWatch(s: State) {
    (forall job <- s.tail :: job.Other?) && !(s.running.Some? && s.running.value.Observing?)
  }

  function Next(s: State, event: Event): State {
    match event
    case Activate => s.(active := true)
    case Notify(change) => OnChange(s, change)
    case Reconcile => s.(tail := s.tail + [Other])
    case Start => OnStart(s)
    case Finish(thrown) => OnFinish(s, thrown)
    case Close => Fail(s)
    case Clear => if s.aborted && NoWatch(s) then s.(paths := map[]) else s
  }

  /** What an event adds to the record: notifications taken in and observations begun. */
  datatype Mark = Accepted(path: Path) | Observed(path: Path)

  function MarkOf(s: State, event: Event): Option<Mark> {
    var next := Next(s, event);
    match event
    case Notify(OfFile(path)) => if s.active && !s.aborted && !next.aborted then Some(Accepted(path)) else None
    case Start => if s.running.None? && s.tail != [] && s.tail[0].Watch? then Some(Observed(s.tail[0].path)) else None
    case Finish(_) =>
      if s.running.Some? && next.running.Some? && next.running.value.Observing?
        then Some(Observed(next.running.value.path))
      else None
    case _ => None
  }

  function Run(events: seq<Event>): State {
    if events == [] then INITIAL else Next(Run(events[..|events| - 1]), events[|events| - 1])
  }

  function Record(events: seq<Event>): seq<Mark> {
    if events == [] then []
    else
      var init := events[..|events| - 1];
      var mark := MarkOf(Run(init), events[|events| - 1]);
      if mark.Some? then Record(init) + [mark.value] else Record(init)
  }

  // ----- What every event keeps

  ghost predicate WaitingDirty(tail: seq<Job>, paths: map<Path, bool>) {
    forall i :: 0 <= i < |tail| && tail[i].Watch? ==> tail[i].path in paths && paths[tail[i].path]
  }

  ghost predicate NoRepeat(tail: seq<Job>) {
    forall i, j :: 0 <= i < j < |tail| && tail[i].Watch? ==> tail[i] != tail[j]
  }

  ghost predicate RunningSound(s: State) {
    s.running.Some? && s.running.value.Observing? ==>
      && s.running.value.path in s.paths && Watch(s.running.value.path) !in s.tail
      && s.running.value.count < MAX_ROUNDS
  }

  ghost predicate Covered(s: State) {
    forall path <- s.paths :: Watches(s, path)
  }

  /** A path has an entry exactly while it has its one job, and a waiting job has a dirty entry. */
  ghost predicate Sound(s: State) {
    |s.paths| <= MAX_PATHS && WaitingDirty(s.tail, s.paths) && NoRepeat(s.tail) && RunningSound(s) && Covered(s)
  }

  /** Only the entry of a path that does not wait may become clean or go away. */
  lemma PathsChange(tail: seq<Job>, paths: map<Path, bool>, after: map<Path, bool>, path: Path)
    requires WaitingDirty(tail, paths) && Watch(path) !in tail
    requires after == paths[path := false] || after == paths - {path}
    ensures WaitingDirty(tail, after)
  {
    assert forall i :: 0 <= i < |tail| ==> tail[i] in tail;
  }

  lemma ChangeCovers(s: State, change: Change)
    requires Sound(s)
    ensures Covered(OnChange(s, change))
  {
    var next := OnChange(s, change);
    forall path <- next.paths
      ensures Watches(next, path)
    {
      if path in s.paths {
        assert Watches(s, path);
      } else {
        assert next.tail[|s.tail|] == Watch(path);
      }
    }
  }

  lemma Enqueued(tail: seq<Job>, paths: map<Path, bool>, path: Path)
    requires WaitingDirty(tail, paths) && NoRepeat(tail) && path !in paths
    ensures WaitingDirty(tail + [Watch(path)], paths[path := true]) && NoRepeat(tail + [Watch(path)])
    ensures |paths[path := true]| == |paths| + 1
  {
    assert paths[path := true].Keys == paths.Keys + {path};
  }

  lemma Marked(tail: seq<Job>, paths: map<Path, bool>, path: Path)
    requires WaitingDirty(tail, paths) && path in paths
    ensures WaitingDirty(tail, paths[path := true]) && |paths[path := true]| == |paths|
  {
    assert paths[path := true].Keys == paths.Keys;
  }

  lemma ChangeKeeps(s: State, change: Change)
    requires Sound(s)
    ensures Sound(OnChange(s, change))
  {
    ChangeCovers(s, change);
    if change.OfFile? {
      if change.path in s.paths {
        Marked(s.tail, s.paths, change.path);
      } else {
        Enqueued(s.tail, s.paths, change.path);
      }
    }
  }

  lemma TailKeeps(tail: seq<Job>, paths: map<Path, bool>)
    requires tail != [] && WaitingDirty(tail, paths) && NoRepeat(tail)
    ensures WaitingDirty(tail[1..], paths) && NoRepeat(tail[1..])
    ensures tail[0].Watch? ==> tail[0] !in tail[1..] && tail[0].path in paths
  {
  }

  lemma StartCovers(s: State)
    requires Sound(s)
    ensures Covered(OnStart(s))
  {
    var next := OnStart(s);
    forall path <- next.paths
      ensures Watches(next, path)
    {
      if s.running.None? && s.tail != [] {
        assert s.tail == [s.tail[0]] + s.tail[1..];
        if s.tail[0].Watch? {
          TailKeeps(s.tail, s.paths);
        }
      }
      assert Watches(s, path);
    }
  }

  lemma StartKeeps(s: State)
    requires Sound(s)
    ensures Sound(OnStart(s))
  {
    var next := OnStart(s);
    StartCovers(s);
    if next != s {
      TailKeeps(s.tail, s.paths);
      if s.tail[0].Watch? {
        assert next.paths.Keys == s.paths.Keys;
        PathsChange(next.tail, s.paths, next.paths, s.tail[0].path);
      }
    }
  }

  lemma FinishCovers(s: State, thrown: bool)
    requires Sound(s)
    ensures Covered(OnFinish(s, thrown))
  {
    var next := OnFinish(s, thrown);
    forall path <- next.paths
      ensures Watches(next, path)
    {
      assert Watches(s, path);
    }
  }

  lemma SmallerMap(paths: map<Path, bool>, path: Path)
    requires path in paths
    ensures |paths[path := false]| == |paths| && |paths - {path}| < |paths|
  {
    assert paths[path := false].Keys == paths.Keys;
    assert paths.Keys == (paths - {path}).Keys + {path};
  }

  lemma FinishPaths(s: State, thrown: bool)
    requires Sound(s)
    ensures var next := OnFinish(s, thrown); WaitingDirty(next.tail, next.paths) && |next.paths| <= MAX_PATHS
  {
    if s.running.Some? && s.running.value.Observing? {
      PathsChange(s.tail, s.paths, OnFinish(s, thrown).paths, s.running.value.path);
      SmallerMap(s.paths, s.running.value.path);
    }
  }

  lemma FinishKeeps(s: State, thrown: bool)
    requires Sound(s)
    ensures Sound(OnFinish(s, thrown))
  {
    FinishCovers(s, thrown);
    FinishPaths(s, thrown);
  }

  lemma NextKeeps(s: State, event: Event)
    requires Sound(s)
    ensures Sound(Next(s, event))
  {
    match event
    case Notify(change) => ChangeKeeps(s, change);
    case Start => StartKeeps(s);
    case Finish(thrown) => FinishKeeps(s, thrown);
    case _ =>
      assert Covered(Next(s, event)) by {
        assert forall k <- s.paths :: Watches(s, k) ==> Watches(Next(s, event), k);
      }
  }

  lemma {:induction false} SoundAlways(events: seq<Event>)
    ensures Sound(Run(events))
  {
    if events != [] {
      SoundAlways(events[..|events| - 1]);
      NextKeeps(Run(events[..|events| - 1]), events[|events| - 1]);
    }
  }

  // ----- No wakeup is lost

  /** A change of the path is still to be observed, by a job that is there to do it. */
  predicate Owed(s: State, path: Path) {
    Dirty(s, path) && Watches(s, path)
  }

  ghost predicate Answered(log: seq<Mark>, i: nat) {
    i < |log| && log[i].Accepted? && exists j :: i < j < |log| && log[j] == Observed(log[i].path)
  }

  predicate Dirty(s: State, path: Path) { path in s.paths && s.paths[path] }

  lemma StepDirty(s: State, event: Event, path: Path)
    requires !Next(s, event).aborted
    ensures Dirty(s, path) ==> Dirty(Next(s, event), path) || MarkOf(s, event) == Some(Observed(path))
    ensures MarkOf(s, event) == Some(Accepted(path)) ==> Dirty(Next(s, event), path)
  {
    match event
    case Notify(change) =>
    case Start =>
    case Finish(thrown) =>
    case _ =>
  }

  lemma StepOwes(s: State, event: Event, path: Path)
    requires Sound(s) && !Next(s, event).aborted
    ensures Owed(s, path) ==> Owed(Next(s, event), path) || MarkOf(s, event) == Some(Observed(path))
    ensures MarkOf(s, event) == Some(Accepted(path)) ==> Owed(Next(s, event), path)
  {
    StepDirty(s, event, path);
    NextKeeps(s, event);
    assert Covered(Next(s, event));
  }

  lemma AbortStays(s: State, event: Event)
    ensures s.aborted ==> Next(s, event).aborted
  {
  }

  lemma AnsweredStays(log: seq<Mark>, mark: Mark, i: nat)
    requires i < |log| && log[i].Accepted?
    requires Answered(log, i) || mark == Observed(log[i].path)
    ensures Answered(log + [mark], i)
  {
    if Answered(log, i) {
      var j :| i < j < |log| && log[j] == Observed(log[i].path);
      assert (log + [mark])[j] == log[j];
    } else {
      assert (log + [mark])[|log|] == mark;
    }
  }

  /** Until the watcher fails or closes, every accepted notification has its later observation or is owed one. */
  lemma {:induction false} NoWakeupLost(events: seq<Event>, i: nat)
    requires !Run(events).aborted && i < |Record(events)| && Record(events)[i].Accepted?
    ensures Answered(Record(events), i) || Owed(Run(events), Record(events)[i].path)
  {
    var init, last := events[..|events| - 1], events[|events| - 1];
    var s, log := Run(init), Record(init);
    AbortStays(s, last);
    SoundAlways(init);
    StepOwes(s, last, Record(events)[i].path);
    if i < |log| {
      NoWakeupLost(init, i);
      var mark := MarkOf(s, last);
      if mark.Some? && (Answered(log, i) || mark.value == Observed(log[i].path)) {
        AnsweredStays(log, mark.value, i);
      }
    }
  }

  predicate Idle(s: State) { s.running.None? && s.tail == [] }

  /** Once idle, every notification it took in was followed by an observation of that path. */
  lemma IdleOwesNothing(events: seq<Event>, i: nat)
    requires !Run(events).aborted && Idle(Run(events))
    requires i < |Record(events)| && Record(events)[i].Accepted?
    ensures Answered(Record(events), i)
  {
    NoWakeupLost(events, i);
  }

  // ----- The queue drains

  function Work(s: State): nat {
    3 * |s.tail| +
    if s.running.None? then 0
    else if s.running.value.Working? then 1
    else 1 + if s.running.value.path in s.paths && s.paths[s.running.value.path] then 1 else 0
  }

  /** Without new notifications the queue gets to idle: whatever the next step's outcome, less work is left. */
  lemma WorkShrinks(s: State, thrown: bool)
    requires Sound(s)
    ensures Idle(s) <==> Work(s) == 0
    ensures !Idle(s) ==> Work(Next(s, if s.running.Some? then Finish(thrown) else Start)) < Work(s)
  {
  }

  /** The outcomes the steps of the drain have, one for each. */
  function Drain(s: State, outcomes: seq<bool>): seq<Event>
    decreases |outcomes|
  {
    if outcomes == [] then []
    else
      var event := if s.running.Some? then Finish(outcomes[0]) else Start;
      [event] + Drain(Next(s, event), outcomes[1..])
  }

  lemma {:induction false} RunSplit(events: seq<Event>, more: seq<Event>)
    requires more != []
    ensures Run(events + more) == Run(events + [more[0]] + more[1..])
    ensures Run(events + [more[0]]) == Next(Run(events), more[0])
  {
    assert events + more == events + [more[0]] + more[1..];
    assert (events + [more[0]])[..|events|] == events;
  }

  /** After enough steps of its own, with any outcomes, the watcher is idle or has failed. */
  lemma {:induction false} Drains(events: seq<Event>, outcomes: seq<bool>)
    requires |outcomes| >= Work(Run(events))
    ensures Idle(Run(events + Drain(Run(events), outcomes)))
    decreases |outcomes|
  {
    var s := Run(events);
    SoundAlways(events);
    if outcomes == [] {
      assert events + [] == events;
    } else {
      var event := if s.running.Some? then Finish(outcomes[0]) else Start;
      WorkShrinks(s, outcomes[0]);
      RunSplit(events, Drain(s, outcomes));
      Drains(events + [event], outcomes[1..]);
    }
  }

  // ----- What is taken in, how often a job observes, and when the watcher fails

  lemma RunAppend(events: seq<Event>, event: Event)
    ensures Run(events + [event]) == Next(Run(events), event)
  {
    assert (events + [event])[..|events|] == events;
  }

  /** A change of a file that is taken in: it is recorded as accepted and leaves a dirty entry, new ones with a job. */
  lemma AcceptedExactly(events: seq<Event>, path: Path)
    ensures var s, post, log := Run(events), Run(events + [Notify(OfFile(path))]), Record(events);
            if s.active && !s.aborted && (path in s.paths || |s.paths| < 2_000) then
              && Record(events + [Notify(OfFile(path))]) == log + [Accepted(path)]
              && post == s.(paths := s.paths[path := true],
                            tail := if path in s.paths then s.tail else s.tail + [Watch(path)])
            else
              && Record(events + [Notify(OfFile(path))]) == log
              && post == if s.active && !s.aborted then s.(active := false, aborted := true) else s
  {
    RunAppend(events, Notify(OfFile(path)));
    assert (events + [Notify(OfFile(path))])[..|events|] == events;
  }

  /** A change of the root has the folder checked again, a path no rule matches has no effect. */
  lemma RootIsChecked(events: seq<Event>)
    ensures var s := Run(events);
            && Run(events + [Notify(OfRoot)]) == (if s.active && !s.aborted then s.(tail := s.tail + [Other]) else s)
            && Run(events + [Notify(Ignored)]) == s
  {
    RunAppend(events, Notify(OfRoot));
    RunAppend(events, Notify(Ignored));
  }

  /**
   * An observation that ended is followed by another exactly if its path is dirty again, it did not throw and it was
   * not the eighth of its job; otherwise the entry goes, and the watcher fails if it threw or still owes one.
   */
  lemma ObservesAgain(events: seq<Event>, thrown: bool)
    requires var s := Run(events); s.running.Some? && s.running.value.Observing?
    ensures var s, post := Run(events), Run(events + [Finish(thrown)]);
            var path, count := s.running.value.path, s.running.value.count;
            var dirty := path in s.paths && s.paths[path];
            && count < 8 && path in s.paths && post.tail == s.tail
            && if dirty && !thrown && count < 7
               then post == s.(running := Some(Observing(path, count + 1)), paths := s.paths[path := false])
               else && post.running.None? && post.paths == s.paths - {path}
                    && (post.aborted <==> s.aborted || dirty || thrown)
                    && (post.active <==> s.active && !dirty && !thrown)
  {
    RunAppend(events, Finish(thrown));
    SoundAlways(events);
  }

  /** Jobs run one at a time in the order they were queued, and an observation starts with a clean entry. */
  lemma StartsInOrder(events: seq<Event>)
    ensures var s, post := Run(events), Run(events + [Start]);
            if s.running.Some? || s.tail == [] then post == s
            else
              && post.tail == s.tail[1..] && post.active == s.active && post.aborted == s.aborted
              && if s.tail[0].Watch?
                 then post.running == Some(Observing(s.tail[0].path, 0))
                   && post.paths == s.paths[s.tail[0].path := false]
                 else post.running == Some(Working) && post.paths == s.paths
  {
    RunAppend(events, Start);
  }

  /** A reconciliation has the folder checked; what a failed watcher remembers goes once no job of it is left. */
  lemma ClearedWhenDone(events: seq<Event>)
    ensures var s := Run(events);
            && Run(events + [Reconcile]) == s.(tail := s.tail + [Other])
            && Run(events + [Clear]) ==
               if s.aborted && (forall path :: !Watches(s, path)) then s.(paths := map[]) else s
  {
    RunAppend(events, Reconcile);
    RunAppend(events, Clear);
    var s := Run(events);
    if !NoWatch(s) {
      var path := if s.running.Some? && s.running.value.Observing? then s.running.value.path else SomeWatch(s.tail);
      assert Watches(s, path);
    }
  }

  function SomeWatch(tail: seq<Job>): (path: Path)
    ensures (exists job <- tail :: job.Watch?) ==> Watch(path) in tail
  {
    if tail == [] then "" else if tail[0].Watch? then tail[0].path else SomeWatch(tail[1..])
  }

  /** What makes the watcher fail. */
  predicate Fails(s: State, event: Event) {
    match event
    case Close => true
    case Notify(OfFile(path)) => s.active && !s.aborted && path !in s.paths && |s.paths| >= 2_000
    case Finish(thrown) =>
      && s.running.Some?
      && (thrown || (s.running.value.Observing? && s.running.value.count >= 7 && Dirty(s, s.running.value.path)))
    case _ => false
  }

  /** It has failed exactly if something made it fail, and it takes changes in only between its start and that. */
  lemma {:induction false} FailedExactly(events: seq<Event>)
    ensures Run(events).aborted <==> exists i :: 0 <= i < |events| && Fails(Run(events[..i]), events[i])
    ensures Run(events).active ==> Activate in events
  {
    if events != [] {
      var init, last := events[..|events| - 1], events[|events| - 1];
      FailedExactly(init);
      assert events == init + [last];
      forall i | 0 <= i < |init|
        ensures init[..i] == events[..i] && init[i] == events[i]
      {
      }
      FailsNow(Run(init), last);
      assert events[..|init|] == init;
      if exists i :: 0 <= i < |init| && Fails(Run(init[..i]), init[i]) {
        var i :| 0 <= i < |init| && Fails(Run(init[..i]), init[i]);
        assert Fails(Run(events[..i]), events[i]);
      }
    }
  }

  lemma FailsNow(s: State, event: Event)
    ensures Next(s, event).aborted <==> s.aborted || Fails(s, event)
    ensures Next(s, event).active <==> event.Activate? || (s.active && !Fails(s, event))
  {
  }

  // ----- The watcher as an object

  class Queue {
    var active: bool
    var aborted: bool
    var paths: map<Path, bool>
    var tail: seq<Job>
    var running: Option<Running>

    ghost function View(): State
      reads this
    {
      State(active, aborted, paths, tail, running)
    }

    constructor ()
      ensures View() == INITIAL && Sound(View())
    {
      active, aborted, paths, tail, running := false, false, map[], [], None;
    }

    method Abort()
      modifies this`active, this`aborted
      ensures View() == Fail(old(View()))
    {
      active, aborted := false, true;
    }

    method OnNotify(change: Change)
      requires Sound(View())
      modifies this
      ensures View() == Next(old(View()), Notify(change)) && Sound(View())
    {
      NextKeeps(View(), Notify(change));
      if !active || aborted || change.Ignored? {
        return;
      }
      if change.OfRoot? {
        tail := tail + [Other];
        return;
      }
      var path := change.path;
      if path in paths {
        paths := paths[path := true];
        return;
      }
      if |paths| >= MAX_PATHS {
        Abort();
        return;
      }
      paths := paths[path := true];
      tail := tail + [Watch(path)];
    }

    method StartNext()
      requires Sound(View())
      modifies this
      ensures View() == Next(old(View()), Start) && Sound(View())
    {
      NextKeeps(View(), Start);
      if running.Some? || tail == [] {
        return;
      }
      var job := tail[0];
      tail := tail[1..];
      if job.Other? {
        running := Some(Working);
      } else {
        paths := paths[job.path := false];
        running := Some(Observing(job.path, 0));
      }
    }

    method FinishJob(thrown: bool)
      requires Sound(View())
      modifies this
      ensures View() == Next(old(View()), Finish(thrown)) && Sound(View())
    {
      NextKeeps(View(), Finish(thrown));
      if running.None? {
        return;
      }
      var job := running.value;
      if job.Observing? && !thrown && job.path in paths && paths[job.path] && job.count + 1 < MAX_ROUNDS {
        paths := paths[job.path := false];
        running := Some(Observing(job.path, job.count + 1));
        return;
      }
      var failed := thrown;
      if job.Observing? {
        failed := failed || (job.path in paths && paths[job.path]);
        paths := paths - {job.path};
      }
      running := None;
      if failed {
        Abort();
      }
    }
  }
}
