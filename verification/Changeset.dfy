/**
 * Executing a reviewed changeset file by file, with a journal checkpoint on either side of each real effect.
 * The world outside is a script of events; the process may die at any of them.
 */
module Changeset {
  import opened Statuses
  import opened Journal
  import opened JournalRuns
  import NativeMove

  /** What happens at the next point where the process depends on the outside. */
  datatype Event =
    | Proceed          // the call succeeds
    | Deny             // a typed refusal: authority lost, or a failed precondition
    | Break            // any other error
    | Lose             // as Break, but what was asked for happened
    | Die              // the process ends before anything happened
    | DieAfter         // the process ends after what was asked for happened

  /** How a call ended for its caller. */
  datatype Ending = Returned | Refused | Threw | Gone

  /** What the native helper is asked for, the directory it finds and what others do to it meanwhile. */
  datatype NativeJob = NativeJob(expected: nat, script: nat -> NativeMove.Turn, dir: NativeMove.Dir, move: bool,
                                 same: bool)

  /** The helper finds the expected source and a free target, and nobody gets in between. */
  ghost predicate Smooth(job: NativeJob) {
    NativeMove.Smooth(job.expected, job.script, job.dir, job.same)
  }

  /** The helper's private names are free. */
  predicate Private(job: NativeJob) {
    job.dir.temporary.None? && job.dir.quarantine.None?
  }

  /** The next `n` points all went well. */
  ghost predicate AllGo(script: nat -> Event, from: nat, n: nat) {
    forall k: nat :: from <= k < from + n ==> script(k).Proceed?
  }

  lemma AllGoSplit(script: nat -> Event, from: nat, m: nat, n: nat)
    ensures AllGo(script, from, m + n) <==> AllGo(script, from, m) && AllGo(script, from + m, n)
  {
  }

  /** Where an attempt at one file stands after its first two points and after its write. */
  lemma AttemptSplit(script: nat -> Event, t: nat, remove: bool)
    ensures var n := Guards(remove);
            && (AllGo(script, t, 2) <==> script(t).Proceed? && script(t + 1).Proceed?)
            && (AllGo(script, t, n + 2) <==> AllGo(script, t, 2) && AllGo(script, t + 2, n))
            && (AllGo(script, t, Points(remove)) <==>
                  AllGo(script, t, 2) && AllGo(script, t + 2, n + 2) && script(t + n + 4).Proceed?)
            && (DeniedAfter(script, t, 2) <==> AllGo(script, t, 2) && DeniedAfter(script, t + 2, 0))
            && (DeniedAfter(script, t, n) <==> AllGo(script, t, 2) && DeniedAfter(script, t + 2, n - 2))
            && (DeniedAfter(script, t, n + 1) <==> AllGo(script, t, 2) && DeniedAfter(script, t + 2, n - 1))
            && (DeniedAfter(script, t, n + 4) <==>
                  AllGo(script, t, 2) && AllGo(script, t + 2, n + 2) && script(t + n + 4).Deny?)
  {
    var n := Guards(remove);
    AllGoSplit(script, t, 2, n);
    AllGoSplit(script, t, 2, n + 2);
    AllGoSplit(script, t, n + 4, 1);
    AllGoSplit(script, t, 2, n - 2);
    AllGoSplit(script, t, 2, n - 1);
  }

  /** `n` points went well and the next one was a typed refusal. */
  ghost predicate DeniedAfter(script: nat -> Event, from: nat, n: nat) {
    AllGo(script, from, n) && script(from + n).Deny?
  }

  /** What was asked for at this point did happen. */
  predicate Happens(e: Event) {
    e.Proceed? || e.Lose? || e.DieAfter?
  }

  /** The points of a write or removal before its commit: the check, the staging of a write, authority and identity. */
  function Guards(remove: bool): nat {
    if remove then 3 else 4
  }

  /** All points of one file: authority, prepared, the write with its commit and the sync after it, and applied. */
  function Points(remove: bool): nat {
    Guards(remove) + 5
  }

  /** Where the execution of file `i` starts, if everything before it went well. */
  function StartOf(start: nat, removes: seq<bool>, i: nat): nat
    requires i <= |removes|
  {
    if i == 0 then start + |removes| else StartOf(start, removes, i - 1) + Points(removes[i - 1])
  }

  class Session {
    const count: nat
    const op: Op
    const journal: BridgeJournal
    const script: nat -> Event
    const jobs: nat -> NativeJob
    /** The files whose reviewed change really happened. */
    var effects: set<nat>
    var alive: bool
    var tick: nat

    constructor (journal: BridgeJournal, op: Op, count: nat, script: nat -> Event, jobs: nat -> NativeJob)
      requires Running(journal.db, op, count) && SavedFiles(journal.db, op) == map[] && !journal.closed
      requires forall i :: Private(jobs(i))
      ensures this.journal == journal && this.op == op && this.count == count && this.script == script
              && this.jobs == jobs
      ensures effects == {} && alive && Ready() && Sane()
    {
      this.journal, this.op, this.count, this.script, this.jobs := journal, op, count, script, jobs;
      effects, alive, tick := {}, true, 0;
    }

    /** What the journal durably holds for each file. */
    ghost function Saved(): map<nat, Status>
      reads journal
    {
      SavedFiles(journal.db, op)
    }

    ghost predicate Ready()
      reads this, journal
    {
      Running(journal.db, op, count) && !journal.closed && forall i :: Private(jobs(i))
    }

    ghost predicate Sane()
      reads this, journal
    {
      && (forall i <- Saved() :: i < count)
      && Bracketed(Saved(), effects)
    }

    method Next() returns (e: Event)
      requires alive
      modifies this`tick, this`alive
      ensures alive <==> !e.Die? && !e.DieAfter?
      ensures e == script(old(tick)) && tick == old(tick) + 1
    {
      e := script(tick);
      tick := tick + 1;
      alive := !e.Die? && !e.DieAfter?;
    }

    /** One journal transaction: a file that has a final status keeps it, and nothing but the file's status changes. */
    method Checkpoint(i: nat, status: Status) returns (r: Ending)
      requires alive && Ready() && i < count
      modifies this`tick, this`alive, journal`db, journal`poisoned
      ensures Ready() && journal.db == old(journal.db).(files := journal.db.files)
      ensures Saved() == old(Saved()) || (Saved() == old(Saved())[i := status] && !Final(old(Saved()), i))
      ensures r.Returned? ==> Saved() == old(Saved())[i := status]
      ensures alive <==> !r.Gone?
      ensures !r.Refused?
      ensures Saved() != old(Saved()) && !r.Returned? && alive ==> journal.poisoned
      ensures old(journal.poisoned) ==> journal.poisoned && Saved() == old(Saved()) && r.Threw?
      ensures r.Returned? <==> !old(journal.poisoned) && script(old(tick)).Proceed? && !Final(old(Saved()), i)
      ensures r.Returned? ==> tick == old(tick) + 1 && !journal.poisoned
      ensures !old(journal.poisoned) && script(old(tick)).Deny? ==>
                r.Threw? && Saved() == old(Saved()) && tick == old(tick) + 1 && !journal.poisoned
    {
      if journal.poisoned {
        return Threw;
      }
      var e := Next();
      if e.Die? {
        return Gone;
      }
      if e.Deny? {
        return Threw;
      }
      var disk := if e.Break? then RolledBack else if e.Lose? then CommittedThenFailed else Fine;
      var ok := journal.Transact(CheckpointStep(op, i, status, true), disk);
      r := if e.DieAfter? then Gone else if ok then Returned else Threw;
    }

    /** Asking for authority again. */
    method Authorize() returns (ok: bool, r: Ending)
      requires alive
      modifies this`tick, this`alive
      ensures r.Returned? || !ok
      ensures alive <==> !r.Gone?
      ensures !r.Refused?
      ensures tick == old(tick) + 1 && (ok <==> script(old(tick)).Proceed?)
      ensures r.Returned? <==> script(old(tick)).Proceed? || script(old(tick)).Deny?
    {
      var e := Next();
      ok := e.Proceed?;
      r := match e
        case Proceed => Returned
        case Deny => Returned
        case Break => Threw
        case Lose => Threw
        case Die => Gone
        case DieAfter => Gone;
    }

    /** A step that only looks: it may refuse by a typed error, fail otherwise, or never come back. */
    method Look() returns (r: Ending)
      requires alive
      modifies this`tick, this`alive
      ensures alive <==> !r.Gone?
      ensures tick == old(tick) + 1
      ensures (r.Returned? <==> script(old(tick)).Proceed?) && (r.Refused? <==> script(old(tick)).Deny?)
      ensures r.Gone? <==> script(old(tick)).Die? || script(old(tick)).DieAfter?
    {
      var e := Next();
      r := match e
        case Proceed => Returned
        case Deny => Ending.Refused
        case Break => Threw
        case Lose => Threw
        case Die => Gone
        case DieAfter => Gone;
    }

    /** The rename, link or unlink that is the effect. It has no typed failure. */
    method Commit(i: nat) returns (r: Ending)
      requires alive && i < count
      modifies this`tick, this`alive, this`effects
      ensures effects == if script(old(tick)) in {Proceed, Lose, DieAfter} then old(effects) + {i} else old(effects)
      ensures r.Returned? <==> script(old(tick)).Proceed?
      ensures alive <==> !r.Gone?
      ensures !r.Refused? && tick == old(tick) + 1
    {
      var e := Next();
      if Happens(e) {
        effects := effects + {i};
      }
      r := match e
        case Proceed => Returned
        case Deny => Threw
        case Break => Threw
        case Lose => Threw
        case Die => Gone
        case DieAfter => Gone;
    }

    /**
     * The native copy or move. A refusal before the helper starts had no effect; after that it is the helper's own
     * report that tells a failure without effect from one that leaves the outcome open.
     */
    method Native(i: nat) returns (r: Ending)
      requires alive && i < count && Ready()
      modifies this`tick, this`alive, this`effects
      ensures effects == old(effects) || effects == old(effects) + {i}
      ensures r.Returned? ==> i in effects
      ensures r.Refused? ==> effects == old(effects)
      ensures alive <==> !r.Gone?
      ensures tick == old(tick) + 1
      ensures effects != old(effects) ==> !script(old(tick)).Deny? && !script(old(tick)).Die?
      ensures script(old(tick)).Deny? || (script(old(tick)).Proceed? && jobs(i).same) ==> r.Refused?
      ensures script(old(tick)).Proceed? && !jobs(i).same && jobs(i).script(0).killed ==> r.Threw?
      ensures r.Returned? ==> script(old(tick)).Proceed?
      ensures script(old(tick)).Proceed? && Smooth(jobs(i)) ==> r.Returned?
    {
      var e := Next();
      if e.Deny? {
        return Ending.Refused;
      }
      if e.Die? {
        return Gone;
      }
      var job := jobs(i);
      var helper := new NativeMove.Mutation(job.expected, job.script, job.dir);
      var end := helper.Execute(job.move, job.same);
      if helper.committed {
        effects := effects + {i};
      }
      if e.DieAfter? {
        return Gone;
      }
      if !e.Proceed? || end.Killed? {
        return Threw;
      }
      if end.Finished? {
        return Returned;
      }
      var report := helper.Failure();
      r := if report.unknown then Threw else Ending.Refused;
    }

    /** The authority check just before the commit is a typed precondition. */
    method BeforeCommit() returns (r: Ending)
      requires alive
      modifies this`tick, this`alive
      ensures alive <==> !r.Gone?
      ensures tick == old(tick) + 1
      ensures (r.Returned? <==> script(old(tick)).Proceed?) && (r.Refused? <==> script(old(tick)).Deny?)
    {
      var ok;
      ok, r := Authorize();
      if r.Returned? && !ok {
        r := Ending.Refused;
      }
    }

    /** Checks, staging, authority and the identity check come before the commit; the directory sync after it. */
    method WriteFile(i: nat, remove: bool) returns (r: Ending)
      requires alive && i < count
      modifies this`tick, this`alive, this`effects
      ensures effects == old(effects) || effects == old(effects) + {i}
      ensures r.Returned? ==> i in effects
      ensures r.Refused? ==> effects == old(effects)
      ensures alive <==> !r.Gone?
      ensures var t, n := old(tick), Guards(remove);
              && (effects == if AllGo(script, t, n) && Happens(script(t + n)) then old(effects) + {i} else old(effects))
              && (r.Returned? <==> AllGo(script, t, n + 2))
              && (r.Returned? ==> tick == t + n + 2)
              && (r.Refused? ==>
                    DeniedAfter(script, t, 0) || DeniedAfter(script, t, n - 2) || DeniedAfter(script, t, n - 1))
              && (DeniedAfter(script, t, 0) ==> r.Refused? && tick == t + 1)
              && (DeniedAfter(script, t, n - 2) ==> r.Refused? && tick == t + n - 1)
              && (DeniedAfter(script, t, n - 1) ==> r.Refused? && tick == t + n)
    {
      r := Look();
      if !r.Returned? { return; }
      if !remove {
        r := Look();
        if r.Refused? { r := Threw; }
        if !r.Returned? { return; }
      }
      r := BeforeCommit();
      if !r.Returned? { return; }
      r := Look();
      if !r.Returned? { return; }
      r := Commit(i);
      if !r.Returned? { return; }
      r := Look();
      if r.Refused? { r := Threw; }
    }
  }

  /** Between two files: the files before `n` are applied, and the others have no status and were not touched. */
  ghost predicate Between(saved: map<nat, Status>, effects: set<nat>, n: nat) {
    && (forall i: nat :: i in saved <==> i < n)
    && (forall i: nat :: i in effects <==> i < n)
    && (forall i <- saved :: saved[i].Applied?)
  }

  /** What one file's execution may have added to the statuses and effects of the files before it. */
  ghost predicate OneFile(was: map<nat, Status>, had: set<nat>, saved: map<nat, Status>, effects: set<nat>, i: nat) {
    || (saved == was && effects == had)
    || (&& i in saved && saved == was[i := saved[i]]
        && (effects == had || effects == had + {i})
        && (saved[i].Applied? ==> i in effects)
        && (i in effects ==> saved[i].Applied? || Open(saved[i])))
  }

  lemma OneFileBrackets(was: map<nat, Status>, had: set<nat>, saved: map<nat, Status>, effects: set<nat>, i: nat)
    requires Between(was, had, i) && OneFile(was, had, saved, effects, i)
    ensures Bracketed(saved, effects) && forall j <- saved :: j <= i
    ensures i in saved && saved[i].Applied? ==> Between(saved, effects, i + 1)
    ensures InOrderUpTo(saved, effects, i)
  {
  }

  /** The files were taken in order: one was the last to be touched, and all before it are applied. */
  ghost predicate InOrder(saved: map<nat, Status>, effects: set<nat>) {
    exists n: nat :: InOrderUpTo(saved, effects, n)
  }

  ghost predicate InOrderUpTo(saved: map<nat, Status>, effects: set<nat>, n: nat) {
    && (forall i: nat :: i < n ==> i in saved && saved[i].Applied? && i in effects)
    && (forall i: nat :: i > n ==> i !in saved && i !in effects)
  }

  /** The rest of the journal is as it was. */
  twostate predicate OnlyFiles(s: Session)
    reads s.journal
  {
    s.journal.db == old(s.journal.db).(files := s.journal.db.files)
  }

  /** Checkpoints a status and then remembers it. */
  method Save(s: Session, i: nat, status: Status, results: seq<Status>) returns (r: Ending, next: seq<Status>)
    requires s.alive && s.Ready() && i < s.count
    requires !s.journal.poisoned ==> results == Report(s.Saved(), s.count)
    modifies s`tick, s`alive, s.journal`db, s.journal`poisoned
    ensures s.Ready() && OnlyFiles(s)
    ensures s.Saved() == old(s.Saved()) || (s.Saved() == old(s.Saved())[i := status] && !Final(old(s.Saved()), i))
    ensures r.Returned? ==> s.Saved() == old(s.Saved())[i := status] && next == Report(s.Saved(), s.count)
    ensures s.alive <==> !r.Gone?
    ensures !r.Refused?
    ensures s.Saved() != old(s.Saved()) && !r.Returned? && s.alive ==> s.journal.poisoned
    ensures s.alive && !s.journal.poisoned ==> next == Report(s.Saved(), s.count)
    ensures old(s.journal.poisoned) ==> s.journal.poisoned && s.Saved() == old(s.Saved()) && r.Threw?
    ensures r.Returned? <==> !old(s.journal.poisoned) && s.script(old(s.tick)).Proceed? && !Final(old(s.Saved()), i)
    ensures r.Returned? ==> s.tick == old(s.tick) + 1 && !s.journal.poisoned
    ensures !old(s.journal.poisoned) && s.script(old(s.tick)).Deny? ==>
              r.Threw? && s.Saved() == old(s.Saved()) && s.tick == old(s.tick) + 1 && !s.journal.poisoned
  {
    next := results;
    r := s.Checkpoint(i, status);
    if r.Returned? {
      next := next[i := status];
    }
  }

  /** The file is changed exactly if everything up to its commit goes well. */
  ghost predicate Changes(script: nat -> Event, effects: set<nat>, i: nat, remove: bool, t: nat, poisoned: bool) {
    var commit := Guards(remove) + 2;
    i in effects <==> !poisoned && AllGo(script, t, commit) && Happens(script(t + commit))
  }

  /** All points of one file go well. */
  ghost predicate AllPoints(script: nat -> Event, remove: bool, t: nat, poisoned: bool) {
    !poisoned && AllGo(script, t, Points(remove))
  }

  /** The write is refused by type: by its first check, by authority asked for again, or by the identity check. */
  ghost predicate Refuses(s: Session, remove: bool, t: nat, k: nat) {
    k in {2, Guards(remove), Guards(remove) + 1} && DeniedAfter(s.script, t, k)
  }

  /** Authority for one file and its prepared status, or canceled without authority. */
  method PrepareOne(s: Session, i: nat, results: seq<Status>) returns (r: Ending, next: seq<Status>, prepared: bool)
    requires s.alive && s.Ready() && i < s.count && i !in s.Saved()
    requires results == Report(s.Saved(), s.count)
    modifies s`tick, s`alive, s.journal`db, s.journal`poisoned
    ensures s.Ready() && OnlyFiles(s)
    ensures r.Gone? <==> !s.alive
    ensures s.Saved() == old(s.Saved()) || s.Saved() == old(s.Saved())[i := Prepared]
            || s.Saved() == old(s.Saved())[i := Canceled]
    ensures r.Returned? ==> next == Report(s.Saved(), s.count) && !s.journal.poisoned && s.tick == old(s.tick) + 2
    ensures s.alive && !s.journal.poisoned ==> next == Report(s.Saved(), s.count)
    ensures s.alive && !r.Returned? && i in s.Saved() ==> s.journal.poisoned
    ensures !r.Refused?
    ensures prepared <==> !old(s.journal.poisoned) && AllGo(s.script, old(s.tick), 2)
    ensures prepared ==> r.Returned? && s.Saved() == old(s.Saved())[i := Prepared]
    ensures r.Returned? && !prepared <==>
              !old(s.journal.poisoned) && DeniedAfter(s.script, old(s.tick), 0) && s.script(old(s.tick) + 1).Proceed?
    ensures r.Returned? && !prepared ==> s.Saved() == old(s.Saved())[i := Canceled]
  {
    var ok;
    prepared, next := false, results;
    ok, r := s.Authorize();
    if !r.Returned? { return; }
    r, next := Save(s, i, if ok then Prepared else Canceled, next);
    prepared := ok && r.Returned?;
  }

  /** The write or removal of a file prepared since point `t`; `closing` is what an error leaves to be saved. */
  method WriteOne(s: Session, i: nat, remove: bool, results: seq<Status>, ghost t: nat)
    returns (r: Ending, next: seq<Status>, closing: Status)
    requires s.alive && s.Ready() && i < s.count && i in s.Saved() && s.Saved()[i].Prepared? && i !in s.effects
    requires results == Report(s.Saved(), s.count) && !s.journal.poisoned
    requires s.tick == t + 2 && AllGo(s.script, t, 2)
    modifies s, s.journal`db, s.journal`poisoned
    ensures s.Ready() && OnlyFiles(s)
    ensures s.Saved() == old(s.Saved()) || s.Saved() == old(s.Saved())[i := Applied]
    ensures s.effects == old(s.effects) || s.effects == old(s.effects) + {i}
    ensures i in s.Saved() && s.Saved()[i].Applied? ==> i in s.effects
    ensures r.Gone? <==> !s.alive
    ensures r.Returned? ==> next == Report(s.Saved(), s.count) && !s.journal.poisoned
    ensures closing.Unknown? || (closing.Conflict? && i !in s.effects)
    ensures s.alive && !r.Returned? && Final(s.Saved(), i) ==> s.journal.poisoned
    ensures s.alive && !s.journal.poisoned ==> next == Report(s.Saved(), s.count)
    ensures Changes(s.script, s.effects, i, remove, t, false)
    ensures r.Returned? <==> AllPoints(s.script, remove, t, false)
    ensures r.Returned? ==> s.tick == t + Points(remove) && i in s.Saved() && s.Saved()[i].Applied?
    ensures LeftOpen(s, i, remove, t, r, closing)
  {
    AttemptSplit(s.script, t, remove);
    closing, next := Status.Unknown, results;
    r := s.WriteFile(i, remove);
    if r.Returned? {
      r, next := Save(s, i, Applied, next);
    } else if r.Refused? {
      closing := Conflict;
    }
  }

  /** The attempt at one file: authority, prepared, effect, applied. */
  method AttemptOne(s: Session, i: nat, remove: bool, results: seq<Status>)
    returns (r: Ending, next: seq<Status>, closing: Status)
    requires s.alive && s.Ready() && i < s.count && Between(s.Saved(), s.effects, i)
    requires results == Report(s.Saved(), s.count)
    modifies s, s.journal`db, s.journal`poisoned
    ensures s.Ready() && OnlyFiles(s)
    ensures OneFile(old(s.Saved()), old(s.effects), s.Saved(), s.effects, i)
    ensures r.Gone? <==> !s.alive
    ensures r.Returned? ==> next == Report(s.Saved(), s.count) && !s.journal.poisoned
    ensures closing.Unknown? || (closing.Conflict? && i !in s.effects)
    ensures s.alive && !r.Returned? && Final(s.Saved(), i) ==> s.journal.poisoned
    ensures s.alive && !s.journal.poisoned ==> next == Report(s.Saved(), s.count)
    ensures Changes(s.script, s.effects, i, remove, old(s.tick), old(s.journal.poisoned))
    ensures r.Returned? && next[i].Applied? <==> AllPoints(s.script, remove, old(s.tick), old(s.journal.poisoned))
    ensures r.Returned? && next[i].Applied? ==> s.tick == old(s.tick) + Points(remove)
    ensures !old(s.journal.poisoned) && DeniedAfter(s.script, old(s.tick), 0) && s.script(old(s.tick) + 1).Proceed? ==>
              r.Returned? && s.Saved() == old(s.Saved())[i := Canceled]
    ensures !old(s.journal.poisoned) ==> LeftOpen(s, i, remove, old(s.tick), r, closing)
  {
    AttemptSplit(s.script, s.tick, remove);
    closing := Status.Unknown;
    var prepared;
    r, next, prepared := PrepareOne(s, i, results);
    if prepared {
      r, next, closing := WriteOne(s, i, remove, next, old(s.tick));
    }
  }

  /** What an attempt leaves open: a conflict after a typed refusal, and an unknown outcome if the last checkpoint
      failed. */
  ghost predicate LeftOpen(s: Session, i: nat, remove: bool, t: nat, r: Ending, closing: Status)
    reads s, s.journal
  {
    var last := Points(remove) - 1;
    && (forall k :: Refuses(s, remove, t, k) ==>
          r.Refused? && closing.Conflict? && s.tick == t + k + 1 && !s.journal.poisoned && !Final(s.Saved(), i))
    && (DeniedAfter(s.script, t, last) ==>
          r.Threw? && closing.Unknown? && s.tick == t + last + 1 && !s.journal.poisoned && !Final(s.Saved(), i))
  }

  /** Lost authority is saved as canceled, a typed refusal as conflict, and a write that could not be saved as unknown.
      */
  twostate predicate ClosedAs(s: Session, i: nat, remove: bool)
    reads s, s.journal
  {
    var t, last := old(s.tick), Points(remove) - 1;
    && (DeniedAfter(s.script, t, 0) && s.script(t + 1).Proceed? ==> s.Saved() == old(s.Saved())[i := Canceled])
    && (forall k :: Refuses(s, remove, t, k) && s.script(t + k + 1).Proceed? ==>
          s.Saved() == old(s.Saved())[i := Conflict])
    && (DeniedAfter(s.script, t, last) && s.script(t + last + 1).Proceed? ==>
          s.Saved() == old(s.Saved())[i := Status.Unknown])
  }

  /** One file: what an attempt that failed leaves open is closed as conflict or unknown. */
  method ExecuteOne(s: Session, i: nat, remove: bool, results: seq<Status>) returns (r: Ending, next: seq<Status>)
    requires s.alive && s.Ready() && i < s.count && Between(s.Saved(), s.effects, i)
    requires results == Report(s.Saved(), s.count)
    modifies s, s.journal`db, s.journal`poisoned
    ensures s.Ready() && OnlyFiles(s)
    ensures OneFile(old(s.Saved()), old(s.effects), s.Saved(), s.effects, i)
    ensures r.Gone? <==> !s.alive
    ensures r.Returned? ==> next == Report(s.Saved(), s.count)
    ensures Changes(s.script, s.effects, i, remove, old(s.tick), old(s.journal.poisoned))
    ensures r.Returned? && next[i].Applied? <==> AllPoints(s.script, remove, old(s.tick), old(s.journal.poisoned))
    ensures r.Returned? && next[i].Applied? ==> s.tick == old(s.tick) + Points(remove) && !s.journal.poisoned
    ensures !old(s.journal.poisoned) ==> ClosedAs(s, i, remove)
  {
    var closing;
    r, next, closing := AttemptOne(s, i, remove, results);
    if r.Returned? || r.Gone? { return; }
    r, next := Save(s, i, closing, next);
  }

  /** Every point up to the commit of file `j` goes well. */
  ghost predicate Reaches(script: nat -> Event, t: nat, removes: seq<bool>, poisoned: bool, j: nat)
    requires j < |removes|
  {
    var commit := StartOf(t, removes, j) + Guards(removes[j]) + 2;
    !poisoned && commit >= t && AllGo(script, t, commit - t) && Happens(script(commit))
  }

  ghost predicate ChangedExactly(script: nat -> Event, t: nat, removes: seq<bool>, poisoned: bool, effects: set<nat>) {
    forall j: nat :: j < |removes| ==> (j in effects <==> Reaches(script, t, removes, poisoned, j))
  }

  ghost predicate AllPointsGo(script: nat -> Event, t: nat, removes: seq<bool>) {
    StartOf(t, removes, |removes|) >= t && AllGo(script, t, StartOf(t, removes, |removes|) - t)
  }

  lemma {:induction false} StartsLater(t: nat, removes: seq<bool>, i: nat, j: nat)
    requires i <= j <= |removes|
    ensures StartOf(t, removes, i) <= StartOf(t, removes, j)
    ensures t + |removes| <= StartOf(t, removes, i)
    ensures i < j ==> StartOf(t, removes, i) + Points(removes[i]) <= StartOf(t, removes, j)
    decreases j
  {
    if i < j {
      StartsLater(t, removes, i, j - 1);
    } else if i > 0 {
      StartsLater(t, removes, i - 1, i - 1);
    }
  }

  lemma AllGoPart(script: nat -> Event, from: nat, n: nat, part: nat, m: nat)
    requires from <= part && part + m <= from + n
    ensures AllGo(script, from, n) ==> AllGo(script, part, m)
  {
  }

  /** The check of all files failed at file `k`. */
  lemma ExactWhenRefused(script: nat -> Event, t: nat, removes: seq<bool>, poisoned: bool, k: nat)
    requires k < |removes| && !script(t + k).Proceed?
    ensures ChangedExactly(script, t, removes, poisoned, {})
    ensures !AllPointsGo(script, t, removes)
  {
    StartsLater(t, removes, |removes|, |removes|);
    forall j: nat | j < |removes|
      ensures !Reaches(script, t, removes, poisoned, j)
    {
      StartsLater(t, removes, j, j);
    }
  }

  lemma NotChecked(script: nat -> Event, t: nat, removes: seq<bool>, poisoned: bool)
    requires !AllGo(script, t, |removes|)
    ensures ChangedExactly(script, t, removes, poisoned, {}) && !AllPointsGo(script, t, removes)
  {
    var at: nat :| t <= at < t + |removes| && !script(at).Proceed?;
    ExactWhenRefused(script, t, removes, poisoned, at - t);
  }

  /** The first `i` files are done, and everything went well. */
  ghost predicate GoneUpTo(script: nat -> Event, t: nat, removes: seq<bool>, poisoned: bool, tick: nat, i: nat)
    requires i <= |removes|
  {
    (i > 0 ==> !poisoned) && tick == StartOf(t, removes, i) >= t && AllGo(script, t, tick - t)
  }

  lemma OneMoreGone(script: nat -> Event, t: nat, removes: seq<bool>, poisoned: bool, i: nat)
    requires i < |removes| && GoneUpTo(script, t, removes, poisoned, StartOf(t, removes, i), i)
    requires !poisoned && AllGo(script, StartOf(t, removes, i), Points(removes[i]))
    ensures GoneUpTo(script, t, removes, poisoned, StartOf(t, removes, i) + Points(removes[i]), i + 1)
  {
    AllGoSplit(script, t, StartOf(t, removes, i) - t, Points(removes[i]));
  }

  /** The execution stopped at file `i`. */
  lemma ExactWhenStopped(script: nat -> Event, t: nat, removes: seq<bool>, poisoned: bool, effects: set<nat>, i: nat)
    requires i < |removes| && GoneUpTo(script, t, removes, poisoned, StartOf(t, removes, i), i)
    requires forall j: nat :: j < i ==> j in effects
    requires forall j: nat :: j > i ==> j !in effects
    requires var start, commit := StartOf(t, removes, i), Guards(removes[i]) + 2;
             i in effects <==> !poisoned && AllGo(script, start, commit) && Happens(script(start + commit))
    requires poisoned || !AllGo(script, StartOf(t, removes, i), Points(removes[i]))
    ensures ChangedExactly(script, t, removes, poisoned, effects)
    ensures poisoned || !AllPointsGo(script, t, removes)
  {
    var start := StartOf(t, removes, i);
    forall j: nat | j < |removes|
      ensures j in effects <==> Reaches(script, t, removes, poisoned, j)
    {
      StartsLater(t, removes, j, j);
      if j < i {
        StartsLater(t, removes, j, i);
      } else if j == i {
        AllGoSplit(script, t, start - t, Guards(removes[i]) + 2);
      } else {
        StartsLater(t, removes, i, j);
        var commit := StartOf(t, removes, j) + Guards(removes[j]) + 2;
        AllGoPart(script, t, commit - t, start, Points(removes[i]));
      }
    }
    StartsLater(t, removes, i, |removes|);
    AllGoPart(script, t, StartOf(t, removes, |removes|) - t, start, Points(removes[i]));
  }

  lemma ExactWhenDone(script: nat -> Event, t: nat, removes: seq<bool>, poisoned: bool, effects: set<nat>)
    requires GoneUpTo(script, t, removes, poisoned, StartOf(t, removes, |removes|), |removes|)
    requires forall j: nat :: j < |removes| ==> j in effects
    ensures ChangedExactly(script, t, removes, poisoned, effects)
  {
    forall j: nat | j < |removes|
      ensures Reaches(script, t, removes, poisoned, j)
    {
      StartsLater(t, removes, j, |removes|);
    }
  }

  /** Between two files: everything before went well, and this is where the run stands. */
  ghost predicate Doing(script: nat -> Event, t: nat, removes: seq<bool>, poisoned: bool, saved: map<nat, Status>,
                        effects: set<nat>, tick: nat, i: nat)
    requires i <= |removes|
  {
    Between(saved, effects, i) && GoneUpTo(script, t, removes, poisoned, tick, i)
  }

  /** Where a run ended: statuses and effects agree, in order, and exactly the files were changed that had to be. */
  ghost predicate Did(script: nat -> Event, t: nat, removes: seq<bool>, poisoned: bool, saved: map<nat, Status>,
                      effects: set<nat>)
  {
    && (forall i <- saved :: i < |removes|) && Bracketed(saved, effects) && InOrder(saved, effects)
    && ChangedExactly(script, t, removes, poisoned, effects)
  }

  /** One file more. */
  lemma AfterOne(script: nat -> Event, t: nat, removes: seq<bool>, poisoned: bool, was: map<nat, Status>, had: set<nat>,
                 saved: map<nat, Status>, effects: set<nat>, tick: nat, i: nat)
    requires i < |removes| && Doing(script, t, removes, poisoned, was, had, tick, i)
    requires OneFile(was, had, saved, effects, i) && Changes(script, effects, i, removes[i], tick, poisoned)
    ensures AllPoints(script, removes[i], tick, poisoned) && i in saved && saved[i].Applied? ==>
              Doing(script, t, removes, poisoned, saved, effects, tick + Points(removes[i]), i + 1)
    ensures !AllPoints(script, removes[i], tick, poisoned) ==>
              Did(script, t, removes, poisoned, saved, effects) && (poisoned || !AllPointsGo(script, t, removes))
  {
    OneFileBrackets(was, had, saved, effects, i);
    if AllPoints(script, removes[i], tick, poisoned) {
      OneMoreGone(script, t, removes, poisoned, i);
    } else {
      ExactWhenStopped(script, t, removes, poisoned, effects, i);
      assert InOrderUpTo(saved, effects, i);
    }
  }

  lemma AfterAll(script: nat -> Event, t: nat, removes: seq<bool>, poisoned: bool, saved: map<nat, Status>,
                 effects: set<nat>, tick: nat)
    requires Doing(script, t, removes, poisoned, saved, effects, tick, |removes|)
    ensures Did(script, t, removes, poisoned, saved, effects) && AllPointsGo(script, t, removes)
  {
    ExactWhenDone(script, t, removes, poisoned, effects);
    assert InOrderUpTo(saved, effects, |removes|);
  }

  /** All files are as expected. */
  ghost predicate Checked(s: Session, t: nat) {
    AllGo(s.script, t, s.count)
  }

  /** The first file that is not as expected: nothing was changed, and at most that file got a status. */
  twostate predicate StoppedAt(s: Session, k: nat, status: Status, r: Ending)
    reads s, s.journal
  {
    && s.effects == {} && (s.Saved() == map[] || s.Saved() == map[k := status])
    && (!old(s.journal.poisoned) && !s.script(old(s.tick) + k).Die? && !s.script(old(s.tick) + k).DieAfter?
        && s.script(old(s.tick) + k + 1).Proceed? ==>
          r.Returned? && s.Saved() == map[k := status])
  }

  lemma OnlyFirst(script: nat -> Event, t: nat, i: nat)
    requires AllGo(script, t, i) && !script(t + i).Proceed?
    ensures forall k: nat :: AllGo(script, t, k) && !script(t + k).Proceed? ==> k == i
    ensures forall n: nat :: n > i ==> !AllGo(script, t, n)
  {
  }

  /** Checks every file before the first one is touched; `refused` is the status of a file that is not as expected. */
  method CheckAll(s: Session, refused: seq<Status>, initial: seq<Status>)
    returns (r: Ending, results: seq<Status>, checked: bool, ghost bad: nat)
    requires s.alive && s.Ready() && s.Saved() == map[] && s.effects == {} && |refused| == s.count
    requires initial == Report(map[], s.count)
    requires forall status <- refused :: status.Conflict? || status.Canceled?
    modifies s`tick, s`alive, s.journal`db, s.journal`poisoned
    ensures s.Ready() && OnlyFiles(s) && s.Sane()
    ensures r.Gone? <==> !s.alive
    ensures checked <==> Checked(s, old(s.tick))
    ensures checked ==> r.Returned? && s.Saved() == map[] && s.tick == old(s.tick) + s.count
    ensures checked ==> s.journal.poisoned == old(s.journal.poisoned) && results == initial
    ensures r.Returned? ==> results == Report(s.Saved(), s.count)
    ensures !checked ==> bad < s.count && AllGo(s.script, old(s.tick), bad) && !s.script(old(s.tick) + bad).Proceed?
    ensures !checked ==> StoppedAt(s, bad, refused[bad], r) && (r.Returned? ==> !results[bad].Applied?)
  {
    results, checked, r, bad := initial, false, Returned, 0;
    for i := 0 to s.count
      invariant s.alive && s.Ready() && OnlyFiles(s) && s.Saved() == map[] && results == initial && r.Returned?
      invariant s.tick == old(s.tick) + i && AllGo(s.script, old(s.tick), i)
      invariant s.journal.poisoned == old(s.journal.poisoned)
    {
      r := s.Look();
      if !r.Returned? {
        bad := i;
        if r.Gone? { return; }
        assert refused[i] in refused;
        r, results := Save(s, i, refused[i], results);
        return;
      }
    }
    checked := true;
  }

  /** Executes the files one after the other and stops at the first that is not applied. */
  method ExecuteFiles(s: Session, removes: seq<bool>, initial: seq<Status>, ghost t: nat)
    returns (r: Ending, results: seq<Status>)
    requires s.alive && s.Ready() && s.Saved() == map[] && s.effects == {} && |removes| == s.count
    requires Checked(s, t) && s.tick == t + s.count && initial == Report(map[], s.count)
    modifies s, s.journal`db, s.journal`poisoned
    ensures s.Ready() && OnlyFiles(s)
    ensures Did(s.script, t, removes, old(s.journal.poisoned), s.Saved(), s.effects)
    ensures r.Returned? ==> results == Report(s.Saved(), s.count)
    ensures r.Gone? <==> !s.alive
    ensures r.Returned? && (forall i :: 0 <= i < s.count ==> results[i].Applied?) <==>
              (s.count == 0 || !old(s.journal.poisoned)) && AllPointsGo(s.script, t, removes)
  {
    ghost var poisoned := s.journal.poisoned;
    results := initial;
    for i := 0 to s.count
      invariant s.alive && s.Ready() && OnlyFiles(s) && results == Report(s.Saved(), s.count)
      invariant s.journal.poisoned == poisoned && i <= s.count
      invariant Doing(s.script, t, removes, poisoned, s.Saved(), s.effects, s.tick, i)
      invariant i > 0 ==> !poisoned
    {
      ghost var was, had, start := s.Saved(), s.effects, s.tick;
      r, results := ExecuteOne(s, i, removes[i], results);
      AfterOne(s.script, t, removes, poisoned, was, had, s.Saved(), s.effects, start, i);
      if !r.Returned? || !results[i].Applied? {
        return;
      }
    }
    AfterAll(s.script, t, removes, poisoned, s.Saved(), s.effects, s.tick);
    r := Returned;
  }

  /**
   * Runs the changeset. Wherever it stops, the durable statuses bracket the effects; a run that comes back
   * returns what it saved.
   */
  method Execute(s: Session, removes: seq<bool>) returns (r: Ending, results: seq<Status>)
    requires s.alive && s.Ready() && s.Saved() == map[] && s.effects == {} && |removes| == s.count
    modifies s, s.journal`db, s.journal`poisoned
    ensures s.Ready() && OnlyFiles(s) && s.Sane()
    ensures r.Returned? ==> results == Report(s.Saved(), s.count)
    ensures r.Gone? <==> !s.alive
    // The first file that is not as expected leaves all files as they were; otherwise they are taken in order.
    ensures forall k: nat :: k < s.count && AllGo(s.script, old(s.tick), k) && !s.script(old(s.tick) + k).Proceed? ==>
              StoppedAt(s, k, Conflict, r)
    ensures Checked(s, old(s.tick)) ==> InOrder(s.Saved(), s.effects)
    // A file is changed exactly if every point up to its commit goes well.
    ensures ChangedExactly(s.script, old(s.tick), removes, old(s.journal.poisoned), s.effects)
    // Everything is applied exactly if every point goes well.
    ensures r.Returned? && (forall i :: 0 <= i < s.count ==> results[i].Applied?) <==>
              (s.count == 0 || !old(s.journal.poisoned)) && AllPointsGo(s.script, old(s.tick), removes)
  {
    var checked;
    ghost var bad;
    r, results, checked, bad := CheckAll(s, seq(s.count, _ => Conflict), Report(map[], s.count));
    if !checked {
      OnlyFirst(s.script, old(s.tick), bad);
      NotChecked(s.script, old(s.tick), removes, old(s.journal.poisoned));
      return;
    }
    r, results := ExecuteFiles(s, removes, results, old(s.tick));
  }

  // ----- Organizing files with the native helper

  lemma PlanSplit(script: nat -> Event, t: nat)
    ensures AllGo(script, t, 2) <==> script(t).Proceed? && script(t + 1).Proceed?
    ensures AllGo(script, t, 4) <==> AllGo(script, t, 2) && script(t + 2).Proceed? && script(t + 3).Proceed?
  {
    AllGoSplit(script, t, 2, 2);
  }

  /** Without authority or after an abort a file is canceled; a refused native step is a conflict, or canceled too. */
  ghost predicate PlanClosedAs(s: Session, i: nat, aborted: bool, abortedSince: bool, t: nat)
    reads s, s.journal
  {
    && (s.script(if aborted then t else t + 1).Proceed? && (aborted || s.script(t).Deny?) ==>
          i in s.Saved() && s.Saved()[i] == Canceled)
    && (!aborted && AllGo(s.script, t, 2) && s.script(t + 2).Deny? && s.script(t + 3).Proceed? ==>
          i in s.Saved() && s.Saved()[i] == if abortedSince then Canceled else Conflict)
  }

  /** What closes a file whose native step failed: only the helper's own report tells that it had no effect. */
  function ClosingOf(r: Ending, abortedSince: bool): Status {
    if !r.Refused? then Status.Unknown else if abortedSince then Canceled else Conflict
  }

  /** One file: the helper's report says whether it failed without touching a name; the abort signal may come late. */
  method OrganizeOne(s: Session, i: nat, aborted: bool, abortedSince: bool, results: seq<Status>)
    returns (r: Ending, next: seq<Status>)
    requires s.alive && s.Ready() && i < s.count && Between(s.Saved(), s.effects, i)
    requires results == Report(s.Saved(), s.count)
    modifies s, s.journal`db, s.journal`poisoned
    ensures s.Ready() && OnlyFiles(s)
    ensures OneFile(old(s.Saved()), old(s.effects), s.Saved(), s.effects, i)
    ensures r.Gone? <==> !s.alive
    ensures r.Returned? ==> next == Report(s.Saved(), s.count)
    ensures i in s.effects ==> !old(s.journal.poisoned) && Touches(s.script, aborted, old(s.tick))
    ensures r.Returned? && next[i].Applied? ==>
              && !aborted && !old(s.journal.poisoned) && AllGo(s.script, old(s.tick), 4)
              && s.tick == old(s.tick) + 4 && !s.journal.poisoned
    ensures !aborted && !old(s.journal.poisoned) && AllGo(s.script, old(s.tick), 4) && Smooth(s.jobs(i)) ==>
              r.Returned? && next[i].Applied?
    ensures !old(s.journal.poisoned) ==> PlanClosedAs(s, i, aborted, abortedSince, old(s.tick))
  {
    next := results;
    if aborted {
      r, next := Save(s, i, Canceled, next);
      return;
    }
    r, next := OrganizeWithAuthority(s, i, abortedSince, next);
  }

  /** The same while the plan is not aborted. */
  method OrganizeWithAuthority(s: Session, i: nat, abortedSince: bool, results: seq<Status>)
    returns (r: Ending, next: seq<Status>)
    requires s.alive && s.Ready() && i < s.count && Between(s.Saved(), s.effects, i)
    requires results == Report(s.Saved(), s.count)
    modifies s, s.journal`db, s.journal`poisoned
    ensures s.Ready() && OnlyFiles(s)
    ensures OneFile(old(s.Saved()), old(s.effects), s.Saved(), s.effects, i)
    ensures r.Gone? <==> !s.alive
    ensures r.Returned? ==> next == Report(s.Saved(), s.count)
    ensures i in s.effects ==> !old(s.journal.poisoned) && Touches(s.script, false, old(s.tick))
    ensures r.Returned? && next[i].Applied? ==>
              && !old(s.journal.poisoned) && AllGo(s.script, old(s.tick), 4)
              && s.tick == old(s.tick) + 4 && !s.journal.poisoned
    ensures !old(s.journal.poisoned) && AllGo(s.script, old(s.tick), 4) && Smooth(s.jobs(i)) ==>
              r.Returned? && next[i].Applied?
    ensures !old(s.journal.poisoned) ==> PlanClosedAs(s, i, false, abortedSince, old(s.tick))
  {
    PlanSplit(s.script, s.tick);
    var prepared;
    r, next, prepared := PrepareOne(s, i, results);
    if prepared {
      r, next := NativeOne(s, i, abortedSince, next, old(s.tick));
    }
  }

  /** The native step of a file prepared since point `t`, and the checkpoint after it. */
  method NativeOne(s: Session, i: nat, abortedSince: bool, results: seq<Status>, ghost t: nat)
    returns (r: Ending, next: seq<Status>)
    requires s.alive && s.Ready() && i < s.count && i in s.Saved() && s.Saved()[i].Prepared? && i !in s.effects
    requires results == Report(s.Saved(), s.count) && !s.journal.poisoned
    requires s.tick == t + 2 && AllGo(s.script, t, 2)
    modifies s, s.journal`db, s.journal`poisoned
    ensures s.Ready() && OnlyFiles(s)
    ensures i in s.Saved() && s.Saved() == old(s.Saved())[i := s.Saved()[i]]
    ensures s.effects == old(s.effects) || s.effects == old(s.effects) + {i}
    ensures s.Saved()[i].Applied? ==> i in s.effects
    ensures i in s.effects ==> s.Saved()[i].Applied? || Open(s.Saved()[i])
    ensures r.Gone? <==> !s.alive
    ensures r.Returned? ==> next == Report(s.Saved(), s.count)
    ensures i in s.effects ==> Touches(s.script, false, t)
    ensures r.Returned? && next[i].Applied? ==> AllGo(s.script, t, 4) && s.tick == t + 4 && !s.journal.poisoned
    ensures AllGo(s.script, t, 4) && Smooth(s.jobs(i)) ==> r.Returned? && next[i].Applied?
    ensures PlanClosedAs(s, i, false, abortedSince, t)
  {
    PlanSplit(s.script, t);
    next := results;
    r := s.Native(i);
    if r.Gone? { return; }
    r, next := CloseOne(s, i, r, abortedSince, next);
  }

  /** Applied if the helper is done; otherwise, or if that cannot be saved, what its report leaves open. */
  method CloseOne(s: Session, i: nat, native: Ending, abortedSince: bool, results: seq<Status>)
    returns (r: Ending, next: seq<Status>)
    requires s.alive && s.Ready() && i < s.count && i in s.Saved() && s.Saved()[i].Prepared?
    requires results == Report(s.Saved(), s.count) && !s.journal.poisoned
    modifies s`tick, s`alive, s.journal`db, s.journal`poisoned
    ensures s.Ready() && OnlyFiles(s)
    ensures s.Saved() == old(s.Saved()) || s.Saved() == old(s.Saved())[i := ClosingOf(native, abortedSince)]
            || (native.Returned? && s.Saved() == old(s.Saved())[i := Applied])
    ensures r.Gone? <==> !s.alive
    ensures r.Returned? ==> next == Report(s.Saved(), s.count) && !s.journal.poisoned
    ensures r.Returned? && next[i].Applied? <==> native.Returned? && s.script(old(s.tick)).Proceed?
    ensures r.Returned? && next[i].Applied? ==> s.tick == old(s.tick) + 1
    ensures (if native.Returned? then s.script(old(s.tick)).Deny? && s.script(old(s.tick) + 1).Proceed?
             else s.script(old(s.tick)).Proceed?) ==>
              s.Saved() == old(s.Saved())[i := ClosingOf(native, abortedSince)]
  {
    next := results;
    if native.Returned? {
      r, next := Save(s, i, Applied, next);
      if r.Gone? || r.Returned? { return; }
    }
    r, next := Save(s, i, ClosingOf(native, abortedSince), next);
  }

  /** All points of a plan go well: each file's check, and then authority, prepared, the native step and applied. */
  ghost predicate PlanGoes(s: Session, t: nat, aborted: seq<bool>)
    requires |aborted| == s.count
  {
    && AllGo(s.script, t, 5 * s.count)
    && (forall i :: 0 <= i < s.count ==> !aborted[i])
    && (forall i: nat :: i < s.count ==> Smooth(s.jobs(i)))
  }

  /** Runs the plan; `surveyed`, `aborted` and `abortedSince` are the abort signal as each step reads it. */
  method Organize(s: Session, surveyed: seq<bool>, aborted: seq<bool>, abortedSince: seq<bool>)
    returns (r: Ending, results: seq<Status>)
    requires s.alive && s.Ready() && s.Saved() == map[] && s.effects == {}
    requires |surveyed| == |aborted| == |abortedSince| == s.count
    modifies s, s.journal`db, s.journal`poisoned
    ensures s.Ready() && OnlyFiles(s) && s.Sane()
    ensures r.Returned? ==> results == Report(s.Saved(), s.count)
    ensures r.Gone? <==> !s.alive
    // The first file that is not as expected leaves all files as they were; otherwise they are taken in order.
    ensures forall k: nat :: k < s.count && AllGo(s.script, old(s.tick), k) && !s.script(old(s.tick) + k).Proceed? ==>
              StoppedAt(s, k, if surveyed[k] then Canceled else Conflict, r)
    ensures Checked(s, old(s.tick)) ==> InOrder(s.Saved(), s.effects)
    // A file is touched only if every point before it went well and nothing was aborted until then.
    ensures forall i: nat :: i < s.count && i in s.effects ==> MayTouch(s.script, old(s.tick), aborted, i)
    // Everything is applied if every point goes well.
    ensures !old(s.journal.poisoned) && PlanGoes(s, old(s.tick), aborted) ==>
              r.Returned? && forall i :: 0 <= i < s.count ==> results[i].Applied?
  {
    var checked;
    ghost var bad;
    r, results, checked, bad := CheckAll(s, seq(s.count, i requires 0 <= i < s.count =>
                                                 if surveyed[i] then Canceled else Conflict), Report(map[], s.count));
    if !checked {
      OnlyFirst(s.script, old(s.tick), bad);
    } else {
      r, results := OrganizeFiles(s, aborted, abortedSince, results, old(s.tick));
    }
  }

  ghost predicate MayTouch(script: nat -> Event, t: nat, aborted: seq<bool>, i: nat)
    requires i < |aborted|
  {
    var n := |aborted| + 4 * i + 2;
    && AllGo(script, t, n) && !script(t + n).Deny? && !script(t + n).Die?
    && forall j :: 0 <= j <= i ==> !aborted[j]
  }

  /** Where a plan ended: statuses and effects agree, in order, and no file was touched that may not be. */
  ghost predicate PlanDid(script: nat -> Event, t: nat, aborted: seq<bool>, saved: map<nat, Status>,
                          effects: set<nat>) {
    && (forall i <- saved :: i < |aborted|) && Bracketed(saved, effects) && InOrder(saved, effects)
    && forall i: nat :: i < |aborted| && i in effects ==> MayTouch(script, t, aborted, i)
  }

  /** What the point of the native step of one file was like. */
  ghost predicate Touches(script: nat -> Event, aborted: bool, tick: nat) {
    !aborted && AllGo(script, tick, 2) && !script(tick + 2).Deny? && !script(tick + 2).Die?
  }

  /** One file more. */
  lemma AfterPlanOne(script: nat -> Event, t: nat, aborted: seq<bool>, was: map<nat, Status>, had: set<nat>,
                     saved: map<nat, Status>, effects: set<nat>, tick: nat, i: nat)
    requires i < |aborted| && Between(was, had, i) && PlanUpTo(script, t, aborted, tick, i)
    requires OneFile(was, had, saved, effects, i) && (i in effects ==> Touches(script, aborted[i], tick))
    ensures PlanDid(script, t, aborted, saved, effects)
    ensures i in saved && saved[i].Applied? && !aborted[i] && AllGo(script, tick, 4) ==>
              Between(saved, effects, i + 1) && PlanUpTo(script, t, aborted, tick + 4, i + 1)
  {
    OneFileBrackets(was, had, saved, effects, i);
    assert InOrderUpTo(saved, effects, i);
    MayTouchBefore(script, t, aborted, i);
    AllGoSplit(script, t, |aborted| + 4 * i, 2);
    AllGoSplit(script, t, |aborted| + 4 * i, 4);
    forall j: nat | j < |aborted| && j in effects
      ensures MayTouch(script, t, aborted, j)
    {
    }
  }

  lemma AfterPlan(script: nat -> Event, t: nat, aborted: seq<bool>, saved: map<nat, Status>, effects: set<nat>,
                  tick: nat)
    requires Between(saved, effects, |aborted|) && PlanUpTo(script, t, aborted, tick, |aborted|)
    ensures PlanDid(script, t, aborted, saved, effects)
  {
    assert InOrderUpTo(saved, effects, |aborted|);
    MayTouchBefore(script, t, aborted, |aborted|);
  }

  /** Organizes the files one after the other and stops at the first that is not applied. */
  method OrganizeFiles(s: Session, aborted: seq<bool>, abortedSince: seq<bool>, initial: seq<Status>, ghost t: nat)
    returns (r: Ending, results: seq<Status>)
    requires s.alive && s.Ready() && s.Saved() == map[] && s.effects == {} && |aborted| == |abortedSince| == s.count
    requires Checked(s, t) && s.tick == t + s.count && initial == Report(map[], s.count)
    modifies s, s.journal`db, s.journal`poisoned
    ensures s.Ready() && OnlyFiles(s) && PlanDid(s.script, t, aborted, s.Saved(), s.effects)
    ensures r.Returned? ==> results == Report(s.Saved(), s.count)
    ensures r.Gone? <==> !s.alive
    ensures !old(s.journal.poisoned) && PlanGoes(s, t, aborted) ==>
              r.Returned? && forall i :: 0 <= i < s.count ==> results[i].Applied?
  {
    ghost var poisoned, goes := s.journal.poisoned, !s.journal.poisoned && PlanGoes(s, t, aborted);
    results := initial;
    for i := 0 to s.count
      invariant s.alive && s.Ready() && OnlyFiles(s) && results == Report(s.Saved(), s.count)
      invariant s.journal.poisoned == poisoned && i <= s.count
      invariant Between(s.Saved(), s.effects, i) && PlanUpTo(s.script, t, aborted, s.tick, i)
    {
      ghost var was, had, start := s.Saved(), s.effects, s.tick;
      r, results := OrganizeOne(s, i, aborted[i], abortedSince[i], results);
      AfterPlanOne(s.script, t, aborted, was, had, s.Saved(), s.effects, start, i);
      if !r.Returned? || !results[i].Applied? {
        PlanPoints(s, t, aborted, i);
        assert !goes;
        return;
      }
    }
    AfterPlan(s.script, t, aborted, s.Saved(), s.effects, s.tick);
    r := Returned;
  }

  /** The first `i` files of the plan are done. */
  ghost predicate PlanUpTo(script: nat -> Event, t: nat, aborted: seq<bool>, tick: nat, i: nat)
    requires i <= |aborted|
  {
    tick == t + |aborted| + 4 * i && AllGo(script, t, |aborted| + 4 * i) && forall j :: 0 <= j < i ==> !aborted[j]
  }

  lemma MayTouchBefore(script: nat -> Event, t: nat, aborted: seq<bool>, i: nat)
    requires i <= |aborted| && PlanUpTo(script, t, aborted, t + |aborted| + 4 * i, i)
    ensures forall j: nat :: j < i ==> MayTouch(script, t, aborted, j)
  {
    forall j: nat | j < i
      ensures MayTouch(script, t, aborted, j)
    {
      AllGoPart(script, t, |aborted| + 4 * i, t, |aborted| + 4 * j + 2);
    }
  }

  /** The points of one file among those of the whole plan. */
  lemma PlanPoints(s: Session, t: nat, aborted: seq<bool>, i: nat)
    requires i < |aborted| == s.count
    ensures PlanGoes(s, t, aborted) ==>
              AllGo(s.script, t + s.count + 4 * i, 4) && !aborted[i] && Smooth(s.jobs(i))
  {
    AllGoPart(s.script, t, 5 * s.count, t + s.count + 4 * i, 4);
  }

  // ----- Crash and reopen

  /** The rows a new process finds active. */
  method ActiveRows(db: Db) returns (rows: seq<Op>)
    ensures forall op: Op :: op in rows <==> Active(db, op)
  {
    rows := [];
    var left := db.entries.Keys;
    while left != {}
      invariant left <= db.entries.Keys
      invariant forall op: Op :: op in rows <==> Active(db, op) && op !in left
      decreases |left|
    {
      var op :| op in left;
      left := left - {op};
      if Active(db, op) {
        rows := rows + [op];
      }
    }
  }

  /**
   * Stop a changeset anywhere, reopen the journal, let that recovery be cut short after any number of rows, and
   * reopen it again: the operation is over, with one receipt more than before, and that receipt is true.
   */
  method StopAndReopen(s: Session, removes: seq<bool>, stopAfter: nat) returns (db: Db)
    requires s.alive && s.Ready() && s.Saved() == map[] && s.effects == {} && |removes| == s.count
    modifies s, s.journal`db, s.journal`poisoned
    ensures var receipts, before := ReceiptsOf(db.outbox, s.op), old(ReceiptsOf(s.journal.db.outbox, s.op));
            |receipts| == |before| + 1 && Truthful(receipts[|receipts| - 1], s.effects, s.count)
    ensures forall op: Op :: !Active(db, op)
  {
    var _, _ := Execute(s, removes);
    db := ReopenTwice(s.journal.db, stopAfter, s.op, s.count, s.effects);
  }

  /** The same for the executor of native copies and moves. */
  method StopPlanAndReopen(s: Session, surveyed: seq<bool>, aborted: seq<bool>, abortedSince: seq<bool>, stopAfter: nat)
    returns (db: Db)
    requires s.alive && s.Ready() && s.Saved() == map[] && s.effects == {}
    requires |surveyed| == |aborted| == |abortedSince| == s.count
    modifies s, s.journal`db, s.journal`poisoned
    ensures var receipts, before := ReceiptsOf(db.outbox, s.op), old(ReceiptsOf(s.journal.db.outbox, s.op));
            |receipts| == |before| + 1 && Truthful(receipts[|receipts| - 1], s.effects, s.count)
    ensures forall op: Op :: !Active(db, op)
  {
    var _, _ := Organize(s, surveyed, aborted, abortedSince);
    db := ReopenTwice(s.journal.db, stopAfter, s.op, s.count, s.effects);
  }

  method ReopenTwice(db: Db, stopAfter: nat, ghost op: Op, ghost count: nat, ghost effects: set<nat>) returns (post: Db)
    requires Running(db, op, count) && Bracketed(SavedFiles(db, op), effects)
    requires forall i <- SavedFiles(db, op) :: i < count
    ensures var receipts := ReceiptsOf(post.outbox, op);
            |receipts| == |ReceiptsOf(db.outbox, op)| + 1 && Truthful(receipts[|receipts| - 1], effects, count)
    ensures forall o: Op :: !Active(post, o)
  {
    var first := new BridgeJournal(db);
    var rows := ActiveRows(first.db);
    var complete := first.RecoverRows(rows, stopAfter);
    ghost var interrupted := if complete then rows else rows[..stopAfter];
    var second := new BridgeJournal(first.db);
    rows := ActiveRows(second.db);
    complete := second.RecoverRows(rows, |rows|);
    ReopenedChangeset(db, op, count, effects, interrupted, rows);
    post := second.db;
  }
}
