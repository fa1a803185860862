/**
 * The native helper's copy or move of one file: stage a copy, commit it under the target name, and only then
 * detach and remove the source. Other processes may change the source and the target at every turn; the
 * helper's private names are unpredictable to them.
 */
module NativeMove {
  import opened Options

  /** A file as its metadata and content tell it from every other. */
  datatype File = File(inode: nat, content: nat)

  datatype Name = Source | Target | Temporary | Quarantine

  /** What the four names hold. */
  datatype Dir = Dir(source: Option<File>, target: Option<File>, temporary: Option<File>, quarantine: Option<File>) {
    function At(name: Name): Option<File> {
      match name
      case Source => source
      case Target => target
      case Temporary => temporary
      case Quarantine => quarantine
    }
  }

  datatype Stage =
    | Validated | SourceVerified | TemporaryCreated | TemporarySynced
    | DestinationCommitted | SourceDetached | SourceRemoved | Complete

  /** What others do to the two public names before the next step, and how that step goes. */
  datatype Turn = Turn(source: Option<Option<File>>, target: Option<Option<File>>, goes: bool, killed: bool)

  datatype End = Finished | Threw | Killed

  datatype Report = Report(unknown: bool, recovery: Option<Name>, sourceRecovery: Option<Name>, sourceRemoved: bool)

  predicate Holds(file: Option<File>, content: nat) {
    file.Some? && file.value.content == content
  }

  /** Nobody else touches the names and the step goes ahead. */
  predicate Still(turn: Turn) {
    turn.source.None? && turn.target.None? && turn.goes && !turn.killed
  }

  predicate Goes(turn: Turn) {
    turn.goes && !turn.killed
  }

  /** The next `n` steps went ahead, whatever others did. */
  predicate Went(script: nat -> Turn, from: nat, n: nat) {
    n == 0 || (Went(script, from, n - 1) && Goes(script(from + n - 1)))
  }

  lemma {:induction false} WentOn(script: nat -> Turn, from: nat, m: nat, n: nat)
    ensures Went(script, from, m + n) <==> Went(script, from, m) && Went(script, from + m, n)
  {
    if n > 0 {
      WentOn(script, from, m, n - 1);
    }
  }

  lemma WentFew(script: nat -> Turn, from: nat)
    ensures Went(script, from, 1) <==> Goes(script(from))
    ensures Went(script, from, 2) <==> Goes(script(from)) && Goes(script(from + 1))
    ensures Went(script, from, 3) <==> Goes(script(from)) && Goes(script(from + 1)) && Goes(script(from + 2))
  {
  }

  /** What a public name holds after others took their turn. */
  function Now(was: Option<File>, change: Option<Option<File>>): Option<File> {
    if change.Some? then change.value else was
  }

  /** What the helper needs to get to the end: the expected source, a free target, and nobody in between. */
  ghost predicate Smooth(expected: nat, script: nat -> Turn, dir: Dir, same: bool) {
    (forall k :: Still(script(k))) && Holds(dir.source, expected) && dir.target.None? && !same
  }

  class Mutation {
    const expected: nat
    const script: nat -> Turn
    var dir: Dir
    var tick: nat
    var stage: Stage
    var sourceRemoved: bool
    var temporaryPath: bool
    var committed: bool
    var sourceRecovery: bool
    /** Whether the helper has created, renamed or removed anything. */
    ghost var touched: bool
    /** The directory as the others alone would have made it. */
    ghost var others: Dir
    /** Whether others have changed the source name between its verification and its detachment. */
    ghost var disturbed: bool
    /** Whether others have changed the target name since the commit. */
    ghost var lost: bool
    /** The file the helper committed, what the target name held at the last look, and the file it unlinked. */
    ghost var placed: Option<File>
    ghost var seen: Option<File>
    /** Whether the target name was free when the copy was made, and the source name when its file was unlinked. */
    ghost var targetFree: bool
    ghost var sourceFree: bool
    ghost var removed: Option<File>

    constructor (expected: nat, script: nat -> Turn, dir: Dir)
      requires dir.temporary.None? && dir.quarantine.None?
      ensures this.expected == expected && this.script == script && this.dir == dir
      ensures Valid() && Untouched() && stage.Validated? && tick == 0 && !touched
    {
      this.expected, this.script, this.dir, tick := expected, script, dir, 0;
      stage, sourceRemoved, temporaryPath, committed, sourceRecovery := Validated, false, false, false, false;
      touched, others, disturbed, lost, placed, seen, removed := false, dir, false, false, None, None, None;
      targetFree, sourceFree := false, false;
    }

    ghost predicate Untouched()
      reads this
    {
      !temporaryPath && !committed && !sourceRecovery && !sourceRemoved
    }

    /** Where no flag says otherwise, the directory is as the others made it, and what they put there is not lost. */
    ghost predicate Framed()
      reads this
    {
      && others.temporary.None? && others.quarantine.None?
      && (dir.target == others.target || (committed && dir.target == placed && others.target.None?))
      && (dir.source == others.source || ((sourceRecovery || sourceRemoved) && dir.source.None?))
      && (others.source.Some? ==>
            dir.source == others.source || (sourceRecovery && dir.quarantine == others.source)
              || removed == others.source)
    }

    /** The source is detached only after the commit, and unlinked only as verified and after the target was seen. */
    ghost predicate Staged()
      reads this
    {
      && (touched <==> temporaryPath || committed || sourceRecovery)
      && (temporaryPath <==> dir.temporary.Some?) && (sourceRecovery <==> dir.quarantine.Some?)
      && (committed <==> placed.Some?)
      && (touched ==> targetFree) && (sourceRemoved ==> sourceFree)
      && (committed ==> Holds(placed, expected) && !temporaryPath && (!lost ==> dir.target == placed))
      && (sourceRecovery || sourceRemoved ==> committed)
      && (sourceRemoved <==> removed.Some?)
      && (sourceRemoved ==> Holds(removed, expected) && !sourceRecovery && seen == placed)
    }

    /** Until it is unlinked the verified source is under its own name or detached, whatever happens to the target. */
    ghost predicate SourceThere()
      reads this
    {
      !stage.Validated? && !disturbed && !sourceRemoved ==>
        if sourceRecovery then Holds(dir.quarantine, expected) else Holds(dir.source, expected)
    }

    ghost predicate Valid()
      reads this
    {
      Framed() && Staged() && SourceThere()
    }

    /** The verified bytes are under the source, quarantine or target name. */
    ghost predicate BytesExist()
      reads this
    {
      Holds(dir.source, expected) || Holds(dir.quarantine, expected) || Holds(dir.target, expected)
    }

    /** A name holds a file that the others did not put there. */
    ghost predicate LeftBehind(name: Name)
      reads this
    {
      dir.At(name).Some? && dir.At(name) != others.At(name)
    }

    /** Others change the source name, the target name, both or none. */
    method TakeTurn(turn: Turn)
      requires Valid()
      modifies this`dir, this`disturbed, this`lost, this`others
      ensures Valid() && (old(disturbed) ==> disturbed) && (old(lost) ==> lost)
      ensures dir.temporary == old(dir.temporary) && dir.quarantine == old(dir.quarantine)
      ensures dir.source == Now(old(dir.source), turn.source) && dir.target == Now(old(dir.target), turn.target)
      ensures others.source == Now(old(others.source), turn.source)
      ensures others.target == Now(old(others.target), turn.target)
      ensures disturbed <==> old(disturbed) || (turn.source.Some? && !sourceRecovery && !sourceRemoved)
      ensures lost <==> old(lost) || turn.target.Some?
    {
      if turn.source.Some? {
        dir, others := dir.(source := turn.source.value), others.(source := turn.source.value);
        disturbed := disturbed || !(sourceRecovery || sourceRemoved);
      }
      if turn.target.Some? {
        dir, others := dir.(target := turn.target.value), others.(target := turn.target.value);
        lost := true;
      }
    }

    /** Others take their turn; then the step goes ahead, throws, or the process is killed. */
    method Await() returns (end: End)
      requires Valid()
      modifies this`dir, this`tick, this`disturbed, this`lost, this`others
      ensures Valid() && (old(disturbed) ==> disturbed) && (old(lost) ==> lost)
      ensures dir.temporary == old(dir.temporary) && dir.quarantine == old(dir.quarantine)
      ensures tick == old(tick) + 1
      ensures end == if script(old(tick)).killed then Killed else if script(old(tick)).goes then Finished else Threw
      ensures dir.source == Now(old(dir.source), script(old(tick)).source)
      ensures dir.target == Now(old(dir.target), script(old(tick)).target)
      ensures disturbed <==> old(disturbed) || (script(old(tick)).source.Some? && !sourceRecovery && !sourceRemoved)
      ensures lost <==> old(lost) || script(old(tick)).target.Some?
    {
      var turn := script(tick);
      tick := tick + 1;
      TakeTurn(turn);
      end := if turn.killed then Killed else if turn.goes then Finished else Threw;
    }

    /**
     * The report of a failure: it is `failed` exactly if the helper changed nothing, and an `unknown` report names
     * every file it left behind, a private one exactly if it is there.
     */
    method Failure() returns (r: Report)
      requires Valid()
      ensures r.unknown <==> touched
      ensures !r.unknown ==> dir == others && Untouched()
      ensures r.recovery == Some(Temporary) <==> dir.temporary.Some?
      ensures r.recovery == Some(Target) <==> placed.Some?
      ensures r.sourceRecovery == Some(Quarantine) <==> dir.quarantine.Some?
      ensures forall name: Name ::
                LeftBehind(name) ==> r.unknown && (r.recovery == Some(name) || r.sourceRecovery == Some(name))
      ensures r.sourceRemoved == sourceRemoved
    {
      r := Report(temporaryPath || committed || sourceRecovery,
                  if committed then Some(Target) else if temporaryPath then Some(Temporary) else None,
                  if sourceRecovery then Some(Quarantine) else None,
                  sourceRemoved);
    }

    /** Opens and hashes the source, and finds no destination. */
    method VerifySource() returns (end: End, verified: File)
      requires Valid() && stage.Validated? && Untouched()
      modifies this`dir, this`tick, this`disturbed, this`lost, this`others, this`stage
      ensures Valid()
      ensures end.Finished? ==> stage.SourceVerified? && verified.content == expected
      ensures end.Finished? ==> dir.source == Some(verified) && dir.target.None?
      ensures Smooth(expected, script, old(dir), false) ==> end.Finished?
      ensures tick == old(tick) + 1 && (end.Finished? ==> Went(script, old(tick), 1) && !disturbed)
      ensures !end.Finished? ==> stage.Validated?
      ensures script(old(tick)).killed ==> end.Killed?
    {
      WentFew(script, tick);
      verified := File(0, 0);
      end := Await();
      if !end.Finished? { return; }
      if dir.source.None? || dir.target.Some? || dir.source.value.content != expected { return Threw, verified; }
      verified := dir.source.value;
      disturbed := false;
      stage := SourceVerified;
    }

    /** Creates the private copy and fills it from the source. */
    method StageCopy(verified: File) returns (end: End)
      requires Valid() && stage.SourceVerified? && Untouched() && verified.content == expected
      modifies this
      ensures Valid() && !committed && !sourceRecovery && !sourceRemoved
      ensures end.Finished? ==> stage.TemporarySynced? && temporaryPath && Holds(dir.temporary, expected)
      ensures Smooth(expected, script, old(dir), false) && old(dir.source) == Some(verified) ==>
                end.Finished? && dir.source == old(dir.source) && dir.target.None?
      ensures end.Finished? ==> tick == old(tick) + 3 && Went(script, old(tick), 3) && dir.source == Some(verified)
      ensures touched ==> Goes(script(old(tick)))
    {
      WentFew(script, tick);
      end := Await();
      if !end.Finished? { return; }
      if dir.target.Some? { return Threw; }
      targetFree := dir.target.None?;
      dir := dir.(temporary := Some(File(tick, 0)));
      temporaryPath, touched, stage := true, true, TemporaryCreated;
      end := Await();
      if !end.Finished? { return; }
      dir := dir.(temporary := Some(dir.temporary.value.(content := expected)));
      end := Await();
      if !end.Finished? { return; }
      if dir.source != Some(verified) { return Threw; }
      stage := TemporarySynced;
    }

    /** Renames the copy to the target name, which must be free, and checks it there. */
    method CommitTarget(verified: File) returns (end: End)
      requires Valid() && stage.TemporarySynced? && temporaryPath && Holds(dir.temporary, expected)
      requires !committed && !sourceRecovery && !sourceRemoved
      modifies this
      ensures Valid() && !sourceRecovery && !sourceRemoved
      ensures end.Finished? ==> committed && stage.DestinationCommitted? && Holds(dir.target, expected)
      ensures end.Finished? ==> dir.source == Some(verified) && dir.target == placed
      ensures Smooth(expected, script, old(dir), false) && old(dir.source) == Some(verified) ==> end.Finished?
      ensures committed ==> Goes(script(old(tick))) && (lost <==> script(old(tick) + 1).target.Some?)
      ensures end.Finished? ==> tick == old(tick) + 2 && Went(script, old(tick), 2)
    {
      WentFew(script, tick);
      end := Await();
      if !end.Finished? { return; }
      if dir.target.Some? { return Threw; }
      var output := dir.temporary;
      placed, lost := output, false;
      dir := dir.(target := output, temporary := None);
      committed, temporaryPath, stage := true, false, DestinationCommitted;
      end := Await();
      if !end.Finished? { return; }
      if dir.target != output || dir.source != Some(verified) { end := Threw; }
    }

    /** Detaches whatever the source name now holds, and looks whether that is the verified file. */
    method DetachSource(verified: File, output: Option<File>) returns (end: End)
      requires Valid() && committed && !sourceRecovery && !sourceRemoved && stage.DestinationCommitted?
      requires verified.content == expected && output == placed
      modifies this
      ensures Valid() && committed && placed == old(placed) && !sourceRemoved
      ensures end.Finished? ==> sourceRecovery && dir.quarantine == Some(verified) && seen == output
      ensures (forall k :: Still(script(k))) && old(dir.source) == Some(verified) && old(dir.target) == output ==>
                end.Finished? && dir.source.None? && dir.target == output
      ensures sourceRecovery ==> Goes(script(old(tick)))
      ensures end.Finished? ==> tick == old(tick) + 2 && Went(script, old(tick), 2)
    {
      WentFew(script, tick);
      end := Await();
      if !end.Finished? { return; }
      if dir.source.None? { return Threw; }
      dir := dir.(quarantine := dir.source, source := None);
      sourceRecovery, stage := true, SourceDetached;
      end := Await();
      if !end.Finished? { return; }
      seen := dir.target;
      if dir.quarantine != Some(verified) || dir.target != output { end := Threw; }
    }

    /** Detaches the source name and removes what it held only if that is the verified file. */
    method RemoveSource(verified: File, output: Option<File>) returns (end: End)
      requires Valid() && committed && !sourceRecovery && !sourceRemoved && stage.DestinationCommitted?
      requires verified.content == expected && output == placed
      modifies this
      ensures Valid() && committed && placed == old(placed)
      ensures end.Finished? ==> sourceRemoved
      ensures sourceRemoved ==> removed == Some(verified)
      ensures (forall k :: Still(script(k))) && old(dir.source) == Some(verified) && old(dir.target) == output ==>
                end.Finished? && dir.target == output
      ensures sourceRemoved ==> Went(script, old(tick), 3)
      ensures end.Finished? ==> tick == old(tick) + 4 && Went(script, old(tick), 4) && dir.source.None?
    {
      end := DetachSource(verified, output);
      if !end.Finished? { return; }
      end := UnlinkSource(verified);
      WentFew(script, old(tick) + 2);
      WentOn(script, old(tick), 2, 1);
      WentOn(script, old(tick), 2, 2);
    }

    /** Unlinks the detached file once more finding the source name free, which it still must be afterwards. */
    method UnlinkSource(verified: File) returns (end: End)
      requires Valid() && committed && sourceRecovery && !sourceRemoved
      requires dir.quarantine == Some(verified) && verified.content == expected && seen == placed
      modifies this
      ensures Valid() && committed && placed == old(placed)
      ensures end.Finished? ==> sourceRemoved
      ensures sourceRemoved ==> removed == Some(verified)
      ensures (forall k :: Still(script(k))) && old(dir.source).None? ==> end.Finished? && dir.target == old(dir.target)
      ensures sourceRemoved ==> Goes(script(old(tick)))
      ensures end.Finished? ==> tick == old(tick) + 2 && Goes(script(old(tick) + 1)) && dir.source.None?
    {
      end := Await();
      if !end.Finished? { return; }
      if dir.source.Some? { return Threw; }
      removed, sourceFree := dir.quarantine, dir.source.None?;
      dir := dir.(quarantine := None);
      sourceRemoved, sourceRecovery, stage := true, false, SourceRemoved;
      end := Await();
      if end.Finished? && dir.source.Some? { end := Threw; }
    }

    /** Verifies the source, copies it and gives the copy the target name. */
    method PlaceCopy() returns (end: End, verified: File)
      requires Valid() && stage.Validated? && Untouched()
      modifies this
      ensures Valid() && !sourceRecovery && !sourceRemoved
      ensures end.Finished? ==> committed && stage.DestinationCommitted? && verified.content == expected
      ensures end.Finished? ==> dir.source == Some(verified) && dir.target == placed
      ensures end.Finished? ==> tick == old(tick) + 6 && Went(script, old(tick), 6)
      ensures Smooth(expected, script, old(dir), false) ==> end.Finished?
      ensures script(old(tick)).killed ==> end.Killed?
    {
      end, verified := VerifySource();
      if !end.Finished? { return; }
      end := StageCopy(verified);
      if !end.Finished? { return; }
      WentOn(script, old(tick), 1, 3);
      end := CommitTarget(verified);
      WentOn(script, old(tick), 4, 2);
    }

    /**
     * The whole mutation. Wherever it ends, by an error or killed at any turn: until the source is unlinked the
     * verified bytes are under the source or quarantine name, even if others destroy the target, unless others
     * changed the source before it was detached; and it is unlinked only after the target was seen to hold them.
     */
    method Execute(move: bool, same: bool) returns (end: End)
      requires Valid() && stage.Validated? && Untouched()
      modifies this
      ensures Valid()
      ensures end.Finished? ==> committed && Holds(dir.target, expected) && sourceRemoved == move
      ensures end.Finished? ==> !sourceRecovery && !temporaryPath
      ensures sourceRemoved ==> Holds(removed, expected) && Holds(seen, expected)
      ensures sourceRemoved || sourceRecovery ==> committed
      ensures !stage.Validated? && !disturbed && !sourceRemoved ==>
                Holds(dir.source, expected) || Holds(dir.quarantine, expected)
      ensures committed && !lost ==> Holds(dir.target, expected)
      ensures !stage.Validated? && !(disturbed && !committed) && !(lost && (disturbed || sourceRemoved)) ==>
              BytesExist()
      ensures Smooth(expected, script, old(dir), same) ==> end.Finished?
      ensures same ==> end.Threw? && dir == old(dir) && touched == old(touched)
      ensures script(old(tick)).killed && !same ==> end.Killed?
      ensures end.Finished? ==>
                var n := if move then 11 else 7;
                stage.Complete? && tick == old(tick) + n && Went(script, old(tick), n)
      ensures (touched ==> targetFree) && (sourceRemoved ==> sourceFree)
    {
      if same { return Threw; }
      var verified;
      end, verified := PlaceCopy();
      if !end.Finished? { return; }
      var output := dir.target;
      if move {
        end := RemoveSource(verified, output);
        if !end.Finished? { return; }
        WentOn(script, old(tick), 6, 4);
      }
      WentOn(script, old(tick), if move then 10 else 6, 1);
      WentFew(script, tick);
      end := Await();
      if !end.Finished? { return; }
      if dir.target != output { return Threw; }
      stage := Complete;
    }
  }
}
