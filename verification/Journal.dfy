/**
 * The device journal: operations, their receipts, their per-file checkpoints and their output, as an atomic
 * durable store. Every transaction is a function on the store; `Refused` means it changed nothing.
 */
module Journal {
  import Statuses

  type Op = nat

  datatype OpState = Received | Executing | Completed | Unknown

  /** What an operation asks for, as far as the journal distinguishes it. */
  datatype Capability =
    | FileChangeset(files: nat)
    | Process(offline: bool)
    | Python(offline: bool)
    | Pdf
    | Other

  datatype Entry = Entry(fingerprint: nat, capability: Capability, state: OpState)

  datatype Signal = Outcome(verdict: Statuses.Verdict) | Stopped | Uncertain

  datatype Receipt = Receipt(op: Op, signal: Signal, files: seq<Statuses.Status>, delivered: bool)

  /** A piece of output; `body` stands for the canonical text that is delivered. */
  datatype Chunk = Chunk(op: Op, sequence: nat, body: nat, bytes: nat, delivered: bool)

  datatype Db = Db(entries: map<Op, Entry>, outbox: seq<Receipt>,
                   files: map<Op, map<nat, Statuses.Status>>, output: seq<Chunk>)

  datatype Tx = Committed(db: Db) | Refused

  const MAXIMUM_OUTPUT: nat := 65_536

  predicate Active(db: Db, op: Op) {
    op in db.entries && (db.entries[op].state.Received? || db.entries[op].state.Executing?)
  }

  function Move(db: Db, op: Op, state: OpState): Db
    requires op in db.entries
  {
    db.(entries := db.entries[op := db.entries[op].(state := state)])
  }

  /** Appends a receipt and moves the operation in one transaction. */
  function Settle(db: Db, op: Op, signal: Signal, files: seq<Statuses.Status>): Db
    requires op in db.entries
  {
    Move(db, op, if signal.Uncertain? then Unknown else Completed)
      .(outbox := db.outbox + [Receipt(op, signal, files, false)])
  }

  // ----- Transactions

  function Receive(db: Db, op: Op, fingerprint: nat, capability: Capability, room: bool): Tx {
    if op in db.entries then
      if db.entries[op].fingerprint != fingerprint then Refused else Committed(db)
    else if !room then Refused
    else Committed(db.(entries := db.entries[op := Entry(fingerprint, capability, Received)]))
  }

  function Begin(db: Db, op: Op): Tx {
    if op in db.entries && db.entries[op].state.Received? then Committed(Move(db, op, Executing)) else Refused
  }

  /** An outcome, a stop or an uncertain end; `fits` says that the receipt is within its size limit. */
  function Conclude(db: Db, op: Op, signal: Signal, files: seq<Statuses.Status>, fits: bool): Tx {
    if Active(db, op) && fits then Committed(Settle(db, op, signal, files)) else Refused
  }

  /** Later evidence about an operation of unknown outcome; `matches` says that it fits the dispatch. */
  function Reconcile(db: Db, op: Op, signal: Signal, matches: bool, fits: bool): Tx {
    if && op in db.entries && db.entries[op].state.Unknown? && matches && fits && !signal.Uncertain?
       && (match db.entries[op].capability
           case Process(offline) => offline
           case Python(offline) => offline
           case Pdf => true
           case _ => false)
    then Committed(Settle(db, op, signal, []))
    else Refused
  }

  function SavedFiles(db: Db, op: Op): map<nat, Statuses.Status> {
    if op in db.files then db.files[op] else map[]
  }

  function Checkpoint(db: Db, op: Op, index: nat, status: Statuses.Status, matches: bool): Tx {
    if && op in db.entries && db.entries[op].state.Executing? && db.entries[op].capability.FileChangeset?
       && index < db.entries[op].capability.files && matches && !Statuses.Final(SavedFiles(db, op), index)
    then Committed(db.(files := db.files[op := SavedFiles(db, op)[index := status]]))
    else Refused
  }

  function OfOp(output: seq<Chunk>, op: Op): seq<Chunk> {
    if output == [] then []
    else
      var init, last := OfOp(output[..|output| - 1], op), output[|output| - 1];
      if last.op == op then init + [last] else init
  }

  /** One more than the highest sequence number, or 0. */
  function NextSequence(chunks: seq<Chunk>): nat {
    if chunks == [] then 0
    else
      var init, last := NextSequence(chunks[..|chunks| - 1]), chunks[|chunks| - 1];
      if last.sequence + 1 > init then last.sequence + 1 else init
  }

  function Bytes(chunks: seq<Chunk>): nat {
    if chunks == [] then 0 else Bytes(chunks[..|chunks| - 1]) + chunks[|chunks| - 1].bytes
  }

  predicate Has(chunks: seq<Chunk>, sequence: nat) {
    exists i :: 0 <= i < |chunks| && chunks[i].sequence == sequence
  }

  predicate Repeats(chunks: seq<Chunk>, sequence: nat, body: nat) {
    forall i :: 0 <= i < |chunks| && chunks[i].sequence == sequence ==> chunks[i].body == body
  }

  /** A repeated chunk must repeat itself; a new one must be the next, in budget, while the operation runs. */
  function RecordOutput(db: Db, op: Op, sequence: nat, body: nat, bytes: nat): Tx {
    if op !in db.entries || !db.entries[op].capability.Process? then Refused
    else
      var chunks := OfOp(db.output, op);
      if Has(chunks, sequence) then if Repeats(chunks, sequence, body) then Committed(db) else Refused
      else if && db.entries[op].state.Executing? && NextSequence(chunks) == sequence
              && Bytes(chunks) + bytes <= MAXIMUM_OUTPUT && sequence < 256
      then Committed(db.(output := db.output + [Chunk(op, sequence, body, bytes, false)]))
      else Refused
  }

  function Delivered(chunk: Chunk, op: Op, sequence: nat): Chunk {
    if chunk.op == op && chunk.sequence == sequence then chunk.(delivered := true) else chunk
  }

  function AcknowledgeOutput(db: Db, op: Op, sequence: nat): Tx {
    Committed(db.(output := seq(|db.output|, i requires 0 <= i < |db.output| => Delivered(db.output[i], op, sequence))))
  }

  function Acknowledge(db: Db, receipt: nat): Tx {
    if receipt < |db.outbox|
    then Committed(db.(outbox := db.outbox[receipt := db.outbox[receipt].(delivered := true)]))
    else Committed(db)
  }

  /** Receipts whose operation has no output left to deliver; `quiet` stands for its service events. */
  predicate Deliverable(db: Db, receipt: nat, quiet: bool)
    requires receipt < |db.outbox|
  {
    && !db.outbox[receipt].delivered && quiet
    && forall i :: 0 <= i < |db.output| && db.output[i].op == db.outbox[receipt].op ==> db.output[i].delivered
  }

  // ----- Recovery of one row

  predicate AnyUnknown(files: seq<Statuses.Status>) {
    exists i :: 0 <= i < |files| && files[i].Unknown?
  }

  function RecoveredSignal(db: Db, op: Op): Signal
    requires op in db.entries
  {
    var entry := db.entries[op];
    if entry.state.Received? then Outcome(Statuses.Failed)
    else if entry.capability.FileChangeset? then
      var files := Statuses.Recovered(SavedFiles(db, op), entry.capability.files);
      if AnyUnknown(files) then Uncertain else Outcome(Statuses.VerdictOf(files))
    else Uncertain
  }

  function RecoveredFiles(db: Db, op: Op): seq<Statuses.Status>
    requires op in db.entries
  {
    var entry := db.entries[op];
    if entry.state.Executing? && entry.capability.FileChangeset?
    then Statuses.Recovered(SavedFiles(db, op), entry.capability.files) else []
  }

  /** A row that was left active is closed from what is durable; nothing is executed again. */
  function Recover(db: Db, op: Op): Tx {
    if Active(db, op) then Committed(Settle(db, op, RecoveredSignal(db, op), RecoveredFiles(db, op))) else Refused
  }

  // ----- Runs

  datatype Step =
    | ReceiveStep(op: Op, fingerprint: nat, capability: Capability, room: bool)
    | BeginStep(op: Op)
    | ConcludeStep(op: Op, signal: Signal, files: seq<Statuses.Status>, fits: bool)
    | ReconcileStep(op: Op, signal: Signal, matches: bool, fits: bool)
    | CheckpointStep(op: Op, index: nat, status: Statuses.Status, matches: bool)
    | RecordStep(op: Op, sequence: nat, body: nat, bytes: nat)
    | AcknowledgeOutputStep(op: Op, sequence: nat)
    | AcknowledgeStep(receipt: nat)
    | RecoverStep(op: Op)

  function Attempt(db: Db, step: Step): Tx {
    match step
    case ReceiveStep(op, fingerprint, capability, room) => Receive(db, op, fingerprint, capability, room)
    case BeginStep(op) => Begin(db, op)
    case ConcludeStep(op, signal, files, fits) => Conclude(db, op, signal, files, fits)
    case ReconcileStep(op, signal, matches, fits) => Reconcile(db, op, signal, matches, fits)
    case CheckpointStep(op, index, status, matches) => Checkpoint(db, op, index, status, matches)
    case RecordStep(op, sequence, body, bytes) => RecordOutput(db, op, sequence, body, bytes)
    case AcknowledgeOutputStep(op, sequence) => AcknowledgeOutput(db, op, sequence)
    case AcknowledgeStep(receipt) => Acknowledge(db, receipt)
    case RecoverStep(op) => Recover(db, op)
  }

  function After(db: Db, step: Step): Db {
    var tx := Attempt(db, step);
    if tx.Committed? then tx.db else db
  }

  /** A run: transactions of any number of processes, with crashes and recoveries anywhere between them. */
  function Run(db: Db, steps: seq<Step>): Db {
    if steps == [] then db else After(Run(db, steps[..|steps| - 1]), steps[|steps| - 1])
  }

  const EMPTY: Db := Db(map[], [], map[], [])

  /** How often the operation was claimed for execution. */
  function Begun(db: Db, steps: seq<Step>, op: Op): nat {
    if steps == [] then 0
    else
      var init, last := steps[..|steps| - 1], steps[|steps| - 1];
      Begun(db, init, op) + if last == BeginStep(op) && Begin(Run(db, init), op).Committed? then 1 else 0
  }

  /** The signals of an operation's receipts, oldest first. */
  function Log(outbox: seq<Receipt>, op: Op): seq<Signal> {
    if outbox == [] then []
    else
      var init, last := Log(outbox[..|outbox| - 1], op), outbox[|outbox| - 1];
      if last.op == op then init + [last.signal] else init
  }

  // ----- Receipts

  ghost predicate LogFits(entries: map<Op, Entry>, log: seq<Signal>, op: Op) {
    if op !in entries || entries[op].state.Received? || entries[op].state.Executing? then log == []
    else if entries[op].state.Unknown? then log == [Uncertain]
    else || (|log| == 1 && !log[0].Uncertain?)
         || (|log| == 2 && log[0].Uncertain? && !log[1].Uncertain?)
  }

  ghost predicate LogsFit(db: Db) {
    forall op: Op :: LogFits(db.entries, Log(db.outbox, op), op)
  }

  lemma LogAppend(outbox: seq<Receipt>, receipt: Receipt, op: Op)
    ensures Log(outbox + [receipt], op) ==
            if receipt.op == op then Log(outbox, op) + [receipt.signal] else Log(outbox, op)
  {
    assert (outbox + [receipt])[..|outbox|] == outbox;
  }

  lemma {:induction false} LogAcknowledged(outbox: seq<Receipt>, i: nat, op: Op)
    requires i < |outbox|
    ensures Log(outbox[i := outbox[i].(delivered := true)], op) == Log(outbox, op)
  {
    var next := outbox[i := outbox[i].(delivered := true)];
    var n := |outbox| - 1;
    if i < n {
      LogAcknowledged(outbox[..n], i, op);
      assert next[..n] == outbox[..n][i := outbox[i].(delivered := true)];
    } else {
      assert next[..n] == outbox[..n];
    }
  }

  lemma SettleFits(db: Db, op: Op, signal: Signal, files: seq<Statuses.Status>)
    requires LogsFit(db) && op in db.entries
    requires Active(db, op) || (db.entries[op].state.Unknown? && !signal.Uncertain?)
    ensures LogsFit(Settle(db, op, signal, files))
  {
    var next := Settle(db, op, signal, files);
    forall o: Op
      ensures LogFits(next.entries, Log(next.outbox, o), o)
    {
      LogAppend(db.outbox, Receipt(op, signal, files, false), o);
      assert LogFits(db.entries, Log(db.outbox, o), o);
    }
  }

  lemma StepFits(db: Db, step: Step)
    requires LogsFit(db)
    ensures LogsFit(After(db, step))
  {
    match step
    case ConcludeStep(op, signal, files, fits) =>
      if Active(db, op) && fits { SettleFits(db, op, signal, files); }
    case ReconcileStep(op, signal, matches, fits) =>
      if Reconcile(db, op, signal, matches, fits).Committed? { SettleFits(db, op, signal, []); }
    case RecoverStep(op) =>
      if Active(db, op) { SettleFits(db, op, RecoveredSignal(db, op), RecoveredFiles(db, op)); }
    case AcknowledgeStep(receipt) =>
      if receipt < |db.outbox| {
        forall o: Op
          ensures LogFits(db.entries, Log(After(db, step).outbox, o), o)
        {
          LogAcknowledged(db.outbox, receipt, o);
          assert LogFits(db.entries, Log(db.outbox, o), o);
        }
      }
    case _ =>
      var next := After(db, step);
      forall o: Op
        ensures LogFits(next.entries, Log(next.outbox, o), o)
      {
        assert LogFits(db.entries, Log(db.outbox, o), o);
      }
  }

  /** An operation's receipts are none, a final one, an uncertain one, or an uncertain one and then a final one. */
  lemma {:induction false} ReceiptsOfRuns(steps: seq<Step>)
    ensures LogsFit(Run(EMPTY, steps))
  {
    if steps != [] {
      ReceiptsOfRuns(steps[..|steps| - 1]);
      StepFits(Run(EMPTY, steps[..|steps| - 1]), steps[|steps| - 1]);
    }
  }

  // ----- Execution at most once

  /** An operation is claimed at most once, whatever happens in between. */
  lemma {:induction false} BegunAtMostOnce(steps: seq<Step>, op: Op)
    ensures Begun(EMPTY, steps, op) <= 1
    ensures var db := Run(EMPTY, steps);
            op !in db.entries || db.entries[op].state.Received? ==> Begun(EMPTY, steps, op) == 0
    ensures var db := Run(EMPTY, steps);
            op in db.entries && db.entries[op].state.Executing? ==> Begun(EMPTY, steps, op) == 1
  {
    if steps != [] {
      BegunAtMostOnce(steps[..|steps| - 1], op);
    }
  }

  /** An operation that was not begun, or has just been begun, has no checkpoints from any earlier process. */
  lemma {:induction false} NothingSavedBefore(steps: seq<Step>, op: Op)
    ensures var db := Run(EMPTY, steps);
            op !in db.entries || db.entries[op].state.Received? ==>
              SavedFiles(db, op) == map[] && SavedFiles(After(db, BeginStep(op)), op) == map[]
  {
    if steps != [] {
      NothingSavedBefore(steps[..|steps| - 1], op);
    }
  }

  // ----- The life of an operation, over any step

  /** Whether recovery leaves the outcome open: always for an execution, except of a changeset with no file open. */
  ghost predicate LeavesOpen(db: Db, op: Op)
    requires op in db.entries
  {
    && db.entries[op].state.Executing?
    && (db.entries[op].capability.FileChangeset? ==>
          exists i <- SavedFiles(db, op) ::
            i < db.entries[op].capability.files && SavedFiles(db, op)[i] in {Statuses.Prepared, Statuses.Unknown})
  }

  lemma RecoversOpen(db: Db, op: Op)
    requires Active(db, op)
    ensures RecoveredSignal(db, op).Uncertain? <==> LeavesOpen(db, op)
    ensures db.entries[op].state.Received? ==> RecoveredSignal(db, op) == Outcome(Statuses.Failed)
    ensures db.entries[op].state.Received? || !db.entries[op].capability.FileChangeset? ==> RecoveredFiles(db, op) == []
  {
    var entry, saved := db.entries[op], SavedFiles(db, op);
    if entry.state.Executing? && entry.capability.FileChangeset? {
      var files := Statuses.Recovered(saved, entry.capability.files);
      if LeavesOpen(db, op) {
        var i :| i in saved && i < entry.capability.files && saved[i] in {Statuses.Prepared, Statuses.Unknown};
        assert files[i].Unknown?;
      }
    }
  }

  /** Where a step takes an operation that is there. */
  ghost function NextState(db: Db, step: Step, op: Op): OpState
    requires op in db.entries
  {
    var entry := db.entries[op];
    match step
    case BeginStep(o) => if o == op && entry.state.Received? then Executing else entry.state
    case ConcludeStep(o, signal, _, fits) =>
      if o == op && fits && entry.state in {Received, Executing} then if signal.Uncertain? then Unknown else Completed
      else entry.state
    case ReconcileStep(o, signal, matches, fits) =>
      if o == op && matches && fits && !signal.Uncertain? && entry.state.Unknown?
        && entry.capability in {Process(true), Python(true), Pdf} then Completed else entry.state
    case RecoverStep(o) =>
      if o == op && entry.state in {Received, Executing} then if LeavesOpen(db, op) then Unknown else Completed
      else entry.state
    case _ => entry.state
  }

  /**
   * An operation comes in by a receive with room for it, stays what it was received as, and changes state only by a
   * claim, a conclusion, a recovery or, when its outcome is open and it ran offline, by later evidence.
   */
  lemma LifeStep(db: Db, step: Step, op: Op)
    ensures var post := After(db, step);
            if op in db.entries
            then op in post.entries && post.entries[op] == db.entries[op].(state := NextState(db, step, op))
            else if step.ReceiveStep? && step.op == op && step.room
            then op in post.entries && post.entries[op] == Entry(step.fingerprint, step.capability, Received)
            else op !in post.entries
  {
    if step.RecoverStep? && Active(db, step.op) {
      RecoversOpen(db, step.op);
    }
  }

  /** A repeated dispatch is taken exactly if it is the same one, and changes nothing. */
  lemma ReceivedAgain(db: Db, op: Op, fingerprint: nat, capability: Capability, room: bool)
    requires op in db.entries
    ensures Receive(db, op, fingerprint, capability, room) ==
            if fingerprint == db.entries[op].fingerprint then Committed(db) else Refused
  {
  }

  /** A step settles the operation: it concludes, recovers or reconciles it. */
  ghost predicate Settles(db: Db, step: Step, op: Op) {
    && op in db.entries
    && ((step.ConcludeStep? && step.op == op && step.fits && db.entries[op].state in {Received, Executing})
        || (step == RecoverStep(op) && db.entries[op].state in {Received, Executing})
        || (step.ReconcileStep? && NextState(db, step, op) != db.entries[op].state))
  }

  /** A receipt is written exactly by a step that settles its operation, and delivered exactly by its acknowledgement.
      */
  lemma OutboxStep(db: Db, step: Step)
    ensures var post := After(db, step);
            && |db.outbox| <= |post.outbox|
            && (forall i :: 0 <= i < |db.outbox| ==>
                  post.outbox[i] == db.outbox[i].(delivered := db.outbox[i].delivered || step == AcknowledgeStep(i)))
            && (|post.outbox| > |db.outbox| <==> exists op :: Settles(db, step, op))
            && (forall op :: Settles(db, step, op) ==>
                  post.outbox == db.outbox + [
                    Receipt(op, if step.RecoverStep? then RecoveredSignal(db, op) else step.signal,
                            if step.RecoverStep? then RecoveredFiles(db, op)
                            else if step.ConcludeStep? then step.files else [], false)])
  {
    var post := After(db, step);
    match step
    case ConcludeStep(op, _, _, _) => assert post.outbox != db.outbox ==> Settles(db, step, op);
    case ReconcileStep(op, _, _, _) => assert post.outbox != db.outbox ==> Settles(db, step, op);
    case RecoverStep(op) => assert post.outbox != db.outbox ==> Settles(db, step, op);
    case _ =>
  }

  /** A checkpoint is kept exactly for a file of a changeset that runs and whose file has no final status yet. */
  lemma CheckpointStepIs(db: Db, step: Step, op: Op)
    ensures var was, now := SavedFiles(db, op), SavedFiles(After(db, step), op);
            now == if && step.CheckpointStep? && step.op == op && step.matches
                      && op in db.entries && db.entries[op].state.Executing?
                      && db.entries[op].capability.FileChangeset? && step.index < db.entries[op].capability.files
                      && (step.index in was ==> was[step.index] == Statuses.Prepared)
                   then was[step.index := step.status] else was
  {
  }
}
