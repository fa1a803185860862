/** Recovery that may itself be interrupted, output that precedes its receipt, and the journal as an object. */
module JournalRuns {
  import opened Options
  import Statuses
  import opened Journal

  // ----- Recovery

  /** Closes the given rows one transaction at a time. */
  function RecoverAll(db: Db, rows: seq<Op>): Db {
    if rows == [] then db else After(RecoverAll(db, rows[..|rows| - 1]), RecoverStep(rows[|rows| - 1]))
  }

  function ReceiptsOf(outbox: seq<Receipt>, op: Op): seq<Receipt> {
    if outbox == [] then []
    else
      var init, last := ReceiptsOf(outbox[..|outbox| - 1], op), outbox[|outbox| - 1];
      if last.op == op then init + [last] else init
  }

  lemma ReceiptsAppend(outbox: seq<Receipt>, receipt: Receipt, op: Op)
    ensures ReceiptsOf(outbox + [receipt], op) ==
            if receipt.op == op then ReceiptsOf(outbox, op) + [receipt] else ReceiptsOf(outbox, op)
  {
    assert (outbox + [receipt])[..|outbox|] == outbox;
  }

  /** The entry and the receipts of an operation once its row has been closed. */
  function ClosedEntry(db: Db, op: Op): Entry
    requires op in db.entries
  {
    db.entries[op].(state := if RecoveredSignal(db, op).Uncertain? then Unknown else Completed)
  }

  function ClosedReceipts(db: Db, op: Op): seq<Receipt>
    requires op in db.entries
  {
    ReceiptsOf(db.outbox, op) + [Receipt(op, RecoveredSignal(db, op), RecoveredFiles(db, op), false)]
  }

  ghost predicate Untouched(start: Db, db: Db, op: Op)
    requires op in start.entries && op in db.entries
  {
    db.entries[op] == start.entries[op] && ReceiptsOf(db.outbox, op) == ReceiptsOf(start.outbox, op)
  }

  ghost predicate Closed(start: Db, db: Db, op: Op)
    requires op in start.entries && op in db.entries
  {
    Active(start, op) && db.entries[op] == ClosedEntry(start, op)
      && ReceiptsOf(db.outbox, op) == ClosedReceipts(start, op)
  }

  /** A recovery of `start` that has got as far as `db`. */
  ghost predicate Partway(start: Db, db: Db) {
    && db.entries.Keys == start.entries.Keys && db.files == start.files && db.output == start.output
    && forall op <- start.entries :: Untouched(start, db, op) || Closed(start, db, op)
  }

  lemma PartwayStep(start: Db, db: Db, row: Op)
    requires Partway(start, db)
    ensures Partway(start, After(db, RecoverStep(row)))
    ensures !Active(After(db, RecoverStep(row)), row)
    ensures forall op: Op :: Active(After(db, RecoverStep(row)), op) ==> Active(db, op)
  {
    if Active(db, row) {
      var next := After(db, RecoverStep(row));
      assert Untouched(start, db, row);
      var receipt := Receipt(row, RecoveredSignal(start, row), RecoveredFiles(start, row), false);
      assert next.outbox == db.outbox + [receipt];
      forall op | op in start.entries
        ensures Untouched(start, next, op) || Closed(start, next, op)
      {
        ReceiptsAppend(db.outbox, receipt, op);
        assert Untouched(start, db, op) || Closed(start, db, op);
      }
    }
  }

  lemma {:induction false} PartwayAll(start: Db, db: Db, rows: seq<Op>)
    requires Partway(start, db)
    ensures Partway(start, RecoverAll(db, rows))
    ensures forall op: Op :: Active(RecoverAll(db, rows), op) ==> Active(db, op) && op !in rows
  {
    if rows != [] {
      var init, row := rows[..|rows| - 1], rows[|rows| - 1];
      PartwayAll(start, db, init);
      PartwayStep(start, RecoverAll(db, init), row);
      assert rows == init + [row];
    }
  }

  /**
   * However often a recovery was interrupted, a later complete one leaves every row as one uninterrupted
   * recovery would: the same state, the same receipts, and nothing received or executing.
   */
  lemma RecoveryResumes(start: Db, interrupted: seq<Op>, rows: seq<Op>, once: seq<Op>)
    requires forall op: Op :: Active(RecoverAll(start, interrupted), op) ==> op in rows
    requires forall op: Op :: Active(start, op) ==> op in once
    ensures var resumed, whole := RecoverAll(RecoverAll(start, interrupted), rows), RecoverAll(start, once);
            && resumed.entries == whole.entries && resumed.files == whole.files && resumed.output == whole.output
            && (forall op <- resumed.entries ::
                  !Active(resumed, op) && ReceiptsOf(resumed.outbox, op) == ReceiptsOf(whole.outbox, op))
  {
    var first := RecoverAll(start, interrupted);
    var resumed, whole := RecoverAll(first, rows), RecoverAll(start, once);
    PartwayAll(start, start, interrupted);
    PartwayAll(start, first, rows);
    PartwayAll(start, start, once);
    forall op | op in start.entries
      ensures resumed.entries[op] == whole.entries[op]
      ensures !Active(resumed, op) && ReceiptsOf(resumed.outbox, op) == ReceiptsOf(whole.outbox, op)
    {
      assert Untouched(start, resumed, op) || Closed(start, resumed, op);
      assert Untouched(start, whole, op) || Closed(start, whole, op);
      assert !Active(resumed, op) && !Active(whole, op);
    }
  }

  /** A receipt of a changeset that is true of the files really changed. */
  ghost predicate Truthful(receipt: Receipt, effects: set<nat>, count: nat) {
    && |receipt.files| == count
    && (forall i: nat :: i < count && receipt.files[i].Applied? ==> i in effects)
    && (forall i: nat :: i < count && i in effects ==> receipt.files[i].Applied? || receipt.files[i].Unknown?)
    && (forall i: nat, j: nat ::
          i < count && j < count && receipt.files[i].Unknown? && receipt.files[j].Unknown? ==> i == j)
    && (receipt.signal.Uncertain? <==> exists i :: 0 <= i < count && receipt.files[i].Unknown?)
    && (receipt.signal == Outcome(Statuses.Succeeded) ==> forall i: nat :: i < count ==> i in effects)
    && (receipt.signal == Outcome(Statuses.Failed) ==> effects == {})
    && !receipt.signal.Stopped?
  }

  ghost predicate Running(db: Db, op: Op, count: nat) {
    op in db.entries && db.entries[op].state.Executing? && db.entries[op].capability == FileChangeset(count)
  }

  /**
   * A changeset that stopped anywhere is closed truthfully: its receipt lists the files as the checkpoints left
   * them, it is uncertain exactly when one file's outcome is open, and otherwise its verdict counts the effects.
   */
  lemma CrashedChangeset(db: Db, op: Op, count: nat, effects: set<nat>)
    requires Running(db, op, count) && Statuses.Bracketed(SavedFiles(db, op), effects)
    requires forall i <- SavedFiles(db, op) :: i < count
    ensures Truthful(Receipt(op, RecoveredSignal(db, op), RecoveredFiles(db, op), false), effects, count)
  {
    Statuses.RecoveryTrue(SavedFiles(db, op), effects, count);
  }

  /** The one receipt that reopening adds, however often the reopening itself was cut short. */
  lemma ReopenedChangeset(db: Db, op: Op, count: nat, effects: set<nat>, interrupted: seq<Op>, rows: seq<Op>)
    requires Running(db, op, count) && Statuses.Bracketed(SavedFiles(db, op), effects)
    requires forall i <- SavedFiles(db, op) :: i < count
    requires forall o: Op :: Active(RecoverAll(db, interrupted), o) ==> o in rows
    ensures var receipts := ReceiptsOf(RecoverAll(RecoverAll(db, interrupted), rows).outbox, op);
            && |receipts| == |ReceiptsOf(db.outbox, op)| + 1
            && Truthful(receipts[|receipts| - 1], effects, count)
  {
    CrashedChangeset(db, op, count, effects);
    RowClosed(db, op, interrupted, rows);
  }

  lemma RowClosed(db: Db, op: Op, interrupted: seq<Op>, rows: seq<Op>)
    requires Active(db, op) && forall o: Op :: Active(RecoverAll(db, interrupted), o) ==> o in rows
    ensures ReceiptsOf(RecoverAll(RecoverAll(db, interrupted), rows).outbox, op) == ClosedReceipts(db, op)
  {
    PartwayAll(db, db, interrupted);
    PartwayAll(db, RecoverAll(db, interrupted), rows);
    var post := RecoverAll(RecoverAll(db, interrupted), rows);
    assert op in post.entries && !Active(post, op);
  }

  // ----- Output

  ghost predicate InSequence(chunks: seq<Chunk>) {
    forall k :: 0 <= k < |chunks| ==> chunks[k].sequence == k
  }

  ghost predicate OutputFits(db: Db, op: Op) {
    var chunks := OfOp(db.output, op);
    && InSequence(chunks) && Bytes(chunks) <= MAXIMUM_OUTPUT && |chunks| <= 256
    && (chunks != [] ==> op in db.entries && !db.entries[op].state.Received?)
  }

  lemma {:induction false} NextInSequence(chunks: seq<Chunk>)
    requires InSequence(chunks)
    ensures NextSequence(chunks) == |chunks|
  {
    if chunks != [] {
      NextInSequence(chunks[..|chunks| - 1]);
    }
  }

  lemma OfOpAppend(output: seq<Chunk>, chunk: Chunk, op: Op)
    ensures OfOp(output + [chunk], op) == if chunk.op == op then OfOp(output, op) + [chunk] else OfOp(output, op)
  {
    assert (output + [chunk])[..|output|] == output;
  }

  function Marked(output: seq<Chunk>, op: Op, sequence: nat): (r: seq<Chunk>)
    ensures |r| == |output|
  {
    seq(|output|, i requires 0 <= i < |output| => Delivered(output[i], op, sequence))
  }

  lemma {:induction false} OfOpMarked(output: seq<Chunk>, op: Op, sequence: nat, o: Op)
    ensures OfOp(Marked(output, op, sequence), o) == Marked(OfOp(output, o), op, sequence)
  {
    if output != [] {
      var n := |output| - 1;
      OfOpMarked(output[..n], op, sequence, o);
      assert Marked(output, op, sequence)[..n] == Marked(output[..n], op, sequence);
    }
  }

  lemma {:induction false} BytesMarked(chunks: seq<Chunk>, op: Op, sequence: nat)
    ensures Bytes(Marked(chunks, op, sequence)) == Bytes(chunks)
  {
    if chunks != [] {
      var n := |chunks| - 1;
      BytesMarked(chunks[..n], op, sequence);
      assert Marked(chunks, op, sequence)[..n] == Marked(chunks[..n], op, sequence);
    }
  }

  lemma BytesAppend(chunks: seq<Chunk>, chunk: Chunk)
    ensures Bytes(chunks + [chunk]) == Bytes(chunks) + chunk.bytes && Bytes([]) == 0
  {
    assert (chunks + [chunk])[..|chunks|] == chunks;
  }

  /** An operation never goes back to received. */
  lemma StartedStays(db: Db, step: Step, op: Op)
    requires op in db.entries && !db.entries[op].state.Received?
    ensures op in After(db, step).entries && !After(db, step).entries[op].state.Received?
  {
  }

  /** What recording can do to the store. */
  lemma RecordAdds(db: Db, op: Op, sequence: nat, body: nat, bytes: nat)
    ensures var next := After(db, RecordStep(op, sequence, body, bytes));
            || next == db
            || (&& next == db.(output := db.output + [Chunk(op, sequence, body, bytes, false)])
                && op in db.entries && db.entries[op].state.Executing?
                && NextSequence(OfOp(db.output, op)) == sequence && sequence < 256
                && Bytes(OfOp(db.output, op)) + bytes <= MAXIMUM_OUTPUT)
  {
  }

  lemma SequenceExtends(chunks: seq<Chunk>, chunk: Chunk)
    requires InSequence(chunks) && NextSequence(chunks) == chunk.sequence < 256
    ensures InSequence(chunks + [chunk]) && |chunks| < 256
  {
    NextInSequence(chunks);
  }

  lemma RecordFits(db: Db, op: Op, sequence: nat, body: nat, bytes: nat, o: Op)
    requires OutputFits(db, o)
    ensures OutputFits(After(db, RecordStep(op, sequence, body, bytes)), o)
  {
    var next := After(db, RecordStep(op, sequence, body, bytes));
    RecordAdds(db, op, sequence, body, bytes);
    if next != db {
      var chunk, chunks := Chunk(op, sequence, body, bytes, false), OfOp(db.output, o);
      OfOpAppend(db.output, chunk, o);
      if op == o {
        SequenceExtends(chunks, chunk);
        BytesAppend(chunks, chunk);
      }
    }
  }

  lemma MarkFits(db: Db, op: Op, sequence: nat, o: Op)
    requires OutputFits(db, o)
    ensures OutputFits(After(db, AcknowledgeOutputStep(op, sequence)), o)
  {
    assert After(db, AcknowledgeOutputStep(op, sequence)).output == Marked(db.output, op, sequence);
    OfOpMarked(db.output, op, sequence, o);
    BytesMarked(OfOp(db.output, o), op, sequence);
  }

  lemma OutputStep(db: Db, step: Step, op: Op)
    requires OutputFits(db, op)
    ensures OutputFits(After(db, step), op)
  {
    match step
    case RecordStep(o, sequence, body, bytes) => RecordFits(db, o, sequence, body, bytes, op);
    case AcknowledgeOutputStep(o, sequence) => MarkFits(db, o, sequence, op);
    case _ =>
      assert After(db, step).output == db.output;
      if OfOp(db.output, op) != [] {
        StartedStays(db, step, op);
      }
  }

  /** Chunks are numbered from 0 without a gap and hold at most 65,536 bytes. */
  lemma {:induction false} OutputOfRuns(steps: seq<Step>, op: Op)
    ensures OutputFits(Run(EMPTY, steps), op)
  {
    if steps != [] {
      OutputOfRuns(steps[..|steps| - 1], op);
      OutputStep(Run(EMPTY, steps[..|steps| - 1]), steps[|steps| - 1], op);
    }
  }

  /**
   * In every run output is taken exactly from a process: a chunk that repeats a recorded one, or the next in number of
   * a process that runs, within 256 chunks and 65,536 bytes; only the latter adds anything.
   */
  lemma RecordedExactly(steps: seq<Step>, op: Op, sequence: nat, body: nat, bytes: nat)
    ensures var db := Run(EMPTY, steps);
            var chunks := OfOp(db.output, op);
            RecordOutput(db, op, sequence, body, bytes) ==
            if op !in db.entries || !db.entries[op].capability.Process? then Refused
            else if sequence < |chunks| then if chunks[sequence].body == body then Committed(db) else Refused
            else if && sequence == |chunks| < 256 && db.entries[op].state.Executing?
                    && Bytes(chunks) + bytes <= 65_536
            then Committed(db.(output := db.output + [Chunk(op, sequence, body, bytes, false)]))
            else Refused
  {
    var db := Run(EMPTY, steps);
    var chunks := OfOp(db.output, op);
    OutputOfRuns(steps, op);
    NextInSequence(chunks);
    assert sequence < |chunks| ==> chunks[sequence].sequence == sequence;
  }

  ghost predicate Over(db: Db, op: Op) {
    op in db.entries && (db.entries[op].state.Completed? || db.entries[op].state.Unknown?)
  }

  ghost predicate AllDelivered(chunks: seq<Chunk>) {
    forall i :: 0 <= i < |chunks| ==> chunks[i].delivered
  }

  lemma {:induction false} OfOpDelivered(output: seq<Chunk>, op: Op)
    requires forall i :: 0 <= i < |output| && output[i].op == op ==> output[i].delivered
    ensures AllDelivered(OfOp(output, op))
  {
    if output != [] {
      OfOpDelivered(output[..|output| - 1], op);
    }
  }

  /** The same chunks, of which more may have been delivered. */
  ghost predicate SameOutput(was: seq<Chunk>, now: seq<Chunk>) {
    && |was| == |now|
    && forall i :: 0 <= i < |was| ==>
         now[i].(delivered := was[i].delivered) == was[i] && (was[i].delivered ==> now[i].delivered)
  }

  lemma MarkedIsSame(chunks: seq<Chunk>, op: Op, sequence: nat)
    ensures SameOutput(chunks, Marked(chunks, op, sequence))
  {
  }

  lemma OverStep(db: Db, step: Step, op: Op)
    requires Over(db, op)
    ensures Over(After(db, step), op) && SameOutput(OfOp(db.output, op), OfOp(After(db, step).output, op))
  {
    match step
    case RecordStep(o, sequence, body, bytes) =>
      if After(db, step) != db {
        OfOpAppend(db.output, Chunk(o, sequence, body, bytes, false), op);
      }
    case AcknowledgeOutputStep(o, sequence) =>
      OfOpMarked(db.output, o, sequence, op);
      assert After(db, step).output == Marked(db.output, o, sequence);
      MarkedIsSame(OfOp(db.output, op), o, sequence);
    case _ =>
  }

  /** Once an operation is over, its output never changes but for the marks of delivery. */
  lemma {:induction false} OverRun(db: Db, steps: seq<Step>, op: Op)
    requires Over(db, op)
    ensures Over(Run(db, steps), op) && SameOutput(OfOp(db.output, op), OfOp(Run(db, steps).output, op))
  {
    if steps != [] {
      OverRun(db, steps[..|steps| - 1], op);
      OverStep(Run(db, steps[..|steps| - 1]), steps[|steps| - 1], op);
    }
  }

  lemma DeliveredIsSame(was: seq<Chunk>, now: seq<Chunk>)
    requires SameOutput(was, now) && AllDelivered(was)
    ensures now == was
  {
    assert forall i :: 0 <= i < |was| ==> now[i].(delivered := was[i].delivered) == now[i];
  }

  lemma {:induction false} LoggedOver(outbox: seq<Receipt>, i: nat)
    requires i < |outbox|
    ensures Log(outbox, outbox[i].op) != []
  {
    if i < |outbox| - 1 {
      LoggedOver(outbox[..|outbox| - 1], i);
    }
  }

  // ----- Delivery marks

  /** The first chunk of the operation with this number, if it was recorded. */
  function ChunkAt(output: seq<Chunk>, op: Op, sequence: nat): Option<Chunk> {
    if output == [] then None
    else
      var init, last := ChunkAt(output[..|output| - 1], op, sequence), output[|output| - 1];
      if init.None? && last.op == op && last.sequence == sequence then Some(last) else init
  }

  ghost predicate Acknowledged(steps: seq<Step>, op: Op, sequence: nat) {
    exists i :: && 0 <= i < |steps| && steps[i] == AcknowledgeOutputStep(op, sequence)
                && ChunkAt(Run(EMPTY, steps[..i]).output, op, sequence).Some?
  }

  lemma ChunkAppend(output: seq<Chunk>, chunk: Chunk, op: Op, sequence: nat)
    ensures var was := ChunkAt(output, op, sequence);
            ChunkAt(output + [chunk], op, sequence) ==
            if was.None? && chunk.op == op && chunk.sequence == sequence then Some(chunk) else was
  {
    assert (output + [chunk])[..|output|] == output;
  }

  lemma {:induction false} ChunkMarked(output: seq<Chunk>, o: Op, k: nat, op: Op, sequence: nat)
    ensures var was, now := ChunkAt(output, op, sequence), ChunkAt(Marked(output, o, k), op, sequence);
            now == if was.Some? && o == op && k == sequence then Some(was.value.(delivered := true)) else was
  {
    if output != [] {
      var n := |output| - 1;
      ChunkMarked(output[..n], o, k, op, sequence);
      assert Marked(output, o, k)[..n] == Marked(output[..n], o, k);
    }
  }

  lemma {:induction false} ChunkIs(output: seq<Chunk>, op: Op, sequence: nat)
    ensures var found := ChunkAt(output, op, sequence);
            && (found.Some? ==> found.value in output && found.value.op == op && found.value.sequence == sequence)
            && (found.None? ==> forall chunk <- output :: !(chunk.op == op && chunk.sequence == sequence))
  {
    if output != [] {
      ChunkIs(output[..|output| - 1], op, sequence);
      assert output == output[..|output| - 1] + [output[|output| - 1]];
    }
  }

  lemma AcknowledgedInit(steps: seq<Step>, op: Op, sequence: nat)
    requires steps != []
    ensures var init, last := steps[..|steps| - 1], steps[|steps| - 1];
            Acknowledged(steps, op, sequence) <==>
            || Acknowledged(init, op, sequence)
            || (last == AcknowledgeOutputStep(op, sequence) && ChunkAt(Run(EMPTY, init).output, op, sequence).Some?)
  {
    var init := steps[..|steps| - 1];
    forall i | 0 <= i < |init|
      ensures init[i] == steps[i] && init[..i] == steps[..i]
    {
    }
    if Acknowledged(init, op, sequence) {
      var i :| && 0 <= i < |init| && init[i] == AcknowledgeOutputStep(op, sequence)
               && ChunkAt(Run(EMPTY, init[..i]).output, op, sequence).Some?;
      assert steps[i] == AcknowledgeOutputStep(op, sequence);
    }
  }

  /** What one step does to one chunk. */
  lemma ChunkStep(db: Db, step: Step, op: Op, sequence: nat)
    ensures var was, now := ChunkAt(db.output, op, sequence), ChunkAt(After(db, step).output, op, sequence);
            if was.None? then now.Some? ==> step.RecordStep? && !now.value.delivered
            else now == Some(was.value.(delivered := was.value.delivered
              || step == AcknowledgeOutputStep(op, sequence)))
  {
    match step
    case RecordStep(o, k, body, bytes) =>
      RecordAdds(db, o, k, body, bytes);
      ChunkAppend(db.output, Chunk(o, k, body, bytes, false), op, sequence);
    case AcknowledgeOutputStep(o, k) =>
      assert After(db, step).output == Marked(db.output, o, k);
      ChunkMarked(db.output, o, k, op, sequence);
    case _ => assert After(db, step).output == db.output;
  }

  /** In every run a chunk is marked delivered exactly when it was acknowledged by its own number once recorded. */
  lemma {:induction false} MarkedExactly(steps: seq<Step>, op: Op, sequence: nat)
    ensures var chunk := ChunkAt(Run(EMPTY, steps).output, op, sequence);
            && (chunk.None? ==> !Acknowledged(steps, op, sequence))
            && (chunk.Some? ==> (chunk.value.delivered <==> Acknowledged(steps, op, sequence)))
  {
    if steps != [] {
      var init, last := steps[..|steps| - 1], steps[|steps| - 1];
      MarkedExactly(init, op, sequence);
      AcknowledgedInit(steps, op, sequence);
      ChunkStep(Run(EMPTY, init), last, op, sequence);
    }
  }

  /** A receipt is offered exactly if it is not delivered and each chunk of its operation was acknowledged. */
  lemma OfferedExactly(before: seq<Step>, receipt: nat, quiet: bool)
    requires receipt < |Run(EMPTY, before).outbox|
    ensures var db := Run(EMPTY, before);
            var op := db.outbox[receipt].op;
            Deliverable(db, receipt, quiet) <==>
            && quiet && !db.outbox[receipt].delivered
            && forall chunk <- db.output :: chunk.op == op ==> Acknowledged(before, op, chunk.sequence)
  {
    var db := Run(EMPTY, before);
    var op := db.outbox[receipt].op;
    forall i | 0 <= i < |db.output| && db.output[i].op == op
      ensures db.output[i].delivered <==> Acknowledged(before, op, db.output[i].sequence)
    {
      MarkedExactly(before, op, db.output[i].sequence);
      OutputOfRuns(before, op);
      OnlyChunk(db.output, op, i);
    }
  }

  /** Numbered in sequence, a chunk is the only one of its number. */
  lemma {:induction false} OnlyChunk(output: seq<Chunk>, op: Op, i: nat)
    requires i < |output| && output[i].op == op && InSequence(OfOp(output, op))
    ensures ChunkAt(output, op, output[i].sequence) == Some(output[i])
  {
    var n := |output| - 1;
    var init, last := output[..n], output[n];
    OfOpAppend(init, last, op);
    assert output == init + [last];
    ChunkAppend(init, last, op, output[i].sequence);
    assert InSequence(OfOp(init, op)) by {
      assert forall k :: 0 <= k < |OfOp(init, op)| ==> OfOp(init, op)[k] == OfOp(output, op)[k];
    }
    if i < n {
      OnlyChunk(init, op, i);
    } else {
      assert OfOp(output, op)[|OfOp(init, op)|] == last;
      NoLaterNumber(init, op, last.sequence);
    }
  }

  lemma {:induction false} NoLaterNumber(output: seq<Chunk>, op: Op, sequence: nat)
    requires InSequence(OfOp(output, op)) && |OfOp(output, op)| <= sequence
    ensures ChunkAt(output, op, sequence).None?
  {
    if output != [] {
      var n := |output| - 1;
      var init, last := output[..n], output[n];
      assert output == init + [last];
      OfOpAppend(init, last, op);
      ChunkAppend(init, last, op, sequence);
      assert forall k :: 0 <= k < |OfOp(init, op)| ==> OfOp(init, op)[k] == OfOp(output, op)[k];
      assert last.op == op ==> OfOp(output, op)[|OfOp(output, op)| - 1] == last;
      NoLaterNumber(init, op, sequence);
    }
  }

  lemma RunAppend(db: Db, steps: seq<Step>, step: Step)
    ensures Run(db, []) == db && Run(db, steps + [step]) == After(Run(db, steps), step)
  {
    assert (steps + [step])[..|steps|] == steps;
  }

  /** A receipt that is offered for delivery comes after all the output its operation will ever have. */
  lemma OfferedReceiptIsLast(before: seq<Step>, receipt: nat, quiet: bool, later: seq<Step>)
    requires var db := Run(EMPTY, before); receipt < |db.outbox| && Deliverable(db, receipt, quiet)
    ensures var db := Run(EMPTY, before);
            var op := db.outbox[receipt].op;
            && OfOp(Run(db, later).output, op) == OfOp(db.output, op)
            && (forall chunk <- db.output :: chunk.op == op ==>
                  chunk.delivered && Acknowledged(before, op, chunk.sequence))
  {
    var db := Run(EMPTY, before);
    var op := db.outbox[receipt].op;
    ReceiptsOfRuns(before);
    assert LogFits(db.entries, Log(db.outbox, op), op);
    LoggedOver(db.outbox, receipt);
    OfOpDelivered(db.output, op);
    OverRun(db, later, op);
    DeliveredIsSame(OfOp(db.output, op), OfOp(Run(db, later).output, op));
    forall chunk | chunk in db.output && chunk.op == op
      ensures chunk.delivered && Acknowledged(before, op, chunk.sequence)
    {
      MarkedExactly(before, op, chunk.sequence);
      ChunkIs(db.output, op, chunk.sequence);
    }
  }

  // ----- The journal as an object

  /** How the disk takes a transaction. */
  datatype Disk = Fine | RolledBack | CommittedThenFailed

  class BridgeJournal {
    var db: Db
    var closed: bool
    var poisoned: bool

    constructor (db: Db)
      ensures this.db == db && !closed && !poisoned
    {
      this.db, closed, poisoned := db, false, false;
    }

    /** Runs one transaction. Any error but a refusal poisons the journal for the rest of the process. */
    method Transact(step: Step, disk: Disk) returns (ok: bool)
      modifies this`db, this`poisoned
      ensures var usable, tx := !old(closed) && !old(poisoned), Attempt(old(db), step);
              && (ok <==> usable && tx.Committed? && disk.Fine?)
              && if usable && tx.Committed?
                 then (poisoned <==> !disk.Fine?) && db == if disk.RolledBack? then old(db) else tx.db
                 else poisoned == old(poisoned) && db == old(db)
    {
      if closed || poisoned {
        return false;
      }
      var tx := Attempt(db, step);
      if tx.Refused? {
        return false;
      }
      if !disk.RolledBack? {
        db := tx.db;
      }
      poisoned := !disk.Fine?;
      ok := disk.Fine?;
    }

    /** Claims an operation for execution. */
    method BeginOperation(op: Op, disk: Disk) returns (ok: bool)
      modifies this`db, this`poisoned
      ensures ok ==> op in old(db).entries && old(db).entries[op].state.Received?
      ensures ok ==> db == Move(old(db), op, Executing)
      ensures db == old(db) || db == After(old(db), BeginStep(op))
    {
      ok := Transact(BeginStep(op), disk);
    }

    /** The loop at start: it may stop after any number of rows. */
    method RecoverRows(rows: seq<Op>, stopAfter: nat) returns (complete: bool)
      requires !closed && !poisoned
      requires forall op: Op :: op in rows <==> Active(db, op)
      modifies this`db
      ensures complete <==> stopAfter >= |rows|
      ensures db == RecoverAll(old(db), if complete then rows else rows[..stopAfter])
      ensures complete ==> forall op: Op :: !Active(db, op)
    {
      var n := if stopAfter < |rows| then stopAfter else |rows|;
      for i := 0 to n
        invariant db == RecoverAll(old(db), rows[..i])
      {
        assert rows[..i + 1][..i] == rows[..i];
        db := After(db, RecoverStep(rows[i]));
      }
      complete := stopAfter >= |rows|;
      assert rows[..|rows|] == rows;
      PartwayAll(old(db), old(db), rows);
    }
  }
}
