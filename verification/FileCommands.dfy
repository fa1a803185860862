/** The queue of file commands: begun once, answered once, pruned only after delivery. */
module FileCommands {
  import opened Options

  datatype CommandState = Executing | Completed | Unknown

  /** What the bridge answered; `unknown` answers leave the command unresolved. */
  datatype Answer = Answer(body: nat, unknown: bool)

  /** Rows are kept in the order they were inserted. */
  datatype Row = Row(id: nat, fingerprint: nat, state: CommandState, receipt: Option<Answer>, delivered: bool)

  type Table = seq<Row>

  function Find(rows: Table, id: nat): Option<Row> {
    if rows == [] then None
    else if rows[|rows| - 1].id == id then Some(rows[|rows| - 1])
    else Find(rows[..|rows| - 1], id)
  }

  function Update(rows: Table, id: nat, f: Row -> Row): Table {
    if rows == [] then []
    else
      var last := rows[|rows| - 1];
      Update(rows[..|rows| - 1], id, f) + [if last.id == id then f(last) else last]
  }

  function Answered(row: Row, answer: Answer): Row {
    row.(state := if answer.unknown then Unknown else Completed, receipt := Some(answer))
  }

  function Sent(row: Row): Row {
    if row.receipt.Some? then row.(delivered := true) else row
  }

  predicate Prunable(row: Row) {
    row.delivered && row.state.Completed?
  }

  /** Keeps the newest `retain` delivered completed rows and every other row. */
  function Prune(rows: Table, retain: nat): Table {
    if rows == [] then []
    else
      var init, last := rows[..|rows| - 1], rows[|rows| - 1];
      if !Prunable(last) then Prune(init, retain) + [last]
      else if retain > 0 then Prune(init, retain - 1) + [last]
      else Prune(init, 0)
  }

  function Retained(entries: nat): nat {
    var quarter := entries / 4;
    var most := if quarter < 100 then quarter else 100;
    if most > 1 then most else 1
  }

  /** The answer the start of the process gives for a command that was lost. */
  const LOST: Answer := Answer(0, true)

  datatype Step =
    | Begin(id: nat, fingerprint: nat, room: bool) // room: the byte budget allows one more
    | Complete(id: nat, fingerprint: nat, answer: Answer)
    | Acknowledge(id: nat)
    | Recover(id: nat)

  predicate Begins(rows: Table, id: nat, entries: nat, room: bool) {
    Find(rows, id).None? && |rows| < entries && room
  }

  function After(rows: Table, step: Step, entries: nat): Table {
    match step
    case Begin(id, fingerprint, room) =>
      if Begins(rows, id, entries, room) then rows + [Row(id, fingerprint, Executing, None, false)] else rows
    case Complete(id, fingerprint, answer) =>
      var row := Find(rows, id);
      if row.Some? && row.value.fingerprint == fingerprint
        && (row.value.receipt.None? || row.value.receipt.value == answer)
      then Update(rows, id, r => Answered(r, answer)) else rows
    case Acknowledge(id) => Prune(Update(rows, id, r => Sent(r)), Retained(entries))
    case Recover(id) =>
      var row := Find(rows, id);
      if row.Some? && row.value.state.Executing? then Update(rows, id, r => Answered(r, LOST)) else rows
  }

  function Run(steps: seq<Step>, entries: nat): Table {
    if steps == [] then [] else After(Run(steps[..|steps| - 1], entries), steps[|steps| - 1], entries)
  }

  // ----- Tables

  ghost predicate RowFits(row: Row) {
    (row.state.Executing? <==> row.receipt.None?) && (row.delivered ==> row.receipt.Some?)
    && (row.receipt.Some? ==> (row.state.Unknown? <==> row.receipt.value.unknown))
  }

  ghost predicate Fits(rows: Table) {
    && (forall i :: 0 <= i < |rows| ==> RowFits(rows[i]))
    && (forall i, j :: 0 <= i < j < |rows| ==> rows[i].id != rows[j].id)
  }

  lemma {:induction false} FindIn(rows: Table, id: nat)
    ensures Find(rows, id).Some? ==> Find(rows, id).value in rows && Find(rows, id).value.id == id
    ensures Find(rows, id).None? ==> forall row <- rows :: row.id != id
  {
    if rows != [] {
      FindIn(rows[..|rows| - 1], id);
      assert rows == rows[..|rows| - 1] + [rows[|rows| - 1]];
    }
  }

  lemma FindAppend(rows: Table, row: Row, id: nat)
    ensures Find(rows + [row], id) == if row.id == id then Some(row) else Find(rows, id)
  {
    assert (rows + [row])[..|rows|] == rows;
  }

  /** Updating one row changes that row only. */
  lemma {:induction false} UpdateOne(rows: Table, id: nat, f: Row -> Row)
    requires forall row <- rows :: f(row).id == row.id
    ensures |Update(rows, id, f)| == |rows|
    ensures forall i :: 0 <= i < |rows| ==> Update(rows, id, f)[i] == if rows[i].id == id then f(rows[i]) else rows[i]
    ensures forall k :: Find(Update(rows, id, f), k) ==
                        if k == id && Find(rows, k).Some? then Some(f(Find(rows, k).value)) else Find(rows, k)
  {
    if rows != [] {
      var init, last := rows[..|rows| - 1], rows[|rows| - 1];
      assert forall row <- init :: row in rows;
      assert last in rows;
      UpdateOne(init, id, f);
      forall k
        ensures Find(Update(rows, id, f), k) ==
                if k == id && Find(rows, k).Some? then Some(f(Find(rows, k).value)) else Find(rows, k)
      {
        FindAppend(Update(init, id, f), if last.id == id then f(last) else last, k);
      }
    }
  }

  lemma FitsInit(rows: Table)
    requires Fits(rows) && rows != []
    ensures var init, last := rows[..|rows| - 1], rows[|rows| - 1];
            Fits(init) && RowFits(last) && forall row <- init :: row.id != last.id
  {
  }

  lemma FitsAppend(rows: Table, row: Row)
    requires Fits(rows) && RowFits(row) && forall r <- rows :: r.id != row.id
    ensures Fits(rows + [row])
  {
  }

  lemma {:induction false} PruneFits(rows: Table, retain: nat)
    requires Fits(rows)
    ensures Fits(Prune(rows, retain)) && forall row <- Prune(rows, retain) :: row in rows
  {
    if rows != [] {
      var init, last := rows[..|rows| - 1], rows[|rows| - 1];
      FitsInit(rows);
      var next := if Prunable(last) && retain > 0 then retain - 1 else retain;
      PruneFits(init, next);
      FitsAppend(Prune(init, next), last);
      assert rows == init + [last];
    }
  }

  /** Pruning drops delivered completed rows only and leaves the rest as it was. */
  lemma {:induction false} PruneFinds(rows: Table, retain: nat, id: nat)
    requires Fits(rows)
    ensures var was, post := Find(rows, id), Find(Prune(rows, retain), id);
            post == was || (post.None? && was.Some? && Prunable(was.value))
  {
    if rows != [] {
      var init, last := rows[..|rows| - 1], rows[|rows| - 1];
      FitsInit(rows);
      var next := if Prunable(last) && retain > 0 then retain - 1 else retain;
      PruneFinds(init, next, id);
      FindAppend(Prune(init, next), last, id);
      FindIn(init, last.id);
      PruneFinds(init, next, last.id);
    }
  }

  // ----- What every step keeps

  /** A command's answer never changes; a command goes away only when delivered and completed. */
  ghost predicate Keeps(was: Option<Row>, now: Option<Row>) {
    was.Some? ==>
      && (now.None? ==> was.value.state.Completed? && was.value.receipt.Some?)
      && (now.Some? && was.value.receipt.Some? ==>
            now.value.receipt == was.value.receipt && now.value.state == was.value.state)
      && (now.Some? && was.value.delivered ==> now.value.delivered)
  }

  lemma UpdateFits(rows: Table, id: nat, f: Row -> Row)
    requires Fits(rows)
    requires forall row <- rows :: f(row).id == row.id && (row.id == id ==> RowFits(f(row)))
    ensures Fits(Update(rows, id, f))
  {
    UpdateOne(rows, id, f);
    forall i | 0 <= i < |rows|
      ensures RowFits(Update(rows, id, f)[i])
    {
      assert rows[i] in rows;
    }
  }

  lemma AnswerStep(rows: Table, id: nat, answer: Answer, k: nat)
    requires Fits(rows) && Find(rows, id).Some?
    requires Find(rows, id).value.receipt.None? || Find(rows, id).value.receipt == Some(answer)
    ensures Fits(Update(rows, id, r => Answered(r, answer)))
    ensures Keeps(Find(rows, k), Find(Update(rows, id, r => Answered(r, answer)), k))
    ensures Find(Update(rows, id, r => Answered(r, answer)), k).Some? <==> Find(rows, k).Some?
  {
    var f := r => Answered(r, answer);
    FindIn(rows, id);
    UpdateOne(rows, id, f);
    UpdateFits(rows, id, f);
  }

  lemma AcknowledgeStep(rows: Table, id: nat, retain: nat, k: nat)
    requires Fits(rows)
    ensures var next := Prune(Update(rows, id, r => Sent(r)), retain);
            && Fits(next) && Keeps(Find(rows, k), Find(next, k)) && (Find(next, k).Some? ==> Find(rows, k).Some?)
            && (Find(rows, k).Some? && Find(next, k).None? ==> Find(rows, k).value.delivered || id == k)
  {
    var f := r => Sent(r);
    UpdateOne(rows, id, f);
    forall row | row in rows && row.id == id
      ensures RowFits(f(row))
    {
      var i :| 0 <= i < |rows| && rows[i] == row;
    }
    UpdateFits(rows, id, f);
    PruneFits(Update(rows, id, f), retain);
    PruneFinds(Update(rows, id, f), retain, k);
    FindIn(rows, k);
    FindIn(Update(rows, id, f), k);
  }

  lemma StepKeeps(rows: Table, step: Step, entries: nat, k: nat)
    requires Fits(rows)
    ensures Fits(After(rows, step, entries)) && Keeps(Find(rows, k), Find(After(rows, step, entries), k))
    ensures Find(After(rows, step, entries), k).Some? && Find(rows, k).None? ==>
              step.Begin? && step.id == k && Begins(rows, k, entries, step.room)
    ensures Find(rows, k).Some? && Find(After(rows, step, entries), k).None? ==>
              step.Acknowledge? && (Find(rows, k).value.delivered || step.id == k)
  {
    match step
    case Begin(id, fingerprint, room) =>
      if Begins(rows, id, entries, room) {
        FindIn(rows, id);
        FindAppend(rows, Row(id, fingerprint, Executing, None, false), k);
      }
    case Complete(id, fingerprint, answer) =>
      if After(rows, step, entries) != rows {
        AnswerStep(rows, id, answer, k);
      }
    case Acknowledge(id) => AcknowledgeStep(rows, id, Retained(entries), k);
    case Recover(id) =>
      if After(rows, step, entries) != rows {
        FindIn(rows, id);
        AnswerStep(rows, id, LOST, k);
      }
  }

  // ----- Whole runs

  lemma {:induction false} FitsAlways(steps: seq<Step>, entries: nat)
    ensures Fits(Run(steps, entries))
  {
    if steps != [] {
      FitsAlways(steps[..|steps| - 1], entries);
      StepKeeps(Run(steps[..|steps| - 1], entries), steps[|steps| - 1], entries, 0);
    }
  }

  /** How often a command was begun. */
  function BegunTimes(steps: seq<Step>, entries: nat, id: nat): nat {
    if steps == [] then 0
    else
      var init, last := steps[..|steps| - 1], steps[|steps| - 1];
      BegunTimes(init, entries, id) +
      if last.Begin? && last.id == id && Begins(Run(init, entries), id, entries, last.room) then 1 else 0
  }

  /** How often its row was pruned. */
  function PrunedTimes(steps: seq<Step>, entries: nat, id: nat): nat {
    if steps == [] then 0
    else
      var init := steps[..|steps| - 1];
      PrunedTimes(init, entries, id) +
      if Find(Run(init, entries), id).Some? && Find(Run(steps, entries), id).None? then 1 else 0
  }

  /** A command that is retained was begun once since it was last absent. */
  lemma {:induction false} BegunOncePerRetention(steps: seq<Step>, entries: nat, id: nat)
    ensures BegunTimes(steps, entries, id) ==
            PrunedTimes(steps, entries, id) + if Find(Run(steps, entries), id).Some? then 1 else 0
  {
    if steps != [] {
      var init, last := steps[..|steps| - 1], steps[|steps| - 1];
      BegunOncePerRetention(init, entries, id);
      FitsAlways(init, entries);
      StepKeeps(Run(init, entries), last, entries, id);
      if last.Begin? {
        FindAppend(Run(init, entries), Row(last.id, last.fingerprint, Executing, None, false), id);
      }
    }
  }

  /** The command has a row after `before` and at every point of `later`. */
  predicate Remains(before: seq<Step>, later: seq<Step>, entries: nat, id: nat) {
    && Find(Run(before + later, entries), id).Some?
    && (later == [] || Remains(before, later[..|later| - 1], entries, id))
  }

  /** From any point of a run on, an answered command keeps its answer until it is pruned. */
  lemma {:induction false} AnswersStay(before: seq<Step>, later: seq<Step>, entries: nat, id: nat)
    requires Find(Run(before, entries), id).Some? && Find(Run(before, entries), id).value.receipt.Some?
    requires Remains(before, later, entries, id)
    ensures Find(Run(before + later, entries), id).value.receipt == Find(Run(before, entries), id).value.receipt
  {
    if later == [] {
      assert before + later == before;
    } else {
      var init, last := later[..|later| - 1], later[|later| - 1];
      AnswersStay(before, init, entries, id);
      assert (before + later)[..|before + later| - 1] == before + init;
      FitsAlways(before + init, entries);
      StepKeeps(Run(before + init, entries), last, entries, id);
    }
  }

  // ----- What each step does, exactly

  /** A command is begun exactly if no row has its id and the entry and byte budgets allow one row more. */
  lemma BeginExactly(rows: Table, id: nat, fingerprint: nat, room: bool, entries: nat)
    ensures After(rows, Begin(id, fingerprint, room), entries) ==
            if (forall row <- rows :: row.id != id) && |rows| < entries && room
            then rows + [Row(id, fingerprint, Executing, None, false)] else rows
  {
    FindIn(rows, id);
  }

  /** An answer is taken exactly for the command it belongs to, the first time or again; no other row changes. */
  lemma CompleteExactly(rows: Table, id: nat, fingerprint: nat, answer: Answer, entries: nat, k: nat)
    requires Fits(rows)
    ensures var was, now := Find(rows, k), Find(After(rows, Complete(id, fingerprint, answer), entries), k);
            now == if k == id && was.Some? && was.value.fingerprint == fingerprint
                      && was.value.receipt in {None, Some(answer)}
                   then Some(Row(id, fingerprint, if answer.unknown then Unknown else Completed, Some(answer),
                                 was.value.delivered))
                   else was
  {
    FindIn(rows, id);
    UpdateOne(rows, id, r => Answered(r, answer));
  }

  /** Recovery answers exactly a command that was executing, as unknown. */
  lemma RecoverExactly(rows: Table, id: nat, entries: nat, k: nat)
    requires Fits(rows)
    ensures var was, now := Find(rows, k), Find(After(rows, Recover(id), entries), k);
            now == if k == id && was.Some? && was.value.receipt.None?
                   then Some(Row(id, was.value.fingerprint, Unknown, Some(LOST), false)) else was
  {
    FindIn(rows, id);
    UpdateOne(rows, id, r => Answered(r, LOST));
    if Find(rows, id).Some? {
      var i :| 0 <= i < |rows| && rows[i] == Find(rows, id).value;
      assert RowFits(rows[i]);
    }
  }

  /** The rows after row `i` that pruning may drop. */
  function PrunableAfter(rows: Table, i: nat): nat
    requires i <= |rows|
    decreases |rows| - i
  {
    if i == |rows| then 0 else PrunableAfter(rows, i + 1) + if Prunable(rows[i]) then 1 else 0
  }

  lemma {:induction false} PrunableAppend(rows: Table, row: Row, i: nat)
    requires i <= |rows|
    ensures PrunableAfter(rows + [row], i) == PrunableAfter(rows, i) + if Prunable(row) then 1 else 0
    decreases |rows| - i
  {
    if i < |rows| {
      PrunableAppend(rows, row, i + 1);
    } else {
      assert PrunableAfter(rows + [row], |rows| + 1) == 0;
    }
  }

  lemma PruneStep(rows: Table, row: Row, retain: nat)
    ensures Prune(rows + [row], retain) ==
            if !Prunable(row) then Prune(rows, retain) + [row]
            else if retain > 0 then Prune(rows, retain - 1) + [row] else Prune(rows, 0)
  {
    assert (rows + [row])[..|rows|] == rows;
  }

  lemma PruneNew(rows: Table, row: Row, retain: nat, id: nat)
    requires Fits(rows) && forall r <- rows :: r.id != row.id
    ensures var next := if Prunable(row) && retain > 0 then retain - 1 else retain;
            Find(Prune(rows + [row], retain), id) ==
            if id != row.id then Find(Prune(rows, next), id)
            else if !Prunable(row) || retain > 0 then Some(row) else None
  {
    var next := if Prunable(row) && retain > 0 then retain - 1 else retain;
    PruneStep(rows, row, retain);
    FindAppend(Prune(rows, next), row, id);
    PruneFits(rows, next);
    FindIn(Prune(rows, next), row.id);
  }

  /** A row stays exactly if it may not be dropped or fewer than `retain` that may were inserted after it. */
  lemma {:induction false} PruneExactly(rows: Table, retain: nat, i: nat)
    requires Fits(rows) && i < |rows|
    ensures Find(Prune(rows, retain), rows[i].id) ==
            if !Prunable(rows[i]) || PrunableAfter(rows, i + 1) < retain then Some(rows[i]) else None
  {
    var init, last := rows[..|rows| - 1], rows[|rows| - 1];
    FitsInit(rows);
    assert rows == init + [last];
    PruneNew(init, last, retain, rows[i].id);
    if i < |init| {
      PruneExactly(init, if Prunable(last) && retain > 0 then retain - 1 else retain, i);
      PrunableAppend(init, last, i + 1);
      assert init[i] in init;
    }
  }

  /** How many delivered completed rows are kept: a quarter of the entries, but at least one and at most 100. */
  lemma RetainedIs(entries: nat)
    ensures 1 <= Retained(entries) <= 100
    ensures 4 * Retained(entries) <= entries || Retained(entries) == 1
    ensures entries < 4 * Retained(entries) + 4 || Retained(entries) == 100
  {
  }

  /**
   * An acknowledgement marks exactly its own command, if that is answered, and then a row is dropped exactly if it is
   * delivered and completed and a quarter of the entries, at least one and at most 100, such rows came after it.
   */
  lemma AcknowledgeExactly(rows: Table, id: nat, entries: nat, i: nat)
    requires Fits(rows) && i < |rows|
    ensures var marked := Update(rows, id, r => Sent(r));
            && |marked| == |rows|
            && marked[i] == rows[i].(delivered := rows[i].delivered || (rows[i].id == id && rows[i].receipt.Some?))
            && Find(After(rows, Acknowledge(id), entries), rows[i].id) ==
               if marked[i].delivered && marked[i].state.Completed?
                  && PrunableAfter(marked, i + 1) >= Retained(entries) then None else Some(marked[i])
  {
    var f := r => Sent(r);
    UpdateOne(rows, id, f);
    forall row | row in rows && row.id == id
      ensures RowFits(f(row))
    {
      var j :| 0 <= j < |rows| && rows[j] == row;
    }
    UpdateFits(rows, id, f);
    PruneExactly(Update(rows, id, f), Retained(entries), i);
  }

  /** A command that was just acknowledged for the first time is still there unless newer ones fill the cache. */
  lemma NewestIsKept(rows: Table, id: nat, entries: nat)
    requires Fits(rows) && rows != [] && rows[|rows| - 1].id == id
    ensures Find(After(rows, Acknowledge(id), entries), id).Some?
  {
    AcknowledgeExactly(rows, id, entries, |rows| - 1);
    RetainedIs(entries);
  }

  // ----- The queue as an object

  datatype Beginning = Started | Repeated | Mismatch | Full

  class Queue {
    const entries: nat
    var rows: Table

    constructor (entries: nat)
      ensures this.entries == entries && rows == [] && Fits(rows)
    {
      this.entries, rows := entries, [];
    }

    /** Only a command without a row is begun. */
    method BeginCommand(id: nat, fingerprint: nat, room: bool) returns (r: Beginning)
      modifies this`rows
      ensures rows == After(old(rows), Begin(id, fingerprint, room), entries)
      ensures r.Started? <==> Begins(old(rows), id, entries, room)
      ensures r.Repeated? ==> Find(rows, id).Some? && Find(rows, id).value.fingerprint == fingerprint
    {
      var prior := Find(rows, id);
      if prior.Some? {
        return if prior.value.fingerprint == fingerprint then Repeated else Mismatch;
      }
      if |rows| >= entries || !room {
        return Full;
      }
      rows := rows + [Row(id, fingerprint, Executing, None, false)];
      r := Started;
    }

    /** After a restart every lost command is answered as unknown, in row order; the loop may be cut short. */
    method RecoverRows(stopAfter: nat)
      requires Fits(rows)
      modifies this`rows
      ensures Fits(rows) && |rows| == |old(rows)|
      ensures forall i :: 0 <= i < |rows| ==>
                rows[i] == if i < stopAfter && old(rows)[i].state.Executing?
                           then old(rows)[i].(state := Unknown, receipt := Some(LOST)) else old(rows)[i]
      ensures forall id :: Keeps(Find(old(rows), id), Find(rows, id))
    {
      var n := if stopAfter < |rows| then stopAfter else |rows|;
      for i := 0 to n
        invariant Fits(rows) && |rows| == |old(rows)|
        invariant forall id :: Keeps(Find(old(rows), id), Find(rows, id))
        invariant forall id :: Find(rows, id).Some? <==> Find(old(rows), id).Some?
        invariant forall j :: 0 <= j < |rows| ==> rows[j] == Closed(old(rows)[j], j < i)
      {
        ghost var was := rows;
        if rows[i].state.Executing? {
          var id := rows[i].id;
          forall k { CloseStep(was, i, k); }
          CloseStep(was, i, 0);
          rows := Update(rows, id, r => Answered(r, LOST));
        }
      }
    }
  }

  /** What recovery makes of a row that it gets to. */
  function Closed(row: Row, reached: bool): Row {
    if reached && row.state.Executing? then Answered(row, LOST) else row
  }

  lemma CloseStep(rows: Table, i: nat, k: nat)
    requires Fits(rows) && i < |rows| && rows[i].state.Executing?
    ensures var next := Update(rows, rows[i].id, r => Answered(r, LOST));
            && Fits(next) && |next| == |rows|
            && (forall j :: 0 <= j < |rows| ==> next[j] == if j == i then Answered(rows[j], LOST) else rows[j])
            && Keeps(Find(rows, k), Find(next, k)) && (Find(next, k).Some? <==> Find(rows, k).Some?)
  {
    var id := rows[i].id;
    assert rows[i] in rows;
    FindIn(rows, id);
    AnswerStep(rows, id, LOST, k);
    UpdateOne(rows, id, r => Answered(r, LOST));
  }
}
