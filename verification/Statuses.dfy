/** What a changeset says of its files: durable statuses, the report recovery makes of them, and its verdict. */
module Statuses {

  datatype Status = Pending | Prepared | Applied | Conflict | Canceled | Unknown

  datatype Verdict = Succeeded | Partial | Failed

  predicate Final(saved: map<nat, Status>, i: nat) {
    i in saved && saved[i] != Prepared
  }

  /** A durable status that leaves the outcome of one file open. */
  predicate Open(s: Status) {
    s.Prepared? || s.Unknown?
  }

  /** What the checkpoints promise about the effects, whenever the process stops. */
  ghost predicate Bracketed(saved: map<nat, Status>, effects: set<nat>) {
    && (forall i <- saved :: saved[i].Applied? ==> i in effects)
    && (forall i <- effects :: i in saved && (saved[i].Applied? || Open(saved[i])))
    && (forall i, j :: i in saved && j in saved && Open(saved[i]) && Open(saved[j]) ==> i == j)
  }

  function Report(saved: map<nat, Status>, count: nat): seq<Status> {
    seq(count, i => if i in saved then saved[i] else Pending)
  }

  /** The statuses the recovery reports: a prepared file may or may not have been changed. */
  function Recovered(saved: map<nat, Status>, count: nat): seq<Status> {
    seq(count, i => if i !in saved then Pending else if saved[i].Prepared? then Unknown else saved[i])
  }

  function CountApplied(files: seq<Status>): nat {
    if files == [] then 0 else (if files[0].Applied? then 1 else 0) + CountApplied(files[1..])
  }

  function VerdictOf(files: seq<Status>): Verdict {
    var applied := CountApplied(files);
    if applied == |files| then Succeeded else if applied > 0 then Partial else Failed
  }

  lemma {:induction false} AppliedCounts(files: seq<Status>)
    ensures CountApplied(files) <= |files|
    ensures CountApplied(files) == |files| <==> forall i :: 0 <= i < |files| ==> files[i].Applied?
    ensures CountApplied(files) == 0 <==> forall i :: 0 <= i < |files| ==> !files[i].Applied?
  {
    if files != [] {
      AppliedCounts(files[1..]);
      assert files == [files[0]] + files[1..];
    }
  }

  /**
   * After a stop anywhere, the recovered report is true: applied files were changed, files that are neither
   * applied nor unknown were not, at most one is unknown, and with none unknown the verdict is exact.
   */
  lemma RecoveryTrue(saved: map<nat, Status>, effects: set<nat>, count: nat)
    requires Bracketed(saved, effects) && forall i <- saved :: i < count
    ensures var files := Recovered(saved, count);
            && (forall i: nat :: i < count && files[i].Applied? ==> i in effects)
            && (forall i: nat :: i < count && !files[i].Applied? && !files[i].Unknown? ==> i !in effects)
            && (forall i <- effects :: i < count && (files[i].Applied? || files[i].Unknown?))
            && (forall i: nat, j: nat :: i < count && j < count && files[i].Unknown? && files[j].Unknown? ==> i == j)
            && (Unknown !in files ==>
                  && (VerdictOf(files).Succeeded? <==> forall i: nat :: i < count ==> i in effects)
                  && (VerdictOf(files).Failed? ==> effects == {})
                  && (effects == {} && count > 0 ==> VerdictOf(files).Failed?))
  {
    var files := Recovered(saved, count);
    AppliedCounts(files);
    if Unknown !in files {
      forall i: nat | i < count
        ensures i in effects <==> files[i].Applied?
      {
        assert files[i] in files;
      }
      if VerdictOf(files).Failed? {
        assert forall i <- effects :: i < count;
      }
      if effects == {} && count > 0 {
        assert !files[0].Applied?;
      }
    }
  }
}
