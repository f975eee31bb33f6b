/** The merge precondition, told of the ledger's rows: which review, which shipped
    run and which consent it takes. */
module Merges {
  import opened Rows
  import opened View
  import opened ReadLedger
  import opened Meaning
  import opened Consent
  import opened Rules
  import opened Covers

  /** The item's last reviewed row is at `k`. */
  ghost predicate LastReview(rows: Ledger, item: Item, k: int) {
    && 0 <= k < |rows| && IsOwnMove(rows[k], item) && rows[k].move.to == Reviewed
    && forall j :: k < j < |rows| && IsOwnMove(rows[j], item) ==> rows[j].move.to != Reviewed
  }

  /** The last reviewed row is a pass of a named head, by a run that is none of the author
      runs it records nor of any other run of the item than a review. */
  ghost predicate PassStands(rows: Ledger, item: Item) {
    exists k :: LastReview(rows, item, k)
      && rows[k].move.fields.verdict == Some(Pass)
      && rows[k].move.fields.head.Some? && IsText(rows[k].move.fields.head.value)
      && (rows[k].move.fields.reviewerRun.Some? ==>
            && rows[k].move.fields.reviewerRun.value !in rows[k].move.fields.authorRuns
            && !Authored(rows, item, rows[k].move.fields.reviewerRun.value))
  }

  lemma {:induction false} PassedEnd(rows: Ledger, item: Item) returns (k: int)
    ensures k == -1 ==> PassedRows(StatesOf(rows, item)) == [] && forall j :: !LastReview(rows, item, j)
    ensures k != -1 ==>
      && LastReview(rows, item, k)
      && PassedRows(StatesOf(rows, item)) != [] && Last(PassedRows(StatesOf(rows, item))) == rows[k].move
  {
    k := -1;
    if rows != [] {
      var before, r := Init(rows), Last(rows);
      assert rows == before + [r];
      if IsOwnMove(r, item) { InitSnoc(StatesOf(before, item), r.move); }
      if IsOwnMove(r, item) && r.move.to == Reviewed {
        k := |rows| - 1;
      } else {
        k := PassedEnd(before, item);
        if k == -1 { NoReviewYet(before, r, item); }
      }
    }
  }

  lemma NoReviewYet(before: Ledger, r: Row, item: Item)
    requires !(IsOwnMove(r, item) && r.move.to == Reviewed) && forall j :: !LastReview(before, item, j)
    ensures forall j :: !LastReview(before + [r], item, j)
  {
    forall j
      ensures !LastReview(before + [r], item, j)
    {
      assert 0 <= j < |before| ==> (before + [r])[j] == before[j];
      if LastReview(before + [r], item, j) {
        assert forall i :: j < i < |before| ==> before[i] == (before + [r])[i];
        assert LastReview(before, item, j);
      }
    }
  }

  lemma {:induction false} PassIff(rows: Ledger, item: Item)
    ensures ReviewedProblem(ViewOf(rows, item)).None? <==> PassStands(rows, item)
  {
    var k := PassedEnd(rows, item);
    if k >= 0 {
      OneLastReview(rows, item, k);
      var reviewer := rows[k].move.fields.reviewerRun;
      if reviewer.Some? { AuthorsAre(rows, item, reviewer.value); }
    }
  }

  lemma OneLastReview(rows: Ledger, item: Item, k: int)
    requires LastReview(rows, item, k)
    ensures forall j :: LastReview(rows, item, j) ==> j == k
  {
  }

  // ---- the shipped run

  /** The first run row of the item under this id is at `k`. */
  ghost predicate FirstRunAt(rows: Ledger, item: Item, id: RunId, k: int) {
    && 0 <= k < |rows| && rows[k].RunRow? && rows[k].run.item == item && rows[k].run.runId == id
    && forall j :: 0 <= j < k && rows[j].RunRow? && rows[j].run.item == item ==> rows[j].run.runId != id
  }

  /** The run the last state row names ended completed. */
  ghost predicate LastRunCompleted(rows: Ledger, item: Item) {
    exists j, k :: LastMove(rows, item, j) && rows[j].move.fields.runId.Some?
      && FirstRunAt(rows, item, rows[j].move.fields.runId.value, k) && rows[k].run.outcome == Completed
  }

  lemma {:induction false} FirstRunPlace(rows: Ledger, item: Item, id: RunId) returns (k: int)
    ensures k == -1 ==> FirstRun(RunsOf(rows, item), id).None?
    ensures k == -1 ==>
      forall j :: 0 <= j < |rows| && rows[j].RunRow? && rows[j].run.item == item ==> rows[j].run.runId != id
    ensures k != -1 ==> FirstRunAt(rows, item, id, k) && FirstRun(RunsOf(rows, item), id) == Some(rows[k].run)
  {
    k := -1;
    if rows != [] {
      var before, r := Init(rows), Last(rows);
      assert rows == before + [r];
      k := FirstRunPlace(before, item, id);
      assert forall j :: 0 <= j < |before| ==> rows[j] == before[j];
      if r.RunRow? && r.run.item == item {
        InitSnoc(RunsOf(before, item), r.run);
        if k == -1 && r.run.runId == id { k := |before|; }
      }
    }
  }

  lemma {:induction false} FinishedIff(rows: Ledger, item: Item)
    ensures ViewOf(rows, item).Finished() <==> LastRunCompleted(rows, item)
  {
    var j := LastMoveAt(rows, item);
    if j >= 0 {
      OneLastMove(rows, item, j);
      if rows[j].move.fields.runId.Some? {
        var k := FirstRunPlace(rows, item, rows[j].move.fields.runId.value);
        if k >= 0 {
          assert forall i :: FirstRunAt(rows, item, rows[j].move.fields.runId.value, i) ==> i == k;
        }
      }
    }
  }

  // ---- the precondition

  /** The item is planned, its last review passed by no author, its ship run completed, the
      move is legal, and it is covered. */
  ghost predicate Mergeable(rows: Ledger, item: Item, blobs: Blobs, policy: StandingPolicy) {
    && ViewOf(rows, item).entry.Some? && PassStands(rows, item)
    && (Stands(rows, item, Ship) ==> LastRunCompleted(rows, item))
    && Accepted(rows, item, Merging, NO_FIELDS)
    && IsCovered(rows, item, blobs, policy)
  }

  /** `merge` is refused exactly unless the item is planned, its last review passed by no
      author, its ship run completed, the move is legal, and it is covered. */
  lemma {:induction false} MergeAllowedIff(rows: Ledger, item: Item, blobs: Blobs, policy: StandingPolicy)
    ensures MergeAllowed(rows, item, blobs, policy)
       <==> Mergeable(rows, item, blobs, policy)
  {
    PassIff(rows, item);
    StandsIff(rows, item, Ship);
    FinishedIff(rows, item);
    LegalIff(rows, item, Merging, NO_FIELDS);
    CoverIff(rows, item, blobs, policy);
  }
}
