/** What covers an item's merge, told of the ledger's rows: its own merge answer,
    else its latest train, else standing consent. */
module Covers {
  import opened Rows
  import opened View
  import opened ReadLedger
  import opened Meaning
  import opened Consent

  // ---- answers by position

  /** The last answer naming the ask is this choice. */
  ghost predicate AnsweredWith(rows: Ledger, id: nat, choice: Choice) {
    exists p :: 0 <= p < |rows| && LastNaming(rows, id, p) && rows[p].answer.choice == choice
  }

  ghost predicate LastNaming(rows: Ledger, id: nat, p: int) {
    && 0 <= p < |rows| && rows[p].AnswerRow? && rows[p].answer.ask == id
    && forall q :: p < q < |rows| && rows[q].AnswerRow? ==> rows[q].answer.ask != id
  }

  lemma {:induction false} AnsweredWithIff(rows: Ledger, id: nat, choice: Choice)
    ensures AnsweredWith(rows, id, choice) <==> id in Answers(rows) && Answers(rows)[id] == choice
  {
    var p := LastAnswerExists(rows, {id});
    if p >= 0 {
      AnswerAt(rows, id, p);
      assert LastNaming(rows, id, p);
    } else {
      NeverAnswered(rows, id);
    }
  }

  // ---- own answers and trains

  /** The Owner answered one of the item's own merge asks `merge`. */
  ghost predicate OwnAnswered(rows: Ledger, item: Item) {
    exists r :: r in rows && r.AskRow? && r.ask.kind == MergeAsk && r.ask.owner == Some(item)
             && AnsweredWith(rows, r.ask.id, Merge)
  }

  lemma {:induction false} OwnIff(rows: Ledger, item: Item)
    ensures OwnMerges(rows, item, Answers(rows)) != [] <==> OwnAnswered(rows, item)
  {
    var own := OwnMerges(rows, item, Answers(rows));
    OwnMergesAre(rows, item, Answers(rows));
    if own != [] {
      assert own[0] in own && AskRow(own[0]) in rows;
      AnsweredWithIff(rows, own[0].id, Merge);
    }
    if OwnAnswered(rows, item) {
      var r :| r in rows && r.AskRow? && r.ask.kind == MergeAsk && r.ask.owner == Some(item)
               && AnsweredWith(rows, r.ask.id, Merge);
      AnsweredWithIff(rows, r.ask.id, Merge);
      assert r == AskRow(r.ask) && r.ask in own;
    }
  }

  /** A merge ask listing the item, answered `train`. */
  ghost predicate TrainRow(rows: Ledger, item: Item, r: Row) {
    r.AskRow? && r.ask.kind == MergeAsk && item in r.ask.covers && AnsweredWith(rows, r.ask.id, Train)
  }

  ghost predicate LatestTrain(rows: Ledger, item: Item, k: int) {
    0 <= k < |rows| && TrainRow(rows, item, rows[k]) && forall j :: k < j < |rows| ==> !TrainRow(rows, item, rows[j])
  }

  lemma {:induction false} TrainRowIff(rows: Ledger, item: Item, r: Row)
    ensures TrainRow(rows, item, r) <==> IsTrain(r, item, Answers(rows))
  {
    if r.AskRow? {
      AnsweredWithIff(rows, r.ask.id, Train);
    }
  }

  lemma {:induction false} TrainsEnd(rows: Ledger, item: Item, given: map<nat, Choice>) returns (k: int)
    ensures k == -1 ==>
      Trains(rows, item, given) == [] && forall j :: 0 <= j < |rows| ==> !IsTrain(rows[j], item, given)
    ensures k != -1 ==>
      && 0 <= k < |rows| && IsTrain(rows[k], item, given)
      && (forall j :: k < j < |rows| ==> !IsTrain(rows[j], item, given))
      && Trains(rows, item, given) != [] && Last(Trains(rows, item, given)) == rows[k].ask
  {
    k := -1;
    if rows != [] {
      if IsTrain(Last(rows), item, given) {
        k := |rows| - 1;
      } else {
        k := TrainsEnd(Init(rows), item, given);
      }
    }
  }

  /** The item's latest train is the last one read, and there is none exactly when none is. */
  lemma {:induction false} LatestTrainIff(rows: Ledger, item: Item)
    ensures Trains(rows, item, Answers(rows)) == [] <==> forall k :: !LatestTrain(rows, item, k)
    ensures forall k :: LatestTrain(rows, item, k) ==>
      Trains(rows, item, Answers(rows)) != [] && Last(Trains(rows, item, Answers(rows))) == rows[k].ask
  {
    var k := TrainsEnd(rows, item, Answers(rows));
    forall j | 0 <= j < |rows|
      ensures TrainRow(rows, item, rows[j]) <==> IsTrain(rows[j], item, Answers(rows))
    {
      TrainRowIff(rows, item, rows[j]);
    }
    if k >= 0 { assert LatestTrain(rows, item, k); }
  }

  // ---- what a train asks

  /** The item is not among the first `i + 1` listed. */
  predicate ListedAfter(covers: seq<Item>, item: Item, i: nat)
    requires i < |covers|
  {
    forall j :: 0 <= j <= i ==> covers[j] != item
  }

  /** Every item listed before `item` has merged. */
  ghost predicate AllAheadMerged(rows: Ledger, covers: seq<Item>, item: Item) {
    forall i :: 0 <= i < |covers| && ListedAfter(covers, item, i) ==> Stands(rows, covers[i], Merged)
  }

  lemma {:induction false} AheadIff(rows: Ledger, covers: seq<Item>, item: Item)
    ensures AheadMerged(rows, covers, item) <==> AllAheadMerged(rows, covers, item)
  {
    if covers != [] && covers[0] != item {
      var rest := covers[1..];
      StandsIff(rows, covers[0], Merged);
      AheadIff(rows, rest, item);
      forall i | 0 < i < |covers|
        ensures ListedAfter(covers, item, i) <==> ListedAfter(rest, item, i - 1)
      {
        assert forall j :: 0 < j <= i ==> covers[j] == rest[j - 1];
        if ListedAfter(covers, item, i) {
          assert forall j :: 0 <= j < i ==> rest[j] == covers[j + 1];
        }
      }
      if AllAheadMerged(rows, covers, item) {
        forall i | 0 <= i < |rest| && ListedAfter(rest, item, i)
          ensures Stands(rows, rest[i], Merged)
        {
          assert ListedAfter(covers, item, i + 1) && covers[i + 1] == rest[i];
        }
        assert ListedAfter(covers, item, 0);
      }
      if AheadMerged(rows, covers, item) {
        forall i | 0 <= i < |covers| && ListedAfter(covers, item, i)
          ensures Stands(rows, covers[i], Merged)
        {
          if i > 0 { assert ListedAfter(rest, item, i - 1) && rest[i - 1] == covers[i]; }
        }
      }
    }
  }

  /** An approved gate ask of the item, and its blob of this path. */
  ghost predicate Approves(rows: Ledger, item: Item, r: Row, path: string) {
    && r.AskRow? && r.ask.kind == GateAsk && r.ask.owner == Some(item)
    && AnsweredWith(rows, r.ask.id, Approve) && path in r.ask.gateBlobs
  }

  /** The last approval of the path approved this very blob. */
  ghost predicate LastApproved(rows: Ledger, item: Item, path: string, blob: string) {
    exists k :: 0 <= k < |rows| && Approves(rows, item, rows[k], path) && rows[k].ask.gateBlobs[path] == blob
             && forall j :: k < j < |rows| ==> !Approves(rows, item, rows[j], path)
  }

  predicate ApprovesIn(r: Row, item: Item, given: map<nat, Choice>, path: string) {
    && r.AskRow? && r.ask.kind == GateAsk && r.ask.owner == Some(item)
    && r.ask.id in given && given[r.ask.id] == Approve && path in r.ask.gateBlobs
  }

  lemma {:induction false} BlobsSnoc(rows: Ledger, r: Row, item: Item, given: map<nat, Choice>, path: string)
    ensures var before := ApprovedBlobs(AsksOf(rows, item), given);
      var after := ApprovedBlobs(AsksOf(rows + [r], item), given);
      if ApprovesIn(r, item, given, path) then path in after && after[path] == r.ask.gateBlobs[path]
      else (path in after <==> path in before) && (path in before ==> after[path] == before[path])
  {
    InitSnoc(rows, r);
    if r.AskRow? && r.ask.owner == Some(item) {
      InitSnoc(AsksOf(rows, item), r.ask);
    }
  }

  lemma {:induction false} BlobsEnd(rows: Ledger, item: Item, given: map<nat, Choice>, path: string) returns (k: int)
    ensures k == -1 ==>
      && path !in ApprovedBlobs(AsksOf(rows, item), given)
      && forall j :: 0 <= j < |rows| ==> !ApprovesIn(rows[j], item, given, path)
    ensures k != -1 ==>
      && 0 <= k < |rows| && ApprovesIn(rows[k], item, given, path)
      && (forall j :: k < j < |rows| ==> !ApprovesIn(rows[j], item, given, path))
      && path in ApprovedBlobs(AsksOf(rows, item), given)
      && ApprovedBlobs(AsksOf(rows, item), given)[path] == rows[k].ask.gateBlobs[path]
  {
    k := -1;
    if rows != [] {
      BlobsSnoc(Init(rows), Last(rows), item, given, path);
      assert rows == Init(rows) + [Last(rows)];
      if ApprovesIn(Last(rows), item, given, path) {
        k := |rows| - 1;
      } else {
        k := BlobsEnd(Init(rows), item, given, path);
      }
    }
  }

  /** The blobs read as approved are those of the last approvals. */
  lemma {:induction false} ApprovedIff(rows: Ledger, item: Item, path: string, blob: string)
    ensures var approved := ApprovedBlobs(AsksOf(rows, item), Answers(rows));
      (path in approved && approved[path] == blob) <==> LastApproved(rows, item, path, blob)
  {
    var k := BlobsEnd(rows, item, Answers(rows), path);
    forall j | 0 <= j < |rows|
      ensures Approves(rows, item, rows[j], path) <==> ApprovesIn(rows[j], item, Answers(rows), path)
    {
      if rows[j].AskRow? { AnsweredWithIff(rows, rows[j].ask.id, Approve); }
    }
  }

  ghost predicate AllApproved(rows: Ledger, item: Item, blobs: Blobs) {
    forall path :: path in blobs ==> LastApproved(rows, item, path, blobs[path])
  }

  lemma {:induction false} AllApprovedIff(rows: Ledger, item: Item, blobs: Blobs)
    ensures BlobsApproved(ApprovedBlobs(AsksOf(rows, item), Answers(rows)), blobs) <==> AllApproved(rows, item, blobs)
  {
    forall path | path in blobs
      ensures var approved := ApprovedBlobs(AsksOf(rows, item), Answers(rows));
        (path in approved && approved[path] == blobs[path]) <==> LastApproved(rows, item, path, blobs[path])
    {
      ApprovedIff(rows, item, path, blobs[path]);
    }
  }

  // ---- the reading, both ways

  /** An item's own merge answer covers it, whatever its branch changes and whatever the
      policy. */
  lemma {:induction false} OwnAnswerCovers(rows: Ledger, item: Item, blobs: Blobs, policy: StandingPolicy)
    requires OwnAnswered(rows, item)
    ensures Cover(rows, item, blobs, policy) == Covered
  {
    OwnIff(rows, item);
  }

  /** Without one, its latest train covers it exactly when everything ahead has merged
      and each changed gate file's last approved blob is that one; it waits exactly when
      something ahead has not merged. */
  lemma {:induction false} TrainCovers(rows: Ledger, item: Item, blobs: Blobs, policy: StandingPolicy, k: int)
    requires !OwnAnswered(rows, item) && LatestTrain(rows, item, k)
    ensures var ahead := AllAheadMerged(rows, rows[k].ask.covers, item);
      && (Cover(rows, item, blobs, policy) == Covered <==> ahead && AllApproved(rows, item, blobs))
      && (Cover(rows, item, blobs, policy) == Waiting <==> !ahead)
  {
    OwnIff(rows, item);
    LatestTrainIff(rows, item);
    AheadIff(rows, rows[k].ask.covers, item);
    AllApprovedIff(rows, item, blobs);
  }

  /** With neither, standing consent covers it exactly when its row is there, the policy
      is on and no gate file changed. */
  lemma {:induction false} StandingCoversIff(rows: Ledger, item: Item, blobs: Blobs, policy: StandingPolicy)
    requires !OwnAnswered(rows, item) && forall k :: !LatestTrain(rows, item, k)
    ensures Cover(rows, item, blobs, policy) == Covered
       <==> ConsentRow(item) in rows && policy.enabled && blobs == map[]
    ensures Cover(rows, item, blobs, policy) != Waiting
  {
    OwnIff(rows, item);
    LatestTrainIff(rows, item);
    StandingIs(rows, item);
  }

  /** What covers an item's merge. */
  ghost predicate IsCovered(rows: Ledger, item: Item, blobs: Blobs, policy: StandingPolicy) {
    || OwnAnswered(rows, item)
    || (exists k :: LatestTrain(rows, item, k) && AllAheadMerged(rows, rows[k].ask.covers, item)
                    && AllApproved(rows, item, blobs))
    || ((forall k :: !LatestTrain(rows, item, k)) && ConsentRow(item) in rows && policy.enabled && blobs == map[])
  }

  /** The one reading `next` and the merge share, both ways, for all blobs and policies. */
  lemma {:induction false} CoverIff(rows: Ledger, item: Item, blobs: Blobs, policy: StandingPolicy)
    ensures Cover(rows, item, blobs, policy) == Covered <==> IsCovered(rows, item, blobs, policy)
  {
    if OwnAnswered(rows, item) {
      OwnAnswerCovers(rows, item, blobs, policy);
    } else if k :| LatestTrain(rows, item, k) {
      TrainCovers(rows, item, blobs, policy, k);
      assert forall j :: LatestTrain(rows, item, j) ==> j == k;
    } else {
      StandingCoversIff(rows, item, blobs, policy);
    }
  }
}
