/** What covers an item's merge (tools/factory/conductor_consent.py), and the
    merge precondition built on it (tools/factory/conductor_merge.py). */
module Consent {
  import opened Rows
  import opened View
  import opened Flow

  datatype Reading = Covered | Waiting | Owed

  /** The resolved standing-consent policy of factory.json. */
  datatype StandingPolicy = StandingPolicy(enabled: bool, tierLabels: set<string>)

  predicate HasStanding(rows: Ledger, item: Item) {
    rows != [] && (Last(rows) == ConsentRow(item) || HasStanding(Init(rows), item))
  }

  predicate IsOwnMerge(r: Row, item: Item, given: map<nat, Choice>) {
    && r.AskRow? && r.ask.kind == MergeAsk && r.ask.owner == Some(item)
    && r.ask.id in given && given[r.ask.id] == Merge
  }

  predicate IsTrain(r: Row, item: Item, given: map<nat, Choice>) {
    && r.AskRow? && r.ask.kind == MergeAsk && !IsOwnMerge(r, item, given)
    && item in r.ask.covers && r.ask.id in given && given[r.ask.id] == Train
  }

  /** The item's own merge asks answered `merge`, in ledger order. */
  function OwnMerges(rows: Ledger, item: Item, given: map<nat, Choice>): seq<Ask> {
    if rows == [] then []
    else if IsOwnMerge(Last(rows), item, given) then OwnMerges(Init(rows), item, given) + [Last(rows).ask]
    else OwnMerges(Init(rows), item, given)
  }

  /** The train asks listing it answered `train`, in ledger order. */
  function Trains(rows: Ledger, item: Item, given: map<nat, Choice>): seq<Ask> {
    if rows == [] then []
    else if IsTrain(Last(rows), item, given) then Trains(Init(rows), item, given) + [Last(rows).ask]
    else Trains(Init(rows), item, given)
  }

  /** The gate blobs approved at these asks, a later approval winning. */
  function ApprovedBlobs(asks: seq<Ask>, given: map<nat, Choice>): Blobs {
    if asks == [] then map[]
    else
      var a := Last(asks);
      var earlier := ApprovedBlobs(Init(asks), given);
      if a.kind == GateAsk && a.id in given && given[a.id] == Approve then earlier + a.gateBlobs else earlier
  }

  /** Every item ahead of `item` on the train has merged. */
  predicate AheadMerged(rows: Ledger, covers: seq<Item>, item: Item) {
    covers == [] || covers[0] == item
    || (ViewOf(rows, covers[0]).State() == Merged && AheadMerged(rows, covers[1..], item))
  }

  predicate BlobsApproved(approved: Blobs, blobs: Blobs) {
    forall path :: path in blobs ==> path in approved && approved[path] == blobs[path]
  }

  function TrainCover(rows: Ledger, item: Item, train: Ask, blobs: Blobs): Reading {
    if !AheadMerged(rows, train.covers, item) then Waiting
    else if !BlobsApproved(ApprovedBlobs(AsksOf(rows, item), Answers(rows)), blobs) then Owed
    else Covered
  }

  /** The standing policy covers an item: it is on, no gate file changed, and the
      issue's labels (None when no tier list asks for them) meet the tiers. */
  predicate StandingCovers(blobs: Blobs, labels: Option<set<string>>, policy: StandingPolicy) {
    && policy.enabled
    && blobs == map[]
    && !(policy.tierLabels != {} && labels.Some? && policy.tierLabels !! labels.value)
  }

  /** conductor_consent.cover: the one reading `next` and the merge share. */
  function Cover(rows: Ledger, item: Item, blobs: Blobs, policy: StandingPolicy): Reading {
    var given := Answers(rows);
    var trains := Trains(rows, item, given);
    if OwnMerges(rows, item, given) != [] then Covered
    else if trains != [] then TrainCover(rows, item, Last(trains), blobs)
    else if HasStanding(rows, item) && StandingCovers(blobs, None, policy) then Covered
    else Owed
  }

  // ---- the merge precondition

  function PassedRows(states: seq<Move>): seq<Move> {
    if states == [] then []
    else if Last(states).to == Reviewed then PassedRows(Init(states)) + [Last(states)]
    else PassedRows(Init(states))
  }

  /** A text with something in it besides white space. */
  predicate IsText(text: string) {
    exists c :: c in text && c !in " \t\n\r"
  }

  function ReviewedProblem(v: ItemView): Option<Refusal> {
    var passes := PassedRows(v.states);
    if passes == [] || Last(passes).fields.verdict != Some(Pass) then Some(NoReviewedPass)
    else
      var f := Last(passes).fields;
      if && f.reviewerRun.Some?
         && (f.reviewerRun.value in f.authorRuns || f.reviewerRun.value in v.AuthorRuns()) then
        Some(Illegal(ReviewerIsAuthor))
      else if f.head.None? || !IsText(f.head.value) then Some(NoReviewedHead)
      else None
  }

  function ShippedProblem(v: ItemView): Option<Refusal> {
    if v.State() != Ship || v.Finished() then None else Some(ShipNotFinished)
  }

  /** conductor_merge.merge_problems: the first refusal, or None. */
  function MergeProblem(rows: Ledger, item: Item, blobs: Blobs, policy: StandingPolicy): Option<Refusal> {
    var v := ViewOf(rows, item);
    if v.entry.None? then Some(Illegal(UnknownItem))
    else if ReviewedProblem(v).Some? then ReviewedProblem(v)
    else if ShippedProblem(v).Some? then ShippedProblem(v)
    else if !Legal(v, Merging, NO_FIELDS) then Some(Illegal(TransitionProblem(v, Merging, NO_FIELDS).value))
    else if Cover(rows, item, blobs, policy) != Covered then Some(NotCovered)
    else None
  }

  predicate MergeAllowed(rows: Ledger, item: Item, blobs: Blobs, policy: StandingPolicy) {
    MergeProblem(rows, item, blobs, policy).None?
  }

  // ---- what consented: the evidence in the rows

  /** Some consent covers the item: its own merge answer, a train answer, or standing consent. */
  ghost predicate Consented(rows: Ledger, item: Item) {
    || (exists a :: AskRow(a) in rows && a.kind == MergeAsk && a.owner == Some(item)
                    && a.id in Answers(rows) && Answers(rows)[a.id] == Merge)
    || (exists a :: AskRow(a) in rows && a.kind == MergeAsk && item in a.covers
                    && a.id in Answers(rows) && Answers(rows)[a.id] == Train)
    || ConsentRow(item) in rows
  }

  lemma {:induction false} OwnMergesAre(rows: Ledger, item: Item, given: map<nat, Choice>)
    ensures forall a :: a in OwnMerges(rows, item, given) <==> AskRow(a) in rows && IsOwnMerge(AskRow(a), item, given)
  {
    if rows != [] {
      OwnMergesAre(Init(rows), item, given);
      assert rows == Init(rows) + [Last(rows)];
    }
  }

  lemma {:induction false} TrainsAre(rows: Ledger, item: Item, given: map<nat, Choice>)
    ensures forall a :: a in Trains(rows, item, given) <==> AskRow(a) in rows && IsTrain(AskRow(a), item, given)
  {
    if rows != [] {
      TrainsAre(Init(rows), item, given);
      assert rows == Init(rows) + [Last(rows)];
    }
  }

  lemma {:induction false} StandingIs(rows: Ledger, item: Item)
    ensures HasStanding(rows, item) <==> ConsentRow(item) in rows
  {
    if rows != [] {
      StandingIs(Init(rows), item);
      assert rows == Init(rows) + [Last(rows)];
    }
  }

  /** Nothing reads as covered without a consent row or a consenting answer. */
  lemma CoveredIsConsented(rows: Ledger, item: Item, blobs: Blobs, policy: StandingPolicy)
    requires Cover(rows, item, blobs, policy) == Covered
    ensures Consented(rows, item)
  {
    var given := Answers(rows);
    var own, trains := OwnMerges(rows, item, given), Trains(rows, item, given);
    OwnMergesAre(rows, item, given);
    TrainsAre(rows, item, given);
    StandingIs(rows, item);
    if own != [] {
      var a := Last(own);
      assert a in own && AskRow(a) in rows && IsOwnMerge(AskRow(a), item, given);
    } else if trains != [] {
      var a := Last(trains);
      assert a in trains && AskRow(a) in rows && IsTrain(AskRow(a), item, given);
    }
  }

  /** The Owner approved this blob of a gate file at one of the item's gate asks. */
  ghost predicate BlobApproved(rows: Ledger, item: Item, path: string, blob: string) {
    exists g :: AskRow(g) in rows && g.kind == GateAsk && g.owner == Some(item)
             && g.id in Answers(rows) && Answers(rows)[g.id] == Approve
             && path in g.gateBlobs && g.gateBlobs[path] == blob
  }

  lemma {:induction false} ApprovedAtAnAsk(asks: seq<Ask>, given: map<nat, Choice>, path: string) returns (g: Ask)
    requires path in ApprovedBlobs(asks, given)
    ensures g in asks && g.kind == GateAsk && g.id in given && given[g.id] == Approve
    ensures path in g.gateBlobs && g.gateBlobs[path] == ApprovedBlobs(asks, given)[path]
  {
    var a := Last(asks);
    if a.kind == GateAsk && a.id in given && given[a.id] == Approve && path in a.gateBlobs {
      g := a;
    } else {
      g := ApprovedAtAnAsk(Init(asks), given, path);
    }
  }

  /** The evidence of a train that covers changed gate files. */
  ghost predicate TrainApproved(rows: Ledger, item: Item, blobs: Blobs, t: Ask) {
    && AskRow(t) in rows && IsTrain(AskRow(t), item, Answers(rows)) && AheadMerged(rows, t.covers, item)
    && forall path :: path in blobs ==> BlobApproved(rows, item, path, blobs[path])
  }

  /** An item whose branch changes gate files is covered only by its own merge
      answer, or by a train with everything ahead of it merged when the Owner
      approved each changed file's very blob; standing consent never covers it. */
  lemma {:induction false} GateFilesNeedTheOwner(rows: Ledger, item: Item, blobs: Blobs, policy: StandingPolicy)
    requires blobs != map[] && Cover(rows, item, blobs, policy) == Covered
    ensures (exists a :: AskRow(a) in rows && IsOwnMerge(AskRow(a), item, Answers(rows)))
         || (exists t :: TrainApproved(rows, item, blobs, t))
  {
    var given := Answers(rows);
    var own, trains := OwnMerges(rows, item, given), Trains(rows, item, given);
    OwnMergesAre(rows, item, given);
    TrainsAre(rows, item, given);
    if own != [] {
      assert own[0] in own && AskRow(own[0]) in rows;
    } else {
      var t := Last(trains);
      assert t in trains;
      forall path | path in blobs
        ensures BlobApproved(rows, item, path, blobs[path])
      {
        var g := ApprovedAtAnAsk(AsksOf(rows, item), given, path);
        AsksAreRows(rows, item);
      }
      assert TrainApproved(rows, item, blobs, t);
    }
  }
}
