/** The survey and the two deciders it must agree with: every step it offers is
    a move the state machine accepts, and every shipped item it offers for merge
    meets the merge precondition, on the ledger its own rows leave. */
module Offers {
  import opened Rows
  import opened View
  import opened Flow
  import opened Consent
  import opened Survey
  import opened Protocol
  import opened Walk

  // ---- what one item's candidate writes

  predicate WritesOwn(more: seq<Row>, item: Item) {
    forall r :: r in more ==> r == ConsentRow(item) || (r.Grouped() == Some(item) && !r.ReserveRow?)
  }

  predicate NoMergeAsks(more: seq<Row>) {
    forall r :: r in more ==> r.AskRow? ==> r.ask.kind != MergeAsk
  }

  /** A candidate writes only its own item's rows, asks no merge, and offers a
      step only when it writes at most a consent row. */
  predicate CandidateOk(c: Candidate, item: Item) {
    && Quiet(c.writes) && WritesOwn(c.writes, item) && NoMergeAsks(c.writes)
    && (c.ready.Some? ==> c.writes == [] || c.writes == [ConsentRow(item)])
  }

  lemma StallWritesOwn(rows: Ledger, at: int, item: Item, cause: Cause, recommended: Choice,
                       given: Option<seq<Choice>>, pr: Option<nat>)
    ensures var more := StallRows(rows, at, item, cause, recommended, given, pr);
      Quiet(more) && WritesOwn(more, item) && NoMergeAsks(more)
  {
    var more := StallRows(rows, at, item, cause, recommended, given, pr);
    assert forall r :: r in more ==> r == more[0] || r == more[1];
  }

  lemma FlyingOk(rows: Ledger, w: World, entry: Entry, launch: Move)
    requires launch.fields.runId.Some?
    ensures CandidateOk(FlyingStep(rows, w, entry, launch), entry.item)
  {
    var lost := LostRun(rows, entry, launch);
    StallWritesOwn(rows + [lost], w.now, entry.item, RunnerGone, Retry, None, None);
    StallWritesOwn(rows, w.now, entry.item, RunnerGone, Retry, None, None);
  }

  lemma AfterOk(rows: Ledger, w: World, entry: Entry, state: State)
    ensures CandidateOk(AfterStep(rows, w, entry, state), entry.item)
  {
  }

  lemma StepOk(rows: Ledger, w: World, entry: Entry)
    ensures CandidateOk(StepOf(rows, w, entry), entry.item)
  {
    var v := ViewOf(rows, entry.item);
    if v.State() == Merging {
      StallWritesOwn(rows, w.now, entry.item, RunnerGone, Retry, None, None);
    } else if v.InFlight() {
      FlyingOk(rows, w, entry, Last(v.states));
    } else {
      AfterOk(rows, w, entry, v.State());
    }
  }

  lemma CandidateWrites(rows: Ledger, w: World, entry: Entry)
    ensures CandidateOk(CandidateOf(rows, w, entry), entry.item)
  {
    var v := ViewOf(rows, entry.item);
    var facts := FactsOf(w.facts, entry.item);
    StepOk(rows, w, entry);
    StallWritesOwn(rows, w.now, entry.item, MergeDrift, LandedAdvice(v.State(), facts.unchecked),
                   Some([Retry, AsMerged, Block]), facts.mergedPr);
  }

  lemma {:induction false} SurveyItemsWrites(rows: Ledger, w: World, entries: seq<Entry>)
    ensures var s := SurveyItems(rows, w, entries);
      && Quiet(s.writes)
      && (forall r :: r in s.writes ==> exists e :: e in entries && WritesOwn([r], e.item))
      && (forall o :: o in s.offers ==> exists e :: e in entries && o.item == e.item)
  {
    if entries != [] {
      SurveyItemsWrites(rows, w, Init(entries));
      var s := SurveyItems(rows, w, Init(entries));
      CandidateWrites(rows + s.writes, w, Last(entries));
      forall r | r in SurveyItems(rows, w, entries).writes
        ensures exists e :: e in entries && WritesOwn([r], e.item)
      {
        if r in s.writes {
          var e :| e in Init(entries) && WritesOwn([r], e.item);
          assert e in entries;
        } else {
          assert Last(entries) in entries && WritesOwn([r], Last(entries).item);
        }
      }
      forall o | o in SurveyItems(rows, w, entries).offers
        ensures exists e :: e in entries && o.item == e.item
      {
        if o in s.offers {
          var e :| e in Init(entries) && o.item == e.item;
          assert e in entries;
        } else {
          assert Last(entries) in entries;
        }
      }
    }
  }

  /** The rows written for the other items leave an item's view as it was. */
  lemma {:induction false} OthersWriteElsewhere(rows: Ledger, w: World, entries: seq<Entry>, item: Item)
    requires forall e :: e in entries ==> e.item != item
    ensures var s := SurveyItems(rows, w, entries);
      Avoids(s.writes, item) && ViewOf(rows + s.writes, item) == ViewOf(rows, item)
  {
    SurveyItemsWrites(rows, w, entries);
    var s := SurveyItems(rows, w, entries);
    forall r | r in s.writes
      ensures r.Grouped() != Some(item)
    {
      var e :| e in entries && WritesOwn([r], e.item);
      assert r in [r];
    }
    FrameMany(rows, s.writes, item);
  }

  // ---- offers are legal

  /** What an item's view keeps in every lawful ledger. */
  ghost predicate ItemKept(v: ItemView, entry: Entry) {
    && v.entry == Some(entry) && v.item == entry.item
    && StepNames(entry.steps) == ItemSteps(entry.kind)
    && (forall m :: m in v.states ==> Shaped(m))
    && !(v.State() == Spec && entry.kind == Order)
    && (v.State() == Stalled ==> Last(v.states).from != Stalled && !Last(v.states).from.IsTerminal())
    && (v.State() == Ship ==> ReviewedProblem(v).None?)
  }

  lemma {:induction false} EntryFound(entries: seq<Entry>, entry: Entry)
    requires DistinctItems(entries) && entry in entries
    ensures FindEntry(entries, entry.item) == Some(entry)
  {
    if Last(entries) != entry {
      assert entries == Init(entries) + [Last(entries)];
      assert entry in Init(entries);
      EntryFound(Init(entries), entry);
    }
  }

  lemma {:induction false} WalkedStatesWereEntered(states: seq<Move>, s: State)
    requires s in WalkOf(states) && s != Planned
    ensures exists m :: m in states && m.to == s
  {
    if states != [] {
      if s in WalkOf(Init(states)) {
        WalkedStatesWereEntered(Init(states), s);
        var m :| m in Init(states) && m.to == s;
        assert m in states;
      } else {
        assert Last(states) in states;
      }
    }
  }

  lemma {:induction false} ShippedWasReviewed(rows: Ledger, item: Item)
    requires Lawful(rows) && ViewOf(rows, item).State() == Ship && ViewOf(rows, item).entry.Some?
    ensures ReviewedProblem(ViewOf(rows, item)).None?
  {
    var v := ViewOf(rows, item);
    WalkIsDocumented(rows, item);
    RowsShaped(rows, item);
    var w := WalkOf(v.states);
    assert Edge(v.entry.value.kind, w[|w| - 2], w[|w| - 1]);
    assert w[|w| - 2] == Reviewed;
    WalkedStatesWereEntered(v.states, Reviewed);
    PassedAreStates(v.states);
    var passes := PassedRows(v.states);
    assert Last(passes) in passes && Shaped(Last(passes));
    AuthorsAreNotReviews(v.runs);
  }

  lemma {:induction false} ItemsAreKept(rows: Ledger, entry: Entry)
    requires Lawful(rows) && entry in Entries(rows)
    ensures ItemKept(ViewOf(rows, entry.item), entry)
  {
    PlanStays(rows);
    EntryFound(Entries(rows), entry);
    EntrySteps(rows, entry.item);
    RowsShaped(rows, entry.item);
    WalkIsDocumented(rows, entry.item);
    var v := ViewOf(rows, entry.item);
    if v.State() == Spec && entry.kind == Order {
      var w := WalkOf(v.states);
      OrdersSkipTheSpec(Order, w, |w| - 1);
    }
    if v.State() == Ship {
      ShippedWasReviewed(rows, entry.item);
    }
  }

  lemma FirstStep(entry: Entry)
    requires StepNames(entry.steps) == ItemSteps(entry.kind)
    ensures entry.steps != [] && entry.steps[0].step == if entry.kind == Order then Build else Spec
  {
    assert StepNames(entry.steps)[0] == entry.steps[0].step;
  }

  /** By itself, the step offered for an item is a legal move of that item. */
  lemma StepIsLegal(rows: Ledger, w: World, entry: Entry, fields: Fields)
    requires ItemKept(ViewOf(rows, entry.item), entry) && fields.verdict.None?
    requires StepOf(rows, w, entry).ready.Some?
    ensures Legal(ViewOf(rows, entry.item), StepOf(rows, w, entry).ready.value.Target(), fields)
  {
    var v := ViewOf(rows, entry.item);
    FirstStep(entry);
    if v.State() == Stalled {
      assert Last(v.states) in v.states;
    } else if v.states != [] {
      assert Shaped(Last(v.states));
    }
  }

  lemma CandidateIsLegal(rows: Ledger, w: World, entry: Entry, fields: Fields)
    requires ItemKept(ViewOf(rows, entry.item), entry) && fields.verdict.None?
    requires CandidateOf(rows, w, entry).ready.Some?
    ensures CandidateOf(rows, w, entry) == StepOf(rows, w, entry)
    ensures Legal(ViewOf(rows, entry.item), CandidateOf(rows, w, entry).ready.value.Target(), fields)
  {
    StepIsLegal(rows, w, entry, fields);
  }

  // ---- where an offer comes from

  lemma OfferedViewStep(rows: Ledger, s: Surveyed, item: Item, c: Candidate, offer: Offer)
    requires CandidateOk(c, item)
    requires offer in Absorb(s, item, c).offers
    requires offer in s.offers ==> offer.item != item
    ensures ViewOf(rows + Absorb(s, item, c).writes, offer.item) == ViewOf(rows + s.writes, offer.item)
  {
    assert rows + (s.writes + c.writes) == (rows + s.writes) + c.writes;
    FrameMany(rows + s.writes, c.writes, offer.item);
  }

  /** An offer is the candidate of one entry of the plan, read on the rows
      written for the entries before it. */
  ghost predicate OfferedBy(rows: Ledger, w: World, entries: seq<Entry>, k: nat, offer: Offer) {
    && k < |entries| && offer.item == entries[k].item
    && CandidateOf(rows + SurveyItems(rows, w, entries[..k]).writes, w, entries[k]).ready == Some(offer.ready)
  }

  lemma AbsorbedOffer(s: Surveyed, item: Item, c: Candidate, offer: Offer)
    requires offer in Absorb(s, item, c).offers
    ensures offer in s.offers || (offer.item == item && c.ready == Some(offer.ready))
  {
  }

  lemma {:induction false} SurveyPrefix(rows: Ledger, w: World, entries: seq<Entry>, k: nat)
    requires k < |entries|
    ensures var s := SurveyItems(rows, w, entries[..k]);
      SurveyItems(rows, w, entries[..k + 1]) == Absorb(s, entries[k].item, CandidateOf(rows + s.writes, w, entries[k]))
  {
    var some := entries[..k + 1];
    assert Init(some) == entries[..k] && Last(some) == entries[k];
  }

  lemma {:induction false} SurveySnoc(rows: Ledger, w: World, entries: seq<Entry>)
    requires entries != []
    ensures var s := SurveyItems(rows, w, Init(entries));
      SurveyItems(rows, w, entries) == Absorb(s, Last(entries).item, CandidateOf(rows + s.writes, w, Last(entries)))
  {
  }

  lemma {:induction false} OfferSource(rows: Ledger, w: World, entries: seq<Entry>, offer: Offer) returns (k: nat)
    requires offer in SurveyItems(rows, w, entries).offers
    ensures OfferedBy(rows, w, entries, k, offer)
  {
    if entries != [] {
      var before := Init(entries);
      var s := SurveyItems(rows, w, before);
      SurveySnoc(rows, w, entries);
      AbsorbedOffer(s, Last(entries).item, CandidateOf(rows + s.writes, w, Last(entries)), offer);
      assert before == entries[..|entries| - 1];
      if offer in s.offers {
        k := OfferSource(rows, w, before, offer);
        OfferedByPrefix(rows, w, entries, k, offer);
      } else {
        k := |entries| - 1;
      }
    }
  }

  lemma OfferedByPrefix(rows: Ledger, w: World, entries: seq<Entry>, k: nat, offer: Offer)
    requires entries != [] && OfferedBy(rows, w, Init(entries), k, offer)
    ensures OfferedBy(rows, w, entries, k, offer)
  {
    assert Init(entries)[..k] == entries[..k] && Init(entries)[k] == entries[k];
  }

  lemma KeptByAbsorb(rows: Ledger, s: Surveyed, item: Item, c: Candidate, offer: Offer)
    requires CandidateOk(c, item) && offer in Absorb(s, item, c).offers
    requires offer in s.offers ==> offer.item != item && ViewOf(rows + s.writes, offer.item) == ViewOf(rows, offer.item)
    requires offer !in s.offers ==> ViewOf(rows + s.writes, item) == ViewOf(rows, item)
    ensures ViewOf(rows + Absorb(s, item, c).writes, offer.item) == ViewOf(rows, offer.item)
  {
    AbsorbedOffer(s, item, c, offer);
    OfferedViewStep(rows, s, item, c, offer);
  }

  /** An item offered a step sees none of the survey's rows: its view stays. */
  lemma {:induction false} OfferedViewIsKept(rows: Ledger, w: World, entries: seq<Entry>, offer: Offer)
    requires DistinctItems(entries)
    requires offer in SurveyItems(rows, w, entries).offers
    ensures ViewOf(rows + SurveyItems(rows, w, entries).writes, offer.item) == ViewOf(rows, offer.item)
  {
    if entries != [] {
      var before, item := Init(entries), Last(entries).item;
      OthersDiffer(entries);
      var s := SurveyItems(rows, w, before);
      if offer in s.offers {
        SurveyItemsWrites(rows, w, before);
        OfferedViewIsKept(rows, w, before, offer);
      } else {
        OthersWriteElsewhere(rows, w, before, item);
      }
      CandidateWrites(rows + s.writes, w, Last(entries));
      SurveySnoc(rows, w, entries);
      KeptByAbsorb(rows, s, item, CandidateOf(rows + s.writes, w, Last(entries)), offer);
    }
  }

  lemma OthersDiffer(entries: seq<Entry>)
    requires entries != [] && DistinctItems(entries)
    ensures DistinctItems(Init(entries)) && forall e :: e in Init(entries) ==> e.item != Last(entries).item
  {
    assert entries == Init(entries) + [Last(entries)];
  }

  lemma {:induction false} ItemOffersAreLegal(rows: Ledger, w: World, entries: seq<Entry>, offer: Offer, fields: Fields)
    requires DistinctItems(entries) && fields.verdict.None?
    requires forall e :: e in entries ==> ItemKept(ViewOf(rows, e.item), e)
    requires offer in SurveyItems(rows, w, entries).offers
    ensures Legal(ViewOf(rows + SurveyItems(rows, w, entries).writes, offer.item), offer.ready.Target(), fields)
  {
    var k := OfferSource(rows, w, entries, offer);
    OthersWriteElsewhere(rows, w, entries[..k], offer.item);
    CandidateIsLegal(rows + SurveyItems(rows, w, entries[..k]).writes, w, entries[k], fields);
    OfferedViewIsKept(rows, w, entries, offer);
  }

  lemma {:induction false} TruncateKeeps<T>(s: seq<T>, room: int, x: T)
    requires x in Truncate(s, room)
    ensures x in s
  {
  }

  /** The batch pause touches no item. */
  lemma {:induction false} PauseTouchesNoItem(rows: Ledger, w: World, item: Item)
    ensures ViewOf(rows + SurveyWrites(rows, w), item)
         == ViewOf(rows + SurveyItems(rows, w, Entries(rows)).writes, item)
  {
    var writes := SurveyItems(rows, w, Entries(rows)).writes;
    if SurveyWrites(rows, w) != writes {
      var pause := Last(SurveyWrites(rows, w));
      assert rows + SurveyWrites(rows, w) == (rows + writes) + [pause];
      Frame(rows + writes, pause, item);
    }
  }

  /** Every (item, step) a survey of a lawful ledger offers is a move the state
      machine accepts once all of the survey's own rows are written, whatever
      run id and pid the launch carries. */
  lemma {:induction false} OffersAreLegal(rows: Ledger, w: World, wipCap: int, offer: Offer, fields: Fields)
    requires Lawful(rows) && fields.verdict.None?
    requires offer in SurveyOffers(rows, w, wipCap)
    ensures Legal(ViewOf(rows + SurveyWrites(rows, w), offer.item), offer.ready.Target(), fields)
  {
    PlanStays(rows);
    var entries := Entries(rows);
    forall e | e in entries
      ensures ItemKept(ViewOf(rows, e.item), e)
    {
      ItemsAreKept(rows, e);
    }
    TruncateKeeps(SurveyItems(rows, w, entries).offers, wipCap - SurveyItems(rows, w, entries).flying, offer);
    ItemOffersAreLegal(rows, w, entries, offer, fields);
    PauseTouchesNoItem(rows, w, offer.item);
  }

  // ---- merge offers meet the merge precondition

  /** A merge ask covers the item, answered or not. */
  ghost predicate MergeAsked(rows: Ledger, item: Item) {
    exists a :: AskRow(a) in rows && a.kind == MergeAsk && (a.owner == Some(item) || item in a.covers)
  }

  /** A merge ask covering the item has no answer yet. */
  ghost predicate MergeAskPending(rows: Ledger, item: Item) {
    exists a :: AskRow(a) in rows && a.kind == MergeAsk && item in a.covers && a.id !in Answers(rows)
  }

  /** flow.merge_due: a shipped item that waits for a merge ask. */
  ghost predicate MergeDue(rows: Ledger, item: Item, facts: Facts, policy: StandingPolicy) {
    var v := ViewOf(rows, item);
    && v.entry.Some? && v.State() == Ship && v.Finished()
    && facts.gateBlobs.Some? && v.pending.None? && !MergeAskPending(rows, item)
    && Cover(rows, item, facts.gateBlobs.value, policy) == Owed
  }

  /** The standing fact `next` reads: only for a merge-due item no merge ask
      covers, and only while the policy is on. */
  ghost function StandingFact(rows: Ledger, item: Item, facts: Facts, policy: StandingPolicy,
                              labels: Option<set<string>>): Option<Standing> {
    if policy.enabled && MergeDue(rows, item, facts, policy) && !MergeAsked(rows, item)
    then Some(Standing(StandingCovers(facts.gateBlobs.value, labels, policy), labels))
    else None
  }

  ghost predicate StandingRead(rows: Ledger, w: World) {
    forall item :: item in w.facts && w.facts[item].standing.Some? ==>
      w.facts[item].standing == StandingFact(rows, item, w.facts[item], w.policy, w.facts[item].standing.value.labels)
  }

  lemma {:induction false} NoAnswersAdded(rows: Ledger, more: seq<Row>)
    requires Quiet(more)
    ensures Answers(rows + more) == Answers(rows)
    decreases |more|
  {
    if more == [] {
      assert rows + more == rows;
    } else {
      InitSnoc(rows, more[0]);
      NoAnswersAdded(rows + [more[0]], more[1..]);
      assert rows + more == (rows + [more[0]]) + more[1..];
    }
  }

  lemma {:induction false} NoMergesAdded(rows: Ledger, more: seq<Row>, item: Item, given: map<nat, Choice>)
    requires NoMergeAsks(more)
    ensures OwnMerges(rows + more, item, given) == OwnMerges(rows, item, given)
    ensures Trains(rows + more, item, given) == Trains(rows, item, given)
    ensures HasStanding(rows, item) ==> HasStanding(rows + more, item)
    ensures ConsentRow(item) in more ==> HasStanding(rows + more, item)
    decreases |more|
  {
    if more == [] {
      assert rows + more == rows;
    } else {
      InitSnoc(rows, more[0]);
      NoMergesAdded(rows + [more[0]], more[1..], item, given);
      assert rows + more == (rows + [more[0]]) + more[1..];
    }
  }

  ghost predicate MergedStays(rows: Ledger, more: seq<Row>) {
    forall item {:trigger ViewOf(rows, item)} ::
      ViewOf(rows, item).State() == Merged ==> ViewOf(rows + more, item).State() == Merged
  }

  lemma {:induction false} AheadStaysMerged(rows: Ledger, more: seq<Row>, covers: seq<Item>, item: Item)
    requires MergedStays(rows, more) && AheadMerged(rows, covers, item)
    ensures AheadMerged(rows + more, covers, item)
  {
    if covers != [] && covers[0] != item {
      assert ViewOf(rows, covers[0]).State() == Merged;
      AheadStaysMerged(rows, more, covers[1..], item);
    }
  }

  /** Rows that answer nothing, ask no merge and unmerge nothing keep an item covered. */
  lemma CoverStays(rows: Ledger, more: seq<Row>, item: Item, blobs: Blobs, policy: StandingPolicy)
    requires Quiet(more) && NoMergeAsks(more) && Avoids(more, item) && MergedStays(rows, more)
    requires Cover(rows, item, blobs, policy) == Covered
    ensures Cover(rows + more, item, blobs, policy) == Covered
  {
    var given := Answers(rows);
    NoAnswersAdded(rows, more);
    NoMergesAdded(rows, more, item, given);
    FrameMany(rows, more, item);
    var trains := Trains(rows, item, given);
    if OwnMerges(rows, item, given) == [] && trains != [] {
      AheadStaysMerged(rows, more, Last(trains).covers, item);
    }
  }

  /** Standing consent covers a merge-due item that no merge ask names. */
  lemma ConsentCovers(rows: Ledger, item: Item, facts: Facts, policy: StandingPolicy, labels: Option<set<string>>)
    requires StandingFact(rows, item, facts, policy, labels) == Some(Standing(true, labels))
    ensures Cover(rows + [ConsentRow(item)], item, facts.gateBlobs.value, policy) == Covered
  {
    var given := Answers(rows);
    var more := [ConsentRow(item)];
    NoAnswersAdded(rows, more);
    NoMergesAdded(rows, more, item, given);
    if Trains(rows, item, given) != [] {
      TrainsAreAsks(rows, item, given);
    }
  }

  lemma {:induction false} TrainsAreAsks(rows: Ledger, item: Item, given: map<nat, Choice>)
    requires Trains(rows, item, given) != []
    ensures MergeAsked(rows, item)
  {
    TrainsAre(rows, item, given);
    var a := Last(Trains(rows, item, given));
    assert a in Trains(rows, item, given) && AskRow(a) in rows;
  }

  lemma MergedIsIdle(rows: Ledger, w: World, entry: Entry)
    requires ViewOf(rows, entry.item).State() == Merged
    ensures CandidateOf(rows, w, entry).writes == []
  {
  }

  lemma MergedStaysStep(rows: Ledger, more: seq<Row>, item: Item)
    requires Quiet(more) && WritesOwn(more, item)
    requires ViewOf(rows, item).State() == Merged ==> more == []
    ensures MergedStays(rows, more)
  {
    forall i {:trigger ViewOf(rows, i)} | ViewOf(rows, i).State() == Merged
      ensures ViewOf(rows + more, i).State() == Merged
    {
      if i == item {
        assert rows + more == rows;
      } else {
        FrameMany(rows, more, i);
      }
    }
  }

  lemma CandidateKeepsMerged(rows: Ledger, w: World, entry: Entry)
    ensures MergedStays(rows, CandidateOf(rows, w, entry).writes)
  {
    CandidateWrites(rows, w, entry);
    if ViewOf(rows, entry.item).State() == Merged {
      MergedIsIdle(rows, w, entry);
    }
    MergedStaysStep(rows, CandidateOf(rows, w, entry).writes, entry.item);
  }

  lemma MergedStaysTwice(rows: Ledger, a: seq<Row>, b: seq<Row>)
    requires MergedStays(rows, a) && MergedStays(rows + a, b)
    ensures MergedStays(rows, a + b)
  {
    assert rows + (a + b) == (rows + a) + b;
    forall item {:trigger ViewOf(rows, item)} | ViewOf(rows, item).State() == Merged
      ensures ViewOf(rows + (a + b), item).State() == Merged
    {
      assert ViewOf(rows + a, item).State() == Merged;
    }
  }

  lemma {:induction false} SurveyKeepsMerged(rows: Ledger, w: World, entries: seq<Entry>)
    ensures NoMergeAsks(SurveyItems(rows, w, entries).writes)
    ensures MergedStays(rows, SurveyItems(rows, w, entries).writes)
  {
    if entries == [] {
      assert rows + [] == rows;
    } else {
      var s := SurveyItems(rows, w, Init(entries));
      SurveyKeepsMerged(rows, w, Init(entries));
      CandidateWrites(rows + s.writes, w, Last(entries));
      CandidateKeepsMerged(rows + s.writes, w, Last(entries));
      MergedStaysTwice(rows, s.writes, CandidateOf(rows + s.writes, w, Last(entries)).writes);
    }
  }

  /** The rows written for other items change neither what covers an item nor
      what its standing fact was read from. */
  lemma StandingReadStays(rows: Ledger, more: seq<Row>, w: World, item: Item)
    requires Quiet(more) && NoMergeAsks(more) && Avoids(more, item) && ConsentRow(item) !in more
    requires item in w.facts && w.facts[item].standing.Some?
    requires w.facts[item].standing
          == StandingFact(rows, item, w.facts[item], w.policy, w.facts[item].standing.value.labels)
    ensures w.facts[item].standing
         == StandingFact(rows + more, item, w.facts[item], w.policy, w.facts[item].standing.value.labels)
  {
    NoAnswersAdded(rows, more);
    FrameMany(rows, more, item);
    var given := Answers(rows);
    NoMergesAdded(rows, more, item, given);
    StandingIs(rows, item);
    StandingIs(rows + more, item);
    assert forall a :: AskRow(a) in rows + more && a.kind == MergeAsk ==> AskRow(a) in rows;
    if Trains(rows, item, given) != [] {
      TrainsAreAsks(rows, item, given);
    }
  }

  /** What the merge candidate needs of the item's own standing fact. */
  ghost predicate OwnStandingRead(rows: Ledger, w: World, item: Item) {
    item in w.facts && w.facts[item].standing.Some? ==>
      w.facts[item].standing == StandingFact(rows, item, w.facts[item], w.policy, w.facts[item].standing.value.labels)
  }

  lemma {:induction false} ConsentsAreOwn(rows: Ledger, w: World, entries: seq<Entry>, item: Item)
    requires ConsentRow(item) in SurveyItems(rows, w, entries).writes
    ensures exists e :: e in entries && e.item == item
  {
    SurveyItemsWrites(rows, w, entries);
    var e :| e in entries && WritesOwn([ConsentRow(item)], e.item);
    assert ConsentRow(item) in [ConsentRow(item)];
  }

  lemma {:induction false} OwnStandingStillRead(rows: Ledger, w: World, entries: seq<Entry>, item: Item)
    requires StandingRead(rows, w)
    requires forall e :: e in entries ==> e.item != item
    ensures OwnStandingRead(rows + SurveyItems(rows, w, entries).writes, w, item)
  {
    var s := SurveyItems(rows, w, entries);
    SurveyItemsWrites(rows, w, entries);
    OthersWriteElsewhere(rows, w, entries, item);
    SurveyKeepsMerged(rows, w, entries);
    if item in w.facts && w.facts[item].standing.Some? {
      if ConsentRow(item) in s.writes {
        ConsentsAreOwn(rows, w, entries, item);
      }
      StandingReadStays(rows, s.writes, w, item);
    }
  }

  lemma MergeCandidateIsCovered(rows: Ledger, w: World, entry: Entry)
    requires ViewOf(rows, entry.item).State() == Ship
    requires CandidateOf(rows, w, entry).ready == Some(MergeTurn)
    requires OwnStandingRead(rows, w, entry.item)
    ensures var facts := FactsOf(w.facts, entry.item);
      && ViewOf(rows, entry.item).Finished() && facts.gateBlobs.Some?
      && Cover(rows + CandidateOf(rows, w, entry).writes, entry.item, facts.gateBlobs.value, w.policy) == Covered
  {
    var facts := FactsOf(w.facts, entry.item);
    var c := CandidateOf(rows, w, entry);
    if c.writes == [] {
      assert rows + c.writes == rows;
    } else {
      ConsentCovers(rows, entry.item, facts, w.policy, facts.standing.value.labels);
    }
  }

  lemma CoverStaysStep(rows: Ledger, s: Surveyed, c: Candidate, other: Item, item: Item, blobs: Blobs,
                       policy: StandingPolicy)
    requires CandidateOk(c, other) && other != item && MergedStays(rows + s.writes, c.writes)
    requires Cover(rows + s.writes, item, blobs, policy) == Covered
    ensures Cover(rows + Absorb(s, other, c).writes, item, blobs, policy) == Covered
  {
    assert rows + (s.writes + c.writes) == (rows + s.writes) + c.writes;
    CoverStays(rows + s.writes, c.writes, item, blobs, policy);
  }

  /** What an item reads covered right after its own candidate it reads covered
      at the end of the survey. */
  lemma {:induction false} CoverStaysToTheEnd(rows: Ledger, w: World, entries: seq<Entry>, k: nat, blobs: Blobs)
    requires DistinctItems(entries) && k < |entries|
    requires Cover(rows + SurveyItems(rows, w, entries[..k + 1]).writes, entries[k].item, blobs, w.policy) == Covered
    ensures Cover(rows + SurveyItems(rows, w, entries).writes, entries[k].item, blobs, w.policy) == Covered
  {
    if k + 1 == |entries| {
      assert entries[..k + 1] == entries;
    } else {
      var s := SurveyItems(rows, w, Init(entries));
      assert Init(entries)[..k + 1] == entries[..k + 1];
      CoverStaysToTheEnd(rows, w, Init(entries), k, blobs);
      CandidateWrites(rows + s.writes, w, Last(entries));
      CandidateKeepsMerged(rows + s.writes, w, Last(entries));
      CoverStaysStep(rows, s, CandidateOf(rows + s.writes, w, Last(entries)), Last(entries).item, entries[k].item,
                     blobs, w.policy);
    }
  }

  lemma AbsorbAppends(rows: Ledger, s: Surveyed, item: Item, c: Candidate)
    ensures rows + Absorb(s, item, c).writes == (rows + s.writes) + c.writes
  {
  }

  lemma {:induction false} ItemMergeOffersAreCovered(rows: Ledger, w: World, entries: seq<Entry>, item: Item)
    requires DistinctItems(entries) && StandingRead(rows, w)
    requires Offer(item, MergeTurn) in SurveyItems(rows, w, entries).offers
    requires ViewOf(rows, item).State() == Ship
    ensures var facts := FactsOf(w.facts, item);
      && ViewOf(rows, item).Finished() && facts.gateBlobs.Some?
      && Cover(rows + SurveyItems(rows, w, entries).writes, item, facts.gateBlobs.value, w.policy) == Covered
  {
    var k := OfferSource(rows, w, entries, Offer(item, MergeTurn));
    var s := SurveyItems(rows, w, entries[..k]);
    OthersWriteElsewhere(rows, w, entries[..k], item);
    OwnStandingStillRead(rows, w, entries[..k], item);
    MergeCandidateIsCovered(rows + s.writes, w, entries[k]);
    SurveyPrefix(rows, w, entries, k);
    AbsorbAppends(rows, s, item, CandidateOf(rows + s.writes, w, entries[k]));
    CoverStaysToTheEnd(rows, w, entries, k, FactsOf(w.facts, item).gateBlobs.value);
  }

  /** When a survey of a lawful ledger offers to merge an item that is in ship,
      the merge precondition holds on the ledger its rows leave, with the same
      blobs and policy. */
  lemma {:induction false} MergeOffersAreAllowed(rows: Ledger, w: World, wipCap: int, item: Item)
    requires Lawful(rows) && StandingRead(rows, w)
    requires Offer(item, MergeTurn) in SurveyOffers(rows, w, wipCap)
    requires ViewOf(rows, item).State() == Ship
    ensures FactsOf(w.facts, item).gateBlobs.Some?
    ensures MergeAllowed(rows + SurveyWrites(rows, w), item, FactsOf(w.facts, item).gateBlobs.value, w.policy)
  {
    PlanStays(rows);
    var entries := Entries(rows);
    var offer := Offer(item, MergeTurn);
    OffersAreLegal(rows, w, wipCap, offer, NO_FIELDS);
    TruncateKeeps(SurveyItems(rows, w, entries).offers, wipCap - SurveyItems(rows, w, entries).flying, offer);
    ItemMergeOffersAreCovered(rows, w, entries, item);
    SurveyItemsWrites(rows, w, entries);
    var e :| e in entries && e.item == item;
    ItemsAreKept(rows, e);
    OfferedViewIsKept(rows, w, entries, offer);
    PauseTouchesNoItem(rows, w, item);
    PauseKeepsCover(rows, w, item, FactsOf(w.facts, item).gateBlobs.value);
    MergeAllowedFrom(rows + SurveyWrites(rows, w), item, FactsOf(w.facts, item).gateBlobs.value, w.policy);
  }

  lemma MergeAllowedFrom(rows: Ledger, item: Item, blobs: Blobs, policy: StandingPolicy)
    requires var v := ViewOf(rows, item);
      && v.entry.Some? && ReviewedProblem(v).None? && v.Finished() && Legal(v, Merging, NO_FIELDS)
    requires Cover(rows, item, blobs, policy) == Covered
    ensures MergeAllowed(rows, item, blobs, policy)
  {
  }

  lemma {:induction false} PauseKeepsCover(rows: Ledger, w: World, item: Item, blobs: Blobs)
    requires Cover(rows + SurveyItems(rows, w, Entries(rows)).writes, item, blobs, w.policy) == Covered
    ensures Cover(rows + SurveyWrites(rows, w), item, blobs, w.policy) == Covered
  {
    var writes := SurveyItems(rows, w, Entries(rows)).writes;
    if SurveyWrites(rows, w) != writes {
      var pause := Last(SurveyWrites(rows, w));
      assert rows + SurveyWrites(rows, w) == (rows + writes) + [pause];
      forall i {:trigger ViewOf(rows + writes, i)} | ViewOf(rows + writes, i).State() == Merged
        ensures ViewOf((rows + writes) + [pause], i).State() == Merged
      {
        Frame(rows + writes, pause, i);
      }
      CoverStays(rows + writes, [pause], item, blobs, w.policy);
    }
  }
}
