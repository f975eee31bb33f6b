/** Which step `next` offers, and where it moves an item without one: told case by
    case, and proved of the survey in both directions. */
module Due {
  import opened Rows
  import opened View
  import opened Flow
  import opened Consent
  import opened Survey
  import opened Protocol
  import opened Offers

  // ---- what one item is due

  /** No breakdown row is left to build. */
  predicate BuiltAll(facts: Facts) {
    facts.unchecked.None? || facts.unchecked.value == 0
  }

  /** The item's PR merged outside the batch, and no stall named it yet. */
  predicate LandedUnasked(v: ItemView, facts: Facts) {
    && facts.mergedPr.Some?
    && !exists m :: && m in v.states && m.to == Stalled && m.fields.cause == Some(MergeDrift)
                    && m.fields.pr == facts.mergedPr
  }

  /** The run the last state row names ended completed. */
  predicate RanThrough(v: ItemView) {
    v.Finishing().Some? && v.Finishing().value.outcome == Completed
  }

  /** Where the item stands, a completed run calls for this step. `merges`: what covers
      its merge, or may. */
  predicate CalledByRun(kind: ItemType, state: State, facts: Facts, merges: bool, ready: Ready) {
    || (state == Spec && kind != Feature && facts.gateBlobs == Some(map[]) && ready == Go(Build))
    || (state == Build && kind == Order && ready == Go(Verify))
    || (state == Build && kind != Order && facts.gateBlobs.Some? && BuiltAll(facts) && ready == Go(Verify))
    || (state == Build && kind != Order && facts.gateBlobs.Some? && !BuiltAll(facts) && ready == Go(Build))
    || (state == Verify && ready == Go(Review))
    || (state == Ship && facts.gateBlobs.Some? && merges && ready == MergeTurn)
  }

  /** The step an item stands ready for: resumed by a retry answer, or with nothing asked
      and no run out, the next one on its way. */
  predicate Called(v: ItemView, kind: ItemType, facts: Facts, merges: bool, ready: Ready) {
    && v.pending.None?
    && (|| (&& v.State() == Stalled && v.resumed in {Some(Retry), Some(RetryUp)} && DeliveredRun(v).None?
            && ready == if Last(v.states).from == Merging then MergeTurn else Go(Last(v.states).from))
        || (v.State() == Planned && ready == Go(if kind == Order then Build else Spec))
        || (v.State() == AwaitingGate && v.gate == Some(Approve) && ready == Go(Build))
        || (v.State() == Reviewed && ready == Go(Ship))
        || (v.State() == Build && v.Launched().None? && ready == Go(Build))
        || (RanThrough(v) && CalledByRun(kind, v.State(), facts, merges, ready)))
  }

  /** And no merged PR of it waits for the Owner's word first. */
  predicate IsDue(v: ItemView, kind: ItemType, facts: Facts, merges: bool, ready: Ready) {
    Called(v, kind, facts, merges, ready) && (ready != MergeTurn ==> !LandedUnasked(v, facts))
  }

  /** The item's merge is covered, or a standing consent read for it covers it. */
  predicate MayMerge(rows: Ledger, w: World, item: Item) {
    var facts := FactsOf(w.facts, item);
    && facts.gateBlobs.Some?
    && (|| Cover(rows, item, facts.gateBlobs.value, w.policy) == Covered
        || (&& Cover(rows, item, facts.gateBlobs.value, w.policy) == Owed
            && facts.standing.Some? && facts.standing.value.covers))
  }

  lemma AskedAboutIff(v: ItemView, facts: Facts)
    requires facts.mergedPr.Some?
    ensures AskedAbout(v.states, facts.mergedPr.value) <==> !LandedUnasked(v, facts)
  {
  }

  lemma AfterStepIff(rows: Ledger, w: World, entry: Entry, state: State, ready: Ready)
    ensures AfterStep(rows, w, entry, state).ready == Some(ready)
       <==> CalledByRun(entry.kind, state, FactsOf(w.facts, entry.item), MayMerge(rows, w, entry.item), ready)
  {
  }

  lemma StepIff(rows: Ledger, w: World, entry: Entry, ready: Ready)
    requires ItemKept(ViewOf(rows, entry.item), entry)
    ensures StepOf(rows, w, entry).ready == Some(ready)
       <==> Called(ViewOf(rows, entry.item), entry.kind, FactsOf(w.facts, entry.item), MayMerge(rows, w, entry.item),
                   ready)
  {
    var v := ViewOf(rows, entry.item);
    FirstStep(entry);
    AfterStepIff(rows, w, entry, v.State(), ready);
    if v.states != [] { assert Shaped(Last(v.states)); }
  }

  lemma CandidateIff(rows: Ledger, w: World, entry: Entry, ready: Ready)
    requires ItemKept(ViewOf(rows, entry.item), entry)
    ensures CandidateOf(rows, w, entry).ready == Some(ready)
       <==> IsDue(ViewOf(rows, entry.item), entry.kind, FactsOf(w.facts, entry.item), MayMerge(rows, w, entry.item),
                  ready)
  {
    var v, facts := ViewOf(rows, entry.item), FactsOf(w.facts, entry.item);
    StepIff(rows, w, entry, ready);
    if facts.mergedPr.Some? { AskedAboutIff(v, facts); }
    StepOk(rows, w, entry);
  }

  // ---- what a survey offers

  lemma {:induction false} OffersGrow(rows: Ledger, w: World, entries: seq<Entry>, k: nat, offer: Offer)
    requires k <= |entries| && offer in SurveyItems(rows, w, entries[..k]).offers
    ensures offer in SurveyItems(rows, w, entries).offers
  {
    if k == |entries| {
      assert entries[..k] == entries;
    } else {
      var s := SurveyItems(rows, w, Init(entries));
      assert Init(entries)[..k] == entries[..k];
      OffersGrow(rows, w, Init(entries), k, offer);
      SurveySnoc(rows, w, entries);
      OffersAreAbsorbed(s, Last(entries).item, CandidateOf(rows + s.writes, w, Last(entries)));
    }
  }

  /** A candidate that is ready is offered, whatever comes after it. */
  lemma {:induction false} ReadyIsOffered(rows: Ledger, w: World, entries: seq<Entry>, k: nat, ready: Ready)
    requires k < |entries|
    requires CandidateOf(rows + SurveyItems(rows, w, entries[..k]).writes, w, entries[k]).ready == Some(ready)
    ensures Offer(entries[k].item, ready) in SurveyItems(rows, w, entries).offers
  {
    var s := SurveyItems(rows, w, entries[..k]);
    SurveyPrefix(rows, w, entries, k);
    OffersAreAbsorbed(s, entries[k].item, CandidateOf(rows + s.writes, w, entries[k]));
    OffersGrow(rows, w, entries, k + 1, Offer(entries[k].item, ready));
  }

  lemma OffersAreAbsorbed(s: Surveyed, item: Item, c: Candidate)
    ensures forall o :: o in s.offers ==> o in Absorb(s, item, c).offers
    ensures c.ready.Some? ==> Offer(item, c.ready.value) in Absorb(s, item, c).offers
  {
  }

  /** The ledger an item is read on: the survey's rows for the items before it are in. */
  function ReadOn(rows: Ledger, w: World, k: nat): Ledger
    requires k <= |Entries(rows)|
  {
    rows + SurveyItems(rows, w, Entries(rows)[..k]).writes
  }

  /** The step the plan's entry `k` is due, by its own rows; the merges of the items
      before it that the survey itself records are in. */
  predicate EntryDue(rows: Ledger, w: World, k: nat, ready: Ready)
    requires k < |Entries(rows)|
  {
    var entry := Entries(rows)[k];
    IsDue(ViewOf(rows, entry.item), entry.kind, FactsOf(w.facts, entry.item),
          MayMerge(ReadOn(rows, w, k), w, entry.item), ready)
  }

  lemma {:induction false} EntryIsRead(rows: Ledger, w: World, k: nat)
    requires Lawful(rows) && k < |Entries(rows)|
    ensures var entry := Entries(rows)[k];
      && ViewOf(ReadOn(rows, w, k), entry.item) == ViewOf(rows, entry.item)
      && ItemKept(ViewOf(rows, entry.item), entry)
  {
    var entries := Entries(rows);
    PlanStays(rows);
    ItemsAreKept(rows, entries[k]);
    OthersWriteElsewhere(rows, w, entries[..k], entries[k].item);
  }

  /** In every lawful ledger an item of the plan is put forward exactly for the step it
      is due, both ways. */
  lemma {:induction false} PutForwardIffDue(rows: Ledger, w: World, k: nat, ready: Ready)
    requires Lawful(rows) && k < |Entries(rows)|
    ensures Offer(Entries(rows)[k].item, ready) in SurveyItems(rows, w, Entries(rows)).offers
       <==> EntryDue(rows, w, k, ready)
  {
    var entries := Entries(rows);
    var offer := Offer(entries[k].item, ready);
    PlanStays(rows);
    EntryIsRead(rows, w, k);
    CandidateIff(ReadOn(rows, w, k), w, entries[k], ready);
    if EntryDue(rows, w, k, ready) {
      ReadyIsOffered(rows, w, entries, k, ready);
    }
    if offer in SurveyItems(rows, w, entries).offers {
      var j := OfferSource(rows, w, entries, offer);
      assert j == k;
    }
  }

  /** The minutes a runner may be silent: twice its item's wall clock. */
  function SilentMinutes(size: Size): nat {
    match size
    case S => 90
    case M => 180
    case L => 360
  }

  /** The item's runner is alive and not silent too long. */
  predicate Flies(v: ItemView, w: World, size: Size) {
    && v.pending.None? && v.InFlight()
    && Last(v.states).fields.pid.Some? && Last(v.states).fields.pid.value in w.alive
    && w.now - Last(v.states).at <= SilentMinutes(size) * 60
  }

  function Flyers(rows: Ledger, w: World, entries: seq<Entry>): nat {
    if entries == [] then 0
    else
      Flyers(rows, w, Init(entries))
      + if Flies(ViewOf(rows, Last(entries).item), w, Last(entries).size) then 1 else 0
  }

  lemma FliesIff(rows: Ledger, w: World, entry: Entry)
    requires ItemKept(ViewOf(rows, entry.item), entry)
    ensures CandidateOf(rows, w, entry).inFlight <==> Flies(ViewOf(rows, entry.item), w, entry.size)
  {
    var v := ViewOf(rows, entry.item);
    FirstStep(entry);
    if v.states != [] { assert Shaped(Last(v.states)); }
  }

  /** The runs counted against the work-in-progress cap are those of live, unhurried
      runners with nothing asked of their item. */
  lemma {:induction false} FlyingIsFlyers(rows: Ledger, w: World, entries: seq<Entry>)
    requires DistinctItems(entries) && forall e :: e in entries ==> ItemKept(ViewOf(rows, e.item), e)
    ensures SurveyItems(rows, w, entries).flying == Flyers(rows, w, entries)
  {
    if entries != [] {
      var before, entry := Init(entries), Last(entries);
      OthersDiffer(entries);
      FlyingIsFlyers(rows, w, before);
      OthersWriteElsewhere(rows, w, before, entry.item);
      FliesIff(rows + SurveyItems(rows, w, before).writes, w, entry);
      SurveySnoc(rows, w, entries);
    }
  }

  /** The offers are picked out of the plan, in its order. */
  predicate InPlanOrder(offers: seq<Offer>, entries: seq<Entry>) {
    if entries == [] then offers == []
    else
      || (offers != [] && Last(offers).item == Last(entries).item && InPlanOrder(Init(offers), Init(entries)))
      || InPlanOrder(offers, Init(entries))
  }

  lemma {:induction false} OffersInPlanOrder(rows: Ledger, w: World, entries: seq<Entry>)
    ensures InPlanOrder(SurveyItems(rows, w, entries).offers, entries)
  {
    if entries != [] {
      var s := SurveyItems(rows, w, Init(entries));
      OffersInPlanOrder(rows, w, Init(entries));
      SurveySnoc(rows, w, entries);
      var c := CandidateOf(rows + s.writes, w, Last(entries));
      if c.ready.Some? { InitSnoc(s.offers, Offer(Last(entries).item, c.ready.value)); }
    }
  }

  /** How many more steps may run at once. */
  function Room(rows: Ledger, w: World, wipCap: int): nat {
    var room := wipCap - Flyers(rows, w, Entries(rows));
    if room > 0 then room else 0
  }

  /** Which steps a survey of a lawful ledger offers: none while dispatch is held, else
      the first that fit the work-in-progress cap of all that are due, in plan order. */
  lemma {:induction false} OffersAreTheFirstDue(rows: Ledger, w: World, wipCap: int)
    requires Lawful(rows)
    ensures var all, offers := SurveyItems(rows, w, Entries(rows)).offers, SurveyOffers(rows, w, wipCap);
      && InPlanOrder(all, Entries(rows))
      && offers <= all
      && |offers| == (if Held(rows + SurveyWrites(rows, w)) then 0
                      else if |all| <= Room(rows, w, wipCap) then |all| else Room(rows, w, wipCap))
  {
    OffersInPlanOrder(rows, w, Entries(rows));
    OfferCount(rows, w, wipCap);
  }

  lemma {:induction false} OfferCount(rows: Ledger, w: World, wipCap: int)
    requires Lawful(rows)
    ensures var all, offers := SurveyItems(rows, w, Entries(rows)).offers, SurveyOffers(rows, w, wipCap);
      var held := Held(rows + SurveyWrites(rows, w));
      && offers <= all
      && |offers| == if held then 0 else if |all| <= Room(rows, w, wipCap) then |all| else Room(rows, w, wipCap)
  {
    var s := SurveyItems(rows, w, Entries(rows));
    PlanFlyers(rows, w);
    TruncateIsPrefix(s.offers, wipCap - s.flying);
    if Held(rows + SurveyWrites(rows, w)) {
      assert SurveyOffers(rows, w, wipCap) == [];
    } else {
      assert SurveyOffers(rows, w, wipCap) == Truncate(s.offers, wipCap - s.flying);
    }
  }

  lemma {:induction false} PlanFlyers(rows: Ledger, w: World)
    requires Lawful(rows)
    ensures SurveyItems(rows, w, Entries(rows)).flying == Flyers(rows, w, Entries(rows))
  {
    PlanStays(rows);
    forall e | e in Entries(rows)
      ensures ItemKept(ViewOf(rows, e.item), e)
    {
      ItemsAreKept(rows, e);
    }
    FlyingIsFlyers(rows, w, Entries(rows));
  }

  lemma TruncateIsPrefix<T>(s: seq<T>, room: int)
    ensures Truncate(s, room) <= s
    ensures |Truncate(s, room)| == if room <= 0 then 0 else if |s| <= room then |s| else room
  {
  }

  /** An item of the plan is offered a step only when it is due, and it is offered every
      step it is due while dispatch is not held and the cap leaves room for all. */
  lemma {:induction false} OfferedIffDue(rows: Ledger, w: World, wipCap: int, k: nat, ready: Ready)
    requires Lawful(rows) && k < |Entries(rows)|
    ensures Offer(Entries(rows)[k].item, ready) in SurveyOffers(rows, w, wipCap) ==> EntryDue(rows, w, k, ready)
    ensures EntryDue(rows, w, k, ready) && !Held(rows + SurveyWrites(rows, w))
         && |SurveyItems(rows, w, Entries(rows)).offers| <= Room(rows, w, wipCap)
         ==> Offer(Entries(rows)[k].item, ready) in SurveyOffers(rows, w, wipCap)
  {
    PutForwardIffDue(rows, w, k, ready);
    OffersAreTheFirstDue(rows, w, wipCap);
    var all, offers := SurveyItems(rows, w, Entries(rows)).offers, SurveyOffers(rows, w, wipCap);
    assert forall o :: o in offers ==> o in all;
    if |offers| == |all| { assert offers == all; }
  }

  /** No feature or fix leaves build for verify while a breakdown row is unbuilt, and none
      is built again with none left. */
  lemma {:induction false} VerifyOnlyWhatIsBuilt(rows: Ledger, w: World, wipCap: int, k: nat)
    requires Lawful(rows) && k < |Entries(rows)| && Entries(rows)[k].kind != Order
    requires ViewOf(rows, Entries(rows)[k].item).State() == Build
    ensures var item, offers := Entries(rows)[k].item, SurveyOffers(rows, w, wipCap);
      && (Offer(item, Go(Verify)) in offers ==> BuiltAll(FactsOf(w.facts, item)))
      && (Offer(item, Go(Build)) in offers && ViewOf(rows, item).Launched().Some? ==> !BuiltAll(FactsOf(w.facts, item)))
      && (forall ready :: Offer(item, ready) in offers ==> ready in {Go(Build), Go(Verify)})
  {
    var entry, offers := Entries(rows)[k], SurveyOffers(rows, w, wipCap);
    forall ready | Offer(entry.item, ready) in offers
      ensures DueInBuild(ViewOf(rows, entry.item), FactsOf(w.facts, entry.item), ready)
    {
      OfferedIffDue(rows, w, wipCap, k, ready);
      InBuildIsDue(ViewOf(rows, entry.item), entry.kind, FactsOf(w.facts, entry.item),
                   MayMerge(ReadOn(rows, w, k), w, entry.item), ready);
    }
  }

  /** Nothing is offered on facts that were not read: no gate, no further build or verify of a
      feature or fix, no merge. */
  lemma {:induction false} NothingOnUnreadFacts(rows: Ledger, w: World, wipCap: int, k: nat, ready: Ready)
    requires Lawful(rows) && k < |Entries(rows)| && Entries(rows)[k].item !in w.facts
    requires AsksFacts(ViewOf(rows, Entries(rows)[k].item), Entries(rows)[k].kind)
    ensures Offer(Entries(rows)[k].item, ready) !in SurveyOffers(rows, w, wipCap)
    ensures ViewOf(rows + SurveyWrites(rows, w), Entries(rows)[k].item).states
         == ViewOf(rows, Entries(rows)[k].item).states
  {
    var entry := Entries(rows)[k];
    var v, after := ViewOf(rows, entry.item), ViewOf(rows + SurveyWrites(rows, w), entry.item);
    OfferedIffDue(rows, w, wipCap, k, ready);
    SurveyMoves(rows, w, k);
    UnreadIsNotDue(v, after, w, entry, MayMerge(ReadOn(rows, w, k), w, entry.item), ready);
  }

  /** A run of the item ended completed where only facts say what comes next. */
  predicate AsksFacts(v: ItemView, kind: ItemType) {
    RanThrough(v) && (v.State() in {Spec, Ship} || (v.State() == Build && kind != Order))
  }

  lemma UnreadIsNotDue(v: ItemView, after: ItemView, w: World, entry: Entry, merges: bool, ready: Ready)
    requires AsksFacts(v, entry.kind)
    ensures !IsDue(v, entry.kind, NO_FACTS, merges, ready)
    ensures Moves(v, after, w, entry, NO_FACTS, merges) ==> after.states == v.states
  {
  }

  predicate DueInBuild(v: ItemView, facts: Facts, ready: Ready) {
    || (ready == Go(Verify) && BuiltAll(facts))
    || (ready == Go(Build) && (v.Launched().Some? ==> !BuiltAll(facts)))
  }

  lemma InBuildIsDue(v: ItemView, kind: ItemType, facts: Facts, merges: bool, ready: Ready)
    requires IsDue(v, kind, facts, merges, ready) && v.State() == Build && kind != Order
    ensures DueInBuild(v, facts, ready)
  {
  }

  // ---- where a survey moves an item

  /** A finished spec whose gate the Owner must open. */
  predicate GateDue(v: ItemView, kind: ItemType, facts: Facts) {
    && v.pending.None? && v.State() == Spec && RanThrough(v)
    && facts.gateBlobs.Some? && (kind == Feature || facts.gateBlobs.value != map[])
  }

  /** A run out with its runner dead, or idle past twice its wall clock. */
  predicate RunnerStops(v: ItemView, w: World, size: Size) {
    v.pending.None? && v.InFlight() && !Flies(v, w, size)
  }

  predicate RunnerDied(v: ItemView, w: World) {
    v.InFlight() && (v.states == [] || Last(v.states).fields.pid.None? || Last(v.states).fields.pid.value !in w.alive)
  }

  /** A merge turn whose process is gone. */
  predicate MergeStops(v: ItemView, w: World) {
    v.State() == Merging && Last(v.states).fields.pid.Some? && Last(v.states).fields.pid.value !in w.alive
  }

  /** A step is due, but the item's PR merged elsewhere and the Owner was not asked. */
  ghost predicate LandedStops(v: ItemView, kind: ItemType, facts: Facts, merges: bool) {
    LandedUnasked(v, facts) && exists ready :: Called(v, kind, facts, merges, ready) && ready != MergeTurn
  }

  /** The Owner answered that the merged PR is the item's merge. */
  predicate LandedMerges(v: ItemView, facts: Facts) {
    facts.mergedPr.Some? && v.State() == Stalled && v.resumed == Some(AsMerged)
  }

  /** The item stalled where it stood, and a stall ask with these options was raised. */
  ghost predicate StalledFor(v: ItemView, after: ItemView, cause: Cause, pr: Option<nat>, recommended: Choice) {
    && |after.states| == |v.states| + 1 && Init(after.states) == v.states
    && Last(after.states).from == v.State() && Last(after.states).to == Stalled
    && Last(after.states).fields == NO_FIELDS.(cause := Some(cause), pr := pr)
    && |after.asks| == |v.asks| + 1 && Init(after.asks) == v.asks
    && Last(after.asks).kind == StallAsk && Last(after.asks).recommended == recommended
  }

  lemma {:induction false} StallLeaves(rows: Ledger, at: int, item: Item, cause: Cause, recommended: Choice,
                                       given: Option<seq<Choice>>, pr: Option<nat>)
    ensures var v := ViewOf(rows, item);
      var after := ViewOf(rows + StallRows(rows, at, item, cause, recommended, given, pr), item);
      && StalledFor(v, after, cause, pr, recommended) && after.runs == v.runs
      && Last(after.asks).options == OfferedOptions(v, cause, given)
  {
    var more := StallRows(rows, at, item, cause, recommended, given, pr);
    TwoRowsLeave(rows, more, item);
    InitSnoc(StatesOf(rows, item), more[0].move);
    InitSnoc(AsksOf(rows, item), more[1].ask);
  }

  /** A state row and an ask of one item. */
  lemma {:induction false} TwoRowsLeave(rows: Ledger, more: seq<Row>, item: Item)
    requires |more| == 2 && more[0].StateRow? && more[0].move.item == item
    requires more[1].AskRow? && more[1].ask.owner == Some(item)
    ensures StatesOf(rows + more, item) == StatesOf(rows, item) + [more[0].move]
    ensures AsksOf(rows + more, item) == AsksOf(rows, item) + [more[1].ask]
    ensures RunsOf(rows + more, item) == RunsOf(rows, item)
  {
    assert rows + more == (rows + [more[0]]) + [more[1]];
    InitSnoc(rows, more[0]);
    InitSnoc(rows + [more[0]], more[1]);
  }

  /** What a PR merged elsewhere is advised as: a merge once everything is built. */
  predicate PastBuild(v: ItemView, facts: Facts) {
    v.State() in {Verify, Review, Reviewed, Ship, Merging, Merged, Planned, Stalled, Blocked}
    || (v.State() == Build && facts.unchecked == Some(0))
  }

  /** The run is out no longer: stalled where it stood, after a lost run's own run row
      when its runner died. */
  ghost predicate Grounded(v: ItemView, after: ItemView, w: World)
    requires v.Launched().Some?
  {
    && after.State() == Stalled && Last(after.states).fields.cause == Some(RunnerGone)
    && Last(after.states).from == v.State()
    && if RunnerDied(v, w) then
         && |after.runs| == |v.runs| + 1 && Init(after.runs) == v.runs
         && Last(after.runs).outcome == RunnerLost && Last(after.runs).runId == v.Launched().value
         && Last(after.runs).step == v.State()
       else after.runs == v.runs
  }

  /** Where its state alone moves an item. */
  ghost predicate StepMoved(v: ItemView, after: ItemView, w: World, entry: Entry, facts: Facts) {
    if GateDue(v, entry.kind, facts) then
      && after.State() == AwaitingGate
      && |after.asks| == |v.asks| + 1 && Last(after.asks).kind == GateAsk
      && Last(after.asks).options == [Approve, Block] && Last(after.asks).gateBlobs == facts.gateBlobs.value
    else if RunnerStops(v, w, entry.size) then Grounded(v, after, w)
    else if MergeStops(v, w) then StalledFor(v, after, RunnerGone, None, Retry)
    else after.states == v.states && after.asks == v.asks && after.runs == v.runs
  }

  /** The one state row the survey writes for an item, if any: where it leaves it. */
  ghost predicate Moves(v: ItemView, after: ItemView, w: World, entry: Entry, facts: Facts, merges: bool) {
    if LandedMerges(v, facts) then after.State() == Merged && Last(after.states).fields.pr == facts.mergedPr
    else if LandedStops(v, entry.kind, facts, merges) then
      && StalledFor(v, after, MergeDrift, facts.mergedPr, if PastBuild(v, facts) then AsMerged else Retry)
      && Last(after.asks).options == [Retry, AsMerged, Block]
    else StepMoved(v, after, w, entry, facts)
  }

  lemma {:induction false} GateLeaves(rows: Ledger, now: int, item: Item, blobs: Blobs)
    ensures var v, after := ViewOf(rows, item), ViewOf(rows + GateRows(rows, now, item, blobs), item);
      && after.State() == AwaitingGate
      && |after.asks| == |v.asks| + 1 && Last(after.asks).kind == GateAsk
      && Last(after.asks).options == [Approve, Block] && Last(after.asks).gateBlobs == blobs
  {
    var more := GateRows(rows, now, item, blobs);
    TwoRowsLeave(rows, more, item);
    InitSnoc(StatesOf(rows, item), more[0].move);
    InitSnoc(AsksOf(rows, item), more[1].ask);
  }

  lemma {:induction false} RunRowLeaves(rows: Ledger, run: Run, item: Item)
    requires run.item == item
    ensures StatesOf(rows + [RunRow(run)], item) == StatesOf(rows, item)
    ensures RunsOf(rows + [RunRow(run)], item) == RunsOf(rows, item) + [run]
  {
    InitSnoc(rows, RunRow(run));
  }

  /** A dead runner's run row, and then the stall. */
  lemma {:induction false} LostLeaves(rows: Ledger, w: World, entry: Entry, launch: Move)
    requires launch.fields.runId.Some? && !RunnerAlive(launch, w.alive)
    requires StatesOf(rows, entry.item) != [] && Last(StatesOf(rows, entry.item)) == launch
    ensures var v := ViewOf(rows, entry.item);
      var after := ViewOf(rows + FlyingStep(rows, w, entry, launch).writes, entry.item);
      && after.State() == Stalled && Last(after.states).fields.cause == Some(RunnerGone)
      && Last(after.states).from == v.State()
      && |after.runs| == |v.runs| + 1 && Init(after.runs) == v.runs
      && Last(after.runs).outcome == RunnerLost && Last(after.runs).runId == launch.fields.runId.value
      && Last(after.runs).step == launch.to
  {
    var lost := LostRun(rows, entry, launch);
    var stall := StallRows(rows + [lost], w.now, entry.item, RunnerGone, Retry, None, None);
    assert rows + ([lost] + stall) == (rows + [lost]) + stall;
    RunRowLeaves(rows, lost.run, entry.item);
    TwoRowsLeave(rows + [lost], stall, entry.item);
    InitSnoc(StatesOf(rows, entry.item), stall[0].move);
    InitSnoc(RunsOf(rows, entry.item), lost.run);
  }

  lemma {:induction false} NothingMoved(rows: Ledger, more: seq<Row>, item: Item)
    requires more == [] || more == [ConsentRow(item)]
    ensures var v, after := ViewOf(rows, item), ViewOf(rows + more, item);
      after.states == v.states && after.asks == v.asks && after.runs == v.runs
  {
    if more == [] {
      assert rows + more == rows;
    } else {
      InitSnoc(rows, ConsentRow(item));
    }
  }

  lemma GoWritesNothing(rows: Ledger, w: World, entry: Entry)
    requires StepOf(rows, w, entry).ready.Some? && StepOf(rows, w, entry).ready != Some(MergeTurn)
    ensures StepOf(rows, w, entry).writes == []
  {
    StepOk(rows, w, entry);
  }

  /** The row of a merge recorded outside the batch. */
  lemma {:induction false} LandedLeaves(rows: Ledger, m: Move)
    ensures var after := ViewOf(rows + [StateRow(m)], m.item);
      after.states != [] && Last(after.states) == m
  {
    InitSnoc(rows, StateRow(m));
    InitSnoc(StatesOf(rows, m.item), m);
  }

  /** Where the state alone moves an item. */
  lemma {:induction false} StepMoves(rows: Ledger, w: World, entry: Entry)
    requires ItemKept(ViewOf(rows, entry.item), entry)
    ensures StepMoved(ViewOf(rows, entry.item), ViewOf(rows + StepOf(rows, w, entry).writes, entry.item), w, entry,
                      FactsOf(w.facts, entry.item))
  {
    var v, facts := ViewOf(rows, entry.item), FactsOf(w.facts, entry.item);
    if GateDue(v, entry.kind, facts) {
      AsksGate(rows, w, entry);
    } else if RunnerStops(v, w, entry.size) {
      StopsFlying(rows, w, entry);
    } else if MergeStops(v, w) {
      MergeStalls(rows, w, entry);
    } else {
      OtherwiseQuiet(rows, w, entry);
    }
    RowsMove(rows, StepOf(rows, w, entry).writes, w, entry, facts);
  }

  lemma {:induction false} RowsMove(rows: Ledger, more: seq<Row>, w: World, entry: Entry, facts: Facts)
    requires var v := ViewOf(rows, entry.item);
      if GateDue(v, entry.kind, facts) then more == GateRows(rows, w.now, entry.item, facts.gateBlobs.value)
      else if RunnerStops(v, w, entry.size) then more == FlyingStep(rows, w, entry, Last(v.states)).writes
      else if MergeStops(v, w) then more == StallRows(rows, w.now, entry.item, RunnerGone, Retry, None, None)
      else more == [] || more == [ConsentRow(entry.item)]
    ensures StepMoved(ViewOf(rows, entry.item), ViewOf(rows + more, entry.item), w, entry, facts)
  {
    var v := ViewOf(rows, entry.item);
    if GateDue(v, entry.kind, facts) {
      GateLeaves(rows, w.now, entry.item, facts.gateBlobs.value);
    } else if RunnerStops(v, w, entry.size) {
      GroundedBy(rows, w, entry);
    } else if MergeStops(v, w) {
      StallLeaves(rows, w.now, entry.item, RunnerGone, Retry, None, None);
    } else {
      NothingMoved(rows, more, entry.item);
    }
  }

  lemma MergeStalls(rows: Ledger, w: World, entry: Entry)
    requires MergeStops(ViewOf(rows, entry.item), w)
    ensures StepOf(rows, w, entry).writes == StallRows(rows, w.now, entry.item, RunnerGone, Retry, None, None)
  {
  }

  lemma AsksGate(rows: Ledger, w: World, entry: Entry)
    requires GateDue(ViewOf(rows, entry.item), entry.kind, FactsOf(w.facts, entry.item))
    ensures StepOf(rows, w, entry).writes
         == GateRows(rows, w.now, entry.item, FactsOf(w.facts, entry.item).gateBlobs.value)
  {
  }

  lemma StopsFlying(rows: Ledger, w: World, entry: Entry)
    requires ItemKept(ViewOf(rows, entry.item), entry) && RunnerStops(ViewOf(rows, entry.item), w, entry.size)
    ensures StepOf(rows, w, entry) == FlyingStep(rows, w, entry, Last(ViewOf(rows, entry.item).states))
  {
    var v := ViewOf(rows, entry.item);
    assert Shaped(Last(v.states));
    assert v.State().IsStep();
    assert v.State() !in {Merging, Merged, Blocked, Stalled, Planned, Reviewed, AwaitingGate};
    assert v.Launched().Some?;
  }

  lemma {:induction false} GroundedBy(rows: Ledger, w: World, entry: Entry)
    requires RunnerStops(ViewOf(rows, entry.item), w, entry.size)
    ensures var v := ViewOf(rows, entry.item);
      Grounded(v, ViewOf(rows + FlyingStep(rows, w, entry, Last(v.states)).writes, entry.item), w)
  {
    var v := ViewOf(rows, entry.item);
    if RunnerDied(v, w) {
      LostLeaves(rows, w, entry, Last(v.states));
    } else {
      StallLeaves(rows, w.now, entry.item, RunnerGone, Retry, None, None);
    }
  }

  lemma OtherwiseQuiet(rows: Ledger, w: World, entry: Entry)
    requires ItemKept(ViewOf(rows, entry.item), entry)
    requires var v, facts := ViewOf(rows, entry.item), FactsOf(w.facts, entry.item);
      !GateDue(v, entry.kind, facts) && !RunnerStops(v, w, entry.size) && !MergeStops(v, w)
    ensures StepOf(rows, w, entry).writes == [] || StepOf(rows, w, entry).writes == [ConsentRow(entry.item)]
  {
    var v := ViewOf(rows, entry.item);
    if v.states != [] { assert Shaped(Last(v.states)); }
  }

  /** The rows of a landed PR move the item so; any others must have moved it by its state. */
  lemma {:induction false} LandedMoves(rows: Ledger, more: seq<Row>, w: World, entry: Entry, facts: Facts, merges: bool)
    requires var v := ViewOf(rows, entry.item);
      && (LandedMerges(v, facts) ==>
            more == [StateRow(Move(w.now, entry.item, Stalled, Merged, NO_FIELDS.(pr := facts.mergedPr)))])
      && (!LandedMerges(v, facts) && LandedStops(v, entry.kind, facts, merges) ==>
            more == StallRows(rows, w.now, entry.item, MergeDrift, LandedAdvice(v.State(), facts.unchecked),
                              Some([Retry, AsMerged, Block]), facts.mergedPr))
      && (!LandedMerges(v, facts) && !LandedStops(v, entry.kind, facts, merges) ==>
            StepMoved(v, ViewOf(rows + more, entry.item), w, entry, facts))
    ensures Moves(ViewOf(rows, entry.item), ViewOf(rows + more, entry.item), w, entry, facts, merges)
  {
    var v := ViewOf(rows, entry.item);
    if LandedMerges(v, facts) {
      LandedLeaves(rows, more[0].move);
    } else if LandedStops(v, entry.kind, facts, merges) {
      StallLeaves(rows, w.now, entry.item, MergeDrift, LandedAdvice(v.State(), facts.unchecked),
                  Some([Retry, AsMerged, Block]), facts.mergedPr);
    }
  }

  /** Each item of the plan, read on its own rows, is moved exactly so. */
  lemma {:induction false} CandidateMoves(rows: Ledger, w: World, entry: Entry)
    requires ItemKept(ViewOf(rows, entry.item), entry)
    ensures Moves(ViewOf(rows, entry.item), ViewOf(rows + CandidateOf(rows, w, entry).writes, entry.item), w, entry,
                  FactsOf(w.facts, entry.item), MayMerge(rows, w, entry.item))
  {
    var v, facts, merges := ViewOf(rows, entry.item), FactsOf(w.facts, entry.item), MayMerge(rows, w, entry.item);
    if LandedMerges(v, facts) {
      LandingMerges(rows, w, entry);
    } else if LandedStops(v, entry.kind, facts, merges) {
      LandingStalls(rows, w, entry);
    } else {
      StepStands(rows, w, entry);
      StepMoves(rows, w, entry);
    }
    LandedMoves(rows, CandidateOf(rows, w, entry).writes, w, entry, facts, merges);
  }

  lemma LandingMerges(rows: Ledger, w: World, entry: Entry)
    requires LandedMerges(ViewOf(rows, entry.item), FactsOf(w.facts, entry.item))
    ensures var fields := NO_FIELDS.(pr := FactsOf(w.facts, entry.item).mergedPr);
      CandidateOf(rows, w, entry).writes == [StateRow(Move(w.now, entry.item, Stalled, Merged, fields))]
  {
  }

  lemma LandingStalls(rows: Ledger, w: World, entry: Entry)
    requires ItemKept(ViewOf(rows, entry.item), entry)
    requires var v, facts := ViewOf(rows, entry.item), FactsOf(w.facts, entry.item);
      !LandedMerges(v, facts) && LandedStops(v, entry.kind, facts, MayMerge(rows, w, entry.item))
    ensures var v, facts := ViewOf(rows, entry.item), FactsOf(w.facts, entry.item);
      CandidateOf(rows, w, entry).writes
      == StallRows(rows, w.now, entry.item, MergeDrift, LandedAdvice(v.State(), facts.unchecked),
                   Some([Retry, AsMerged, Block]), facts.mergedPr)
  {
    var v, facts := ViewOf(rows, entry.item), FactsOf(w.facts, entry.item);
    var ready :| Called(v, entry.kind, facts, MayMerge(rows, w, entry.item), ready) && ready != MergeTurn;
    StepIff(rows, w, entry, ready);
    GoWritesNothing(rows, w, entry);
    AskedAboutIff(v, facts);
  }

  lemma StepStands(rows: Ledger, w: World, entry: Entry)
    requires ItemKept(ViewOf(rows, entry.item), entry)
    requires var v, facts := ViewOf(rows, entry.item), FactsOf(w.facts, entry.item);
      !LandedMerges(v, facts) && !LandedStops(v, entry.kind, facts, MayMerge(rows, w, entry.item))
    ensures CandidateOf(rows, w, entry) == StepOf(rows, w, entry)
  {
    var v, facts, c := ViewOf(rows, entry.item), FactsOf(w.facts, entry.item), StepOf(rows, w, entry);
    if facts.mergedPr.Some? { AskedAboutIff(v, facts); }
    if c.ready.Some? { StepIff(rows, w, entry, c.ready.value); }
  }

  // ---- a whole survey

  /** What a survey leaves of an item is what its own candidate left. */
  lemma {:induction false} OwnRowsOnly(rows: Ledger, w: World, entries: seq<Entry>, k: nat)
    requires DistinctItems(entries) && k < |entries|
    ensures var on := rows + SurveyItems(rows, w, entries[..k]).writes;
      ViewOf(rows + SurveyItems(rows, w, entries).writes, entries[k].item)
      == ViewOf(on + CandidateOf(on, w, entries[k]).writes, entries[k].item)
  {
    var before, last := Init(entries), Last(entries);
    var s := SurveyItems(rows, w, before);
    SurveySnoc(rows, w, entries);
    AbsorbAppends(rows, s, last.item, CandidateOf(rows + s.writes, w, last));
    if k == |entries| - 1 {
      assert before == entries[..k];
    } else {
      assert before[..k] == entries[..k];
      OthersDiffer(entries);
      assert before[k] in before;
      OwnRowsOnly(rows, w, before, k);
      CandidateLeavesOthers(rows + s.writes, w, last, entries[k].item);
    }
  }

  lemma {:induction false} CandidateLeavesOthers(rows: Ledger, w: World, entry: Entry, item: Item)
    requires entry.item != item
    ensures ViewOf(rows + CandidateOf(rows, w, entry).writes, item) == ViewOf(rows, item)
  {
    CandidateWrites(rows, w, entry);
    FrameMany(rows, CandidateOf(rows, w, entry).writes, item);
  }

  /** In every lawful ledger a survey moves each item of the plan exactly so, by a
      state row of its own, and no other: to merged on the Owner's word, stalled over a
      PR merged elsewhere, to its gate, or stalled as its runner or its merge turn is
      gone; and leaves every other item where it stands. */
  lemma {:induction false} SurveyMoves(rows: Ledger, w: World, k: nat)
    requires Lawful(rows) && k < |Entries(rows)|
    ensures var entry := Entries(rows)[k];
      Moves(ViewOf(rows, entry.item), ViewOf(rows + SurveyWrites(rows, w), entry.item), w, entry,
            FactsOf(w.facts, entry.item), MayMerge(ReadOn(rows, w, k), w, entry.item))
  {
    PlanStays(rows);
    EntryIsRead(rows, w, k);
    CandidateMoves(ReadOn(rows, w, k), w, Entries(rows)[k]);
    OwnRowsOnly(rows, w, Entries(rows), k);
    PauseTouchesNoItem(rows, w, Entries(rows)[k].item);
  }
}
