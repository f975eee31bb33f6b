/** One whole `next`: the bookkeeping it retries, the asks it raises, when it holds
    dispatch, and that what it launches is what the ledger it leaves calls for. */
module Turns {
  import opened Rows
  import opened View
  import opened Meaning
  import opened Flow
  import opened Consent
  import opened Covers
  import opened Survey
  import opened Protocol
  import opened Walk
  import opened Offers
  import opened Commands
  import opened Due
  import opened Effects

  // ---- holding dispatch

  /** The run rows of the ledger. */
  function RunCount(rows: Ledger): nat {
    if rows == [] then 0 else RunCount(Init(rows)) + if Last(rows).RunRow? then 1 else 0
  }

  /** Since row `k` no pause was asked and every run failed. */
  ghost predicate AllFailedSince(rows: Ledger, k: nat) {
    k <= |rows|
    && forall i :: k <= i < |rows| ==>
         !PauseAsk(rows[i]) && (rows[i].RunRow? ==> rows[i].run.outcome != Completed)
  }

  /** The failure streak counts the failed runs since the last completed run or pause. */
  lemma {:induction false} StreakIs(rows: Ledger) returns (k: nat)
    ensures AllFailedSince(rows, k) && FailureStreak(rows) == RunCount(rows) - RunCount(rows[..k])
    ensures k > 0 ==> PauseAsk(rows[k - 1]) || (rows[k - 1].RunRow? && rows[k - 1].run.outcome == Completed)
  {
    if rows == [] || PauseAsk(Last(rows)) || (Last(rows).RunRow? && Last(rows).run.outcome == Completed) {
      k := |rows|;
      assert rows[..k] == rows;
    } else {
      k := StreakIs(Init(rows));
      assert Init(rows)[..k] == rows[..k];
    }
  }

  lemma {:induction false} AsksOnlyGrow(rows: Ledger, more: seq<Row>)
    ensures AskCount(rows) <= AskCount(rows + more)
    decreases |more|
  {
    if more == [] {
      assert rows + more == rows;
    } else {
      InitSnoc(rows, more[0]);
      AsksOnlyGrow(rows + [more[0]], more[1..]);
      assert rows + more == (rows + [more[0]]) + more[1..];
    }
  }

  /** The row asks something of the whole batch, but no merge. */
  predicate AsksBatch(r: Row) {
    r.AskRow? && r.ask.owner == None && r.ask.kind in {SpendAsk, GateAsk, StallAsk, ClarifyAsk}
  }

  /** Dispatch is held exactly while some such ask is unanswered, declined or stopped; a
      train or a closing merge ask holds no step. */
  lemma {:induction false} HeldMeans(rows: Ledger)
    ensures Held(rows) <==>
      exists r :: r in rows && AsksBatch(r)
        && (!HasAnswer(rows, r.ask.id) || AnsweredWith(rows, r.ask.id, Decline) || AnsweredWith(rows, r.ask.id, Stop))
  {
    forall r | r in rows && r.AskRow?
      ensures AsksBatch(r) <==> BatchAsk(r)
      ensures HasAnswer(rows, r.ask.id) <==> r.ask.id in Answers(rows)
      ensures AnsweredWith(rows, r.ask.id, Decline) <==>
        r.ask.id in Answers(rows) && Answers(rows)[r.ask.id] == Decline
      ensures AnsweredWith(rows, r.ask.id, Stop) <==> r.ask.id in Answers(rows) && Answers(rows)[r.ask.id] == Stop
    {
      AnsweredIff(rows, r.ask.id);
      AnsweredWithIff(rows, r.ask.id, Decline);
      AnsweredWithIff(rows, r.ask.id, Stop);
    }
  }

  /** Rows that answer nothing and ask nothing of the batch leave dispatch as it was. */
  lemma {:induction false} HeldStays(rows: Ledger, more: seq<Row>)
    requires Quiet(more) && forall r :: r in more ==> !BatchAsk(r)
    ensures Held(rows + more) <==> Held(rows)
  {
    NoAnswersAdded(rows, more);
    if Held(rows) {
      var r :| r in rows && BatchAsk(r) && (r.ask.id !in Answers(rows) || Answers(rows)[r.ask.id] in {Decline, Stop});
      assert r in rows + more;
    }
  }

  lemma {:induction false} ItemsAskNoBatch(rows: Ledger, w: World)
    ensures var more := SurveyItems(rows, w, Entries(rows)).writes;
      Quiet(more) && forall r :: r in more ==> !BatchAsk(r)
  {
    SurveyItemsWrites(rows, w, Entries(rows));
    forall r | r in SurveyItems(rows, w, Entries(rows)).writes
      ensures !BatchAsk(r)
    {
      var e :| e in Entries(rows) && WritesOwn([r], e.item);
      assert r in [r];
    }
  }

  /** After a survey dispatch is held exactly when it was before, or three runs in a row
      have failed: then nothing is offered until the Owner says. */
  lemma {:induction false} HeldIff(rows: Ledger, w: World)
    requires Lawful(rows)
    ensures Held(rows + SurveyWrites(rows, w)) <==> Held(rows) || FailureStreak(rows) >= 3
  {
    var writes := SurveyItems(rows, w, Entries(rows)).writes;
    ItemsAskNoBatch(rows, w);
    HeldStays(rows, writes);
    if FailureStreak(rows) >= 3 && !Held(rows) {
      var pause := Last(SurveyWrites(rows, w));
      assert rows + SurveyWrites(rows, w) == (rows + writes) + [pause];
      PauseHolds(rows, writes, pause);
    }
  }

  lemma {:induction false} PauseHolds(rows: Ledger, writes: seq<Row>, pause: Row)
    requires Lawful(rows) && Quiet(writes)
    requires BatchAsk(pause) && pause.ask.id == AskCount(rows + writes) + 1
    ensures Held((rows + writes) + [pause])
  {
    NoAnswersAdded(rows, writes);
    AsksOnlyGrow(rows, writes);
    AnswersNameAsks(rows);
    AnsweredIff(rows, pause.ask.id);
    InitSnoc(rows + writes, pause);
    forall r | r in rows && r.AnswerRow?
      ensures r.answer.ask <= AskCount(rows)
    {
      assert r == AnswerRow(r.answer);
    }
    assert pause in (rows + writes) + [pause];
  }

  // ---- clarify asks

  /** The issue of an offered step must read open; a merge turn's is not read. */
  predicate Cleared(o: Offer, issues: map<Item, IssueState>) {
    o.ready == MergeTurn || (o.item in issues && issues[o.item] == Open)
  }

  /** The ask holds back the offer, and advises to block a closed issue's item. */
  predicate Clarifies(r: Row, o: Offer, issues: map<Item, IssueState>) {
    && r.AskRow? && r.ask.owner == Some(o.item) && r.ask.kind == ClarifyAsk && r.ask.options == [Block, Proceed]
    && r.ask.recommended == if o.item in issues && issues[o.item] == Closed then Block else Proceed
  }

  /** Every offer is either launched, exactly when it is cleared, or held back by an ask of its own. */
  lemma {:induction false} ClarifySplits(rows: Ledger, offers: seq<Offer>, issues: map<Item, IssueState>)
    ensures var c := ClarifyClosed(rows, offers, issues);
      && (forall o :: o in c.launch <==> o in offers && Cleared(o, issues))
      && |c.launch| + |c.asks| == |offers|
      && (forall o :: o in offers && !Cleared(o, issues) ==> exists r :: r in c.asks && Clarifies(r, o, issues))
  {
    if offers != [] {
      var before, o := Init(offers), Last(offers);
      var c, c' := ClarifyClosed(rows, before, issues), ClarifyClosed(rows, offers, issues);
      ClarifySplits(rows, before, issues);
      assert offers == before + [o];
      if !Cleared(o, issues) { assert Last(c'.asks) in c'.asks && Clarifies(Last(c'.asks), o, issues); }
      forall p | p in offers && !Cleared(p, issues)
        ensures exists r :: r in c'.asks && Clarifies(r, p, issues)
      {
        if p in before {
          var r :| r in c.asks && Clarifies(r, p, issues);
          assert r in c'.asks;
        }
      }
    }
  }

  // ---- bookkeeping

  /** In a lawful ledger no two run rows of an item share a run id. */
  lemma {:induction false} RunsDiffer(rows: Ledger, item: Item)
    requires Lawful(rows)
    ensures forall r, s :: r in RunsOf(rows, item) && s in RunsOf(rows, item) && r.runId == s.runId ==> r == s
  {
    if |rows| > 1 {
      RunsDiffer(Init(rows), item);
      assert rows == Init(rows) + [Last(rows)];
    }
  }

  /** A bookkeeping turn that delivers returns the item to its step with its completed run,
      finished; one that does not stalls it there again, without offering a band up. */
  ghost predicate Redone(v: ItemView, after: ItemView, at: int, delivered: bool)
    requires v.states != [] && DeliveredRun(v).Some?
  {
    var fields := NO_FIELDS.(runId := Some(DeliveredRun(v).value.runId));
    var resume := Move(at, v.item, Stalled, Last(v.states).from, fields);
    && after.runs == v.runs
    && if delivered then after.states == v.states + [resume] && RanThrough(after) && after.asks == v.asks
       else
         && |after.states| == |v.states| + 2 && after.states[..|v.states| + 1] == v.states + [resume]
         && Last(after.states).from == resume.to && Last(after.states).to == Stalled
         && Last(after.states).fields.cause == Some(DeliveryFailed)
         && |after.asks| == |v.asks| + 1 && Last(after.asks).kind == StallAsk
         && RetryUp !in Last(after.asks).options
  }

  lemma {:induction false} ResumedRuns(rows: Ledger, at: int, item: Item)
    requires Lawful(rows) && BookkeepingIsDue(ViewOf(rows, item))
    ensures var v := ViewOf(rows, item);
      var resumed := ResumeRow(at, item, Last(v.states).from, DeliveredRun(v).value);
      && MovedBy(v, ViewOf(rows + [resumed], item), resumed.move) && RanThrough(ViewOf(rows + [resumed], item))
  {
    var v := ViewOf(rows, item);
    var resumed := ResumeRow(at, item, Last(v.states).from, DeliveredRun(v).value);
    OneMove(rows, resumed.move);
    RowsShaped(rows, item);
    DeliveredIsLaunched(v);
    RunsDiffer(rows, item);
    FirstRunIff(v.runs, DeliveredRun(v).value.runId);
  }

  lemma {:induction false} BookkeepingLeaves(rows: Ledger, at: int, item: Item, delivered: bool)
    requires Lawful(rows) && BookkeepingIsDue(ViewOf(rows, item))
    ensures Redone(ViewOf(rows, item), ViewOf(rows + BookkeepingRows(rows, at, item, delivered), item), at, delivered)
  {
    var v := ViewOf(rows, item);
    var resumed := ResumeRow(at, item, Last(v.states).from, DeliveredRun(v).value);
    ResumedRuns(rows, at, item);
    if !delivered {
      var stall := StallRows(rows + [resumed], at, item, DeliveryFailed, Retry, None, None);
      StallLeaves(rows + [resumed], at, item, DeliveryFailed, Retry, None, None);
      OptionsAre(ViewOf(rows + [resumed], item), DeliveryFailed);
      AppendTwo(rows, [resumed], stall);
      RedoneInVain(v, ViewOf(rows + [resumed], item), ViewOf(rows + ([resumed] + stall), item), at);
    }
  }

  lemma RedoneInVain(v: ItemView, between: ItemView, after: ItemView, at: int)
    requires v.states != [] && DeliveredRun(v).Some?
    requires MovedBy(v, between, Move(at, v.item, Stalled, Last(v.states).from,
                                      NO_FIELDS.(runId := Some(DeliveredRun(v).value.runId))))
    requires StalledFor(between, after, DeliveryFailed, None, Retry) && after.runs == between.runs
    requires RetryUp !in Last(after.asks).options
    ensures Redone(v, after, at, false)
  {
    assert after.states[..|v.states| + 1] == Init(after.states);
  }

  predicate Listed(entries: seq<Entry>, item: Item) {
    exists e :: e in entries && e.item == item
  }

  /** The due items are those of the plan whose bookkeeping is due, each once. */
  lemma {:induction false} DueIff(rows: Ledger, entries: seq<Entry>)
    requires DistinctItems(entries)
    ensures forall item ::
      item in BookkeepingDue(rows, entries) <==> Listed(entries, item) && BookkeepingIsDue(ViewOf(rows, item))
    ensures Distinct(BookkeepingDue(rows, entries))
  {
    if entries != [] {
      var before, e := Init(entries), Last(entries);
      OthersDiffer(entries);
      DueIff(rows, before);
      assert entries == before + [e];
      ListedSnoc(before, e);
    }
  }

  lemma ListedSnoc(before: seq<Entry>, e: Entry)
    ensures forall item :: Listed(before + [e], item) <==> Listed(before, item) || item == e.item
  {
    assert e in before + [e];
    forall item | Listed(before, item)
      ensures Listed(before + [e], item)
    {
      var f :| f in before && f.item == item;
      assert f in before + [e];
    }
  }

  lemma {:induction false} RetrySnoc(rows: Ledger, at: int, due: seq<Item>, delivered: set<Item>)
    requires due != []
    ensures var written := RetryBookkeeping(rows, at, Init(due), delivered);
      RetryBookkeeping(rows, at, due, delivered)
      == if BookkeepingIsDue(ViewOf(rows + written, Last(due)))
         then written + BookkeepingRows(rows + written, at, Last(due), Last(due) in delivered) else written
  {
  }

  lemma FrameAfter(rows: Ledger, written: seq<Row>, more: seq<Row>, item: Item)
    requires Quiet(more) && Avoids(more, item)
    ensures ViewOf(rows + (written + more), item) == ViewOf(rows + written, item)
  {
    assert rows + (written + more) == (rows + written) + more;
    FrameMany(rows + written, more, item);
  }

  lemma {:induction false} LastIsRedone(rows: Ledger, written: seq<Row>, at: int, item: Item, delivered: bool)
    requires Lawful(rows + written) && ViewOf(rows + written, item) == ViewOf(rows, item)
    requires BookkeepingIsDue(ViewOf(rows, item))
    ensures Redone(ViewOf(rows, item),
                   ViewOf(rows + (written + BookkeepingRows(rows + written, at, item, delivered)), item), at, delivered)
  {
    BookkeepingLeaves(rows + written, at, item, delivered);
    AppendTwo(rows, written, BookkeepingRows(rows + written, at, item, delivered));
  }

  lemma AppendTwo(rows: Ledger, a: seq<Row>, b: seq<Row>)
    ensures rows + (a + b) == (rows + a) + b
  {
  }

  /** The last of the due items leaves the others as they were. */
  lemma {:induction false} LastLeavesOthers(rows: Ledger, at: int, due: seq<Item>, delivered: set<Item>, item: Item)
    requires Lawful(rows) && due != [] && item != Last(due)
    ensures ViewOf(rows + RetryBookkeeping(rows, at, due, delivered), item)
         == ViewOf(rows + RetryBookkeeping(rows, at, Init(due), delivered), item)
  {
    var before, last := Init(due), Last(due);
    var written := RetryBookkeeping(rows, at, before, delivered);
    RetryBookkeepingExtends(rows, at, before, delivered);
    LawfulExtends(rows, written);
    RetrySnoc(rows, at, due, delivered);
    if BookkeepingIsDue(ViewOf(rows + written, last)) {
      var more := BookkeepingRows(rows + written, at, last, last in delivered);
      BookkeepingExtends(rows + written, at, last, last in delivered);
      OwnAvoidsOthers(more, last, item);
      FrameAfter(rows, written, more, item);
    }
  }

  lemma OwnAvoidsOthers(more: seq<Row>, item: Item, other: Item)
    requires WritesOwn(more, item) && other != item
    ensures Avoids(more, other)
  {
  }

  /** Each due item's bookkeeping is done once, on rows that leave its own view as it was. */
  lemma {:induction false} EachIsRedone(rows: Ledger, at: int, due: seq<Item>, delivered: set<Item>, item: Item)
    requires Lawful(rows) && Distinct(due) && item in due && BookkeepingIsDue(ViewOf(rows, item))
    ensures Redone(ViewOf(rows, item), ViewOf(rows + RetryBookkeeping(rows, at, due, delivered), item), at,
                   item in delivered)
  {
    var before, last := Init(due), Last(due);
    assert due == before + [last];
    if item == last {
      var written := RetryBookkeeping(rows, at, before, delivered);
      RetryBookkeepingExtends(rows, at, before, delivered);
      LawfulExtends(rows, written);
      OthersAreAvoided(rows, written, before, item);
      RetrySnoc(rows, at, due, delivered);
      LastIsRedone(rows, written, at, item, item in delivered);
    } else {
      EachIsRedone(rows, at, before, delivered, item);
      LastLeavesOthers(rows, at, due, delivered, item);
    }
  }

  lemma {:induction false} OthersAreAvoided(rows: Ledger, written: seq<Row>, items: seq<Item>, item: Item)
    requires Quiet(written) && OnlyItems(written, items) && item !in items
    ensures ViewOf(rows + written, item) == ViewOf(rows, item)
  {
    forall r | r in written
      ensures r.Grouped() != Some(item)
    {
      var i :| i in items && WritesOwn([r], i);
      assert r in [r];
    }
    FrameMany(rows, written, item);
  }

  /** The offers `next` clears its due items as. */
  function DueOffers(rows: Ledger): seq<Offer> {
    var due := BookkeepingDue(rows, Entries(rows));
    seq(|due|, i requires 0 <= i < |due| => Offer(due[i], Go(Build)))
  }

  lemma {:induction false} PreparedIs(rows: Ledger, w: World, issues: map<Item, IssueState>, delivered: set<Item>)
    ensures var on := rows + ClarifyClosed(rows, DueOffers(rows), issues).asks;
      rows + Prepared(rows, w, issues, delivered)
      == on + RetryBookkeeping(on, w.now, BookkeepingDue(rows, Entries(rows)), delivered)
  {
  }

  /** A due item whose issue reads open is asked nothing. */
  lemma {:induction false} OpenIsNotAsked(rows: Ledger, issues: map<Item, IssueState>, e: Entry)
    requires Lawful(rows) && e in Entries(rows) && BookkeepingIsDue(ViewOf(rows, e.item))
    requires e.item in issues && issues[e.item] == Open
    ensures e.item in BookkeepingDue(rows, Entries(rows)) && Distinct(BookkeepingDue(rows, Entries(rows)))
    ensures var asked := ClarifyClosed(rows, DueOffers(rows), issues).asks;
      Lawful(rows + asked) && ViewOf(rows + asked, e.item) == ViewOf(rows, e.item)
  {
    var due, offers := BookkeepingDue(rows, Entries(rows)), DueOffers(rows);
    PlanStays(rows);
    DueIff(rows, Entries(rows));
    ClarifyExtends(rows, offers, issues);
    var i :| 0 <= i < |due| && due[i] == e.item;
    assert offers[i] == Offer(e.item, Go(Build));
    ClarifySplits(rows, offers, issues);
    ClarifyAvoids(rows, offers, issues, offers[i]);
    FrameMany(rows, ClarifyClosed(rows, offers, issues).asks, e.item);
    LawfulExtends(rows, ClarifyClosed(rows, offers, issues).asks);
  }

  /** `next` redoes the bookkeeping of every planned item it is due for whose issue reads
      open, and of no other. */
  lemma {:induction false} DueIsRedone(rows: Ledger, w: World, issues: map<Item, IssueState>, delivered: set<Item>,
                                       e: Entry)
    requires Lawful(rows) && e in Entries(rows) && BookkeepingIsDue(ViewOf(rows, e.item))
    requires e.item in issues && issues[e.item] == Open
    ensures Redone(ViewOf(rows, e.item), ViewOf(rows + Prepared(rows, w, issues, delivered), e.item), w.now,
                   e.item in delivered)
  {
    OpenIsNotAsked(rows, issues, e);
    var on := rows + ClarifyClosed(rows, DueOffers(rows), issues).asks;
    EachIsRedone(on, w.now, BookkeepingDue(rows, Entries(rows)), delivered, e.item);
    PreparedIs(rows, w, issues, delivered);
  }

  /** A due item whose issue does not read open is held behind its clarify ask: it stays
      stalled where it was, and nothing of it is redone. */
  lemma {:induction false} DueIsHeld(rows: Ledger, w: World, issues: map<Item, IssueState>, delivered: set<Item>,
                                     e: Entry)
    requires Lawful(rows) && e in Entries(rows) && BookkeepingIsDue(ViewOf(rows, e.item))
    requires e.item !in issues || issues[e.item] != Open
    ensures var v, after := ViewOf(rows, e.item), ViewOf(rows + Prepared(rows, w, issues, delivered), e.item);
      after.states == v.states && after.runs == v.runs && after.pending.Some?
  {
    var due := BookkeepingDue(rows, Entries(rows));
    var asked := ClarifyClosed(rows, DueOffers(rows), issues).asks;
    PreparedIs(rows, w, issues, delivered);
    HeldIsAsked(rows, issues, e);
    ClarifyExtends(rows, DueOffers(rows), issues);
    LawfulExtends(rows, asked);
    PendingIsLeft(rows + asked, w.now, due, delivered, e.item);
  }

  /** Rows that are all asks move nothing, run nothing and answer nothing. */
  lemma {:induction false} AsksChangeNothing(rows: Ledger, more: seq<Row>, item: Item)
    requires forall r :: r in more ==> r.AskRow?
    ensures StatesOf(rows + more, item) == StatesOf(rows, item) && RunsOf(rows + more, item) == RunsOf(rows, item)
    ensures Answers(rows + more) == Answers(rows)
    decreases |more|
  {
    if more == [] {
      assert rows + more == rows;
    } else {
      assert more[0] in more && forall r :: r in more[1..] ==> r in more;
      InitSnoc(rows, more[0]);
      AsksChangeNothing(rows + [more[0]], more[1..], item);
      assert rows + more == (rows + [more[0]]) + more[1..];
    }
  }

  lemma {:induction false} HeldIsAsked(rows: Ledger, issues: map<Item, IssueState>, e: Entry)
    requires Lawful(rows) && e in Entries(rows) && BookkeepingIsDue(ViewOf(rows, e.item))
    requires e.item !in issues || issues[e.item] != Open
    ensures var v := ViewOf(rows, e.item);
      var asked := ViewOf(rows + ClarifyClosed(rows, DueOffers(rows), issues).asks, e.item);
      asked.states == v.states && asked.runs == v.runs && asked.pending.Some?
  {
    var due, offers := BookkeepingDue(rows, Entries(rows)), DueOffers(rows);
    var asks := ClarifyClosed(rows, offers, issues).asks;
    PlanStays(rows);
    DueIff(rows, Entries(rows));
    ClarifyExtends(rows, offers, issues);
    ClarifySplits(rows, offers, issues);
    var i :| 0 <= i < |due| && due[i] == e.item;
    assert offers[i] == Offer(e.item, Go(Build)) && offers[i] in offers;
    var r :| r in asks && Clarifies(r, offers[i], issues);
    AsksChangeNothing(rows, asks, e.item);
    ClarifyIdsAreNew(rows, offers, issues, r);
    PendingIff(rows + asks, e.item);
    AnsweredIff(rows + asks, r.ask.id);
    assert r in rows + asks;
  }

  /** A clarify ask is numbered past every ask before it, and so unanswered. */
  lemma {:induction false} ClarifyIdsAreNew(rows: Ledger, offers: seq<Offer>, issues: map<Item, IssueState>, r: Row)
    requires Lawful(rows) && r in ClarifyClosed(rows, offers, issues).asks
    ensures r.AskRow? && r.ask.id !in Answers(rows)
  {
    if offers != [] {
      var c := ClarifyClosed(rows, Init(offers), issues);
      if r in c.asks {
        ClarifyIdsAreNew(rows, Init(offers), issues, r);
      } else {
        AsksOnlyGrow(rows, c.asks);
        LaterIdsAreUnanswered(rows, r.ask.id);
      }
    }
  }

  lemma {:induction false} LaterIdsAreUnanswered(rows: Ledger, id: nat)
    requires Lawful(rows) && id > AskCount(rows)
    ensures id !in Answers(rows)
  {
    AnswersNameAsks(rows);
    AnsweredIff(rows, id);
    forall r | r in rows && r.AnswerRow?
      ensures r.answer.ask <= AskCount(rows)
    {
      assert r == AnswerRow(r.answer);
    }
  }

  /** An item with an ask pending is left as it is by the others' bookkeeping. */
  lemma {:induction false} PendingIsLeft(rows: Ledger, at: int, due: seq<Item>, delivered: set<Item>, item: Item)
    requires Lawful(rows) && ViewOf(rows, item).pending.Some?
    ensures ViewOf(rows + RetryBookkeeping(rows, at, due, delivered), item) == ViewOf(rows, item)
  {
    if due == [] {
      assert rows + [] == rows;
    } else {
      PendingIsLeft(rows, at, Init(due), delivered, item);
      if item != Last(due) {
        LastLeavesOthers(rows, at, due, delivered, item);
      } else {
        RetrySnoc(rows, at, due, delivered);
      }
    }
  }

  /** An item whose bookkeeping is not due is not touched by it. */
  lemma {:induction false} NotDueIsLeft(rows: Ledger, w: World, issues: map<Item, IssueState>, delivered: set<Item>,
                                        item: Item)
    requires Lawful(rows) && !BookkeepingIsDue(ViewOf(rows, item))
    ensures ViewOf(rows + Prepared(rows, w, issues, delivered), item) == ViewOf(rows, item)
  {
    PreparedExtends(rows, w, issues, delivered);
    FrameMany(rows, Prepared(rows, w, issues, delivered), item);
  }

  // ---- what next launches

  /** What an item is called for depends on its cover only in ship. */
  lemma CallOutsideShip(v: ItemView, kind: ItemType, facts: Facts, merges: bool, other: bool, ready: Ready)
    requires IsDue(v, kind, facts, merges, ready)
    requires v.State() == Ship && ready == MergeTurn ==> other
    ensures IsDue(v, kind, facts, other, ready)
  {
  }

  /** Covered, on the rows themselves. */
  predicate CoveredNow(rows: Ledger, w: World, item: Item) {
    var facts := FactsOf(w.facts, item);
    facts.gateBlobs.Some? && Cover(rows, item, facts.gateBlobs.value, w.policy) == Covered
  }

  /** What a survey launches past its clarify asks was put forward for an entry it was due for. */
  lemma {:induction false} LaunchedFrom(rows: Ledger, w: World, wipCap: int, issues: map<Item, IssueState>,
                                        offer: Offer)
    returns (k: nat)
    requires Lawful(rows)
    requires var offers := SurveyOffers(rows, w, wipCap);
      offer in ClarifyClosed(rows + SurveyWrites(rows, w), offers, issues).launch
    ensures k < |Entries(rows)| && Entries(rows)[k].item == offer.item && EntryDue(rows, w, k, offer.ready)
  {
    var s := SurveyItems(rows, w, Entries(rows));
    LaunchedWasOffered(rows + SurveyWrites(rows, w), SurveyOffers(rows, w, wipCap), issues, offer);
    TruncateKeeps(s.offers, wipCap - s.flying, offer);
    k := OfferSource(rows, w, Entries(rows), offer);
    OfferedIffDue(rows, w, wipCap, k, offer.ready);
  }

  /** A merge turn launched for an item in ship is covered on the rows left. */
  lemma {:induction false} LaunchedIsCovered(rows: Ledger, w: World, wipCap: int, issues: map<Item, IssueState>,
                                             item: Item)
    requires Lawful(rows) && StandingRead(rows, w) && ViewOf(rows, item).State() == Ship
    requires var offers := SurveyOffers(rows, w, wipCap);
      Offer(item, MergeTurn) in ClarifyClosed(rows + SurveyWrites(rows, w), offers, issues).launch
    ensures var after := rows + SurveyWrites(rows, w);
      CoveredNow(after + ClarifyClosed(after, SurveyOffers(rows, w, wipCap), issues).asks, w, item)
  {
    LaunchedMergeIsAllowed(rows, w, wipCap, issues, item);
    var after := rows + SurveyWrites(rows, w);
    AllowedIsCovered(after + ClarifyClosed(after, SurveyOffers(rows, w, wipCap), issues).asks, item,
                     FactsOf(w.facts, item).gateBlobs.value, w.policy);
  }

  lemma AllowedIsCovered(rows: Ledger, item: Item, blobs: Blobs, policy: StandingPolicy)
    requires MergeAllowed(rows, item, blobs, policy)
    ensures Cover(rows, item, blobs, policy) == Covered
  {
  }

  /** Whatever a survey launches past its clarify asks is the step its item is due. */
  lemma {:induction false} LaunchedIsDue(rows: Ledger, w: World, wipCap: int, issues: map<Item, IssueState>,
                                         offer: Offer)
    returns (entry: Entry)
    requires Lawful(rows) && StandingRead(rows, w)
    requires var offers := SurveyOffers(rows, w, wipCap);
      offer in ClarifyClosed(rows + SurveyWrites(rows, w), offers, issues).launch
    ensures entry in Entries(rows) && entry.item == offer.item
    ensures var after := rows + SurveyWrites(rows, w);
      var final := after + ClarifyClosed(after, SurveyOffers(rows, w, wipCap), issues).asks;
      IsDue(ViewOf(final, offer.item), entry.kind, FactsOf(w.facts, offer.item), CoveredNow(final, w, offer.item),
            offer.ready)
  {
    var k := LaunchedFrom(rows, w, wipCap, issues, offer);
    entry := Entries(rows)[k];
    LaunchedViewIsKept(rows, w, wipCap, issues, offer);
    if ViewOf(rows, offer.item).State() == Ship && offer.ready == MergeTurn {
      LaunchedIsCovered(rows, w, wipCap, issues, offer.item);
    }
    var after := rows + SurveyWrites(rows, w);
    var final := after + ClarifyClosed(after, SurveyOffers(rows, w, wipCap), issues).asks;
    CallOutsideShip(ViewOf(rows, offer.item), entry.kind, FactsOf(w.facts, offer.item),
                    MayMerge(ReadOn(rows, w, k), w, offer.item), CoveredNow(final, w, offer.item), offer.ready);
  }

  /** Every launch of a whole `next` is of an item of the plan, and is the step that item
      is due on the ledger `next` leaves. */
  lemma {:induction false} AdvanceLaunchIsDue(rows: Ledger, w: World, wipCap: int, issues: map<Item, IssueState>,
                                              delivered: set<Item>, offer: Offer) returns (entry: Entry)
    requires Lawful(rows) && LandedRead(rows, w) && StandingRead(rows, w)
    requires offer in Advance(rows, w, wipCap, issues, delivered).launch
    ensures entry in Entries(rows) && entry.item == offer.item
    ensures var final := rows + Advance(rows, w, wipCap, issues, delivered).written;
      IsDue(ViewOf(final, offer.item), entry.kind, FactsOf(w.facts, offer.item), CoveredNow(final, w, offer.item),
            offer.ready)
  {
    var prepared := Prepared(rows, w, issues, delivered);
    var before := rows + prepared;
    PreparedExtends(rows, w, issues, delivered);
    LawfulExtends(rows, prepared);
    FactsStillRead(rows, prepared, w);
    SamePlanMany(rows, prepared);
    var writes := SurveyWrites(before, w);
    entry := LaunchedIsDue(before, w, wipCap, issues, offer);
    AppendThree(rows, prepared, writes, ClarifyClosed(before + writes, SurveyOffers(before, w, wipCap), issues).asks);
  }

  lemma {:induction false} SamePlanMany(rows: Ledger, more: seq<Row>)
    requires Lawful(rows) && Lawful(rows + more)
    ensures Entries(rows + more) == Entries(rows)
  {
    PlanStays(rows);
    PlanStays(rows + more);
    assert (rows + more)[0] == rows[0];
  }
}
