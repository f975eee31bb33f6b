/** What an item's view says, told of the ledger's rows and their positions: who
    its authors are, what it waits for, what opened its gate or resumed it, and
    whether its last run is still out. */
module Meaning {
  import opened Rows
  import opened View
  import opened ReadLedger

  // ---- the plan

  /** The plan read is the ledger's first plan row. */
  lemma {:induction false} PlanIsFirst(rows: Ledger) returns (k: int)
    ensures k == -1 ==> PlanOf(rows).None? && forall j :: 0 <= j < |rows| ==> !rows[j].PlanRow?
    ensures k != -1 ==>
      && 0 <= k < |rows| && rows[k].PlanRow? && PlanOf(rows) == Some(rows[k].entries)
      && forall j :: 0 <= j < k ==> !rows[j].PlanRow?
  {
    k := -1;
    if rows != [] {
      k := PlanIsFirst(Init(rows));
      assert forall j :: 0 <= j < |rows| - 1 ==> rows[j] == Init(rows)[j];
      if k == -1 && Last(rows).PlanRow? { k := |rows| - 1; }
    }
  }

  // ---- asks and answers

  ghost predicate HasAnswer(rows: Ledger, id: nat) {
    exists r :: r in rows && r.AnswerRow? && r.answer.ask == id
  }

  lemma {:induction false} AnsweredIff(rows: Ledger, id: nat)
    ensures id in Answers(rows) <==> HasAnswer(rows, id)
  {
    if rows != [] {
      AnsweredIff(Init(rows), id);
      assert rows == Init(rows) + [Last(rows)];
    }
  }

  /** The Owner has answered every ask of the item. */
  ghost predicate NothingAsked(rows: Ledger, item: Item) {
    forall r :: r in rows && r.AskRow? && r.ask.owner == Some(item) ==> HasAnswer(rows, r.ask.id)
  }

  lemma {:induction false} FirstUnansweredIff(asks: seq<Ask>, given: map<nat, Choice>)
    ensures FirstUnanswered(asks, given).None? <==> forall a :: a in asks ==> a.id in given
    ensures FirstUnanswered(asks, given).Some? ==>
      exists i :: 0 <= i < |asks| && FirstUnanswered(asks, given) == Some(asks[i]) && asks[i].id !in given
                  && forall j :: 0 <= j < i ==> asks[j].id in given
  {
    if asks != [] {
      var before := Init(asks);
      FirstUnansweredIff(before, given);
      assert asks == before + [Last(asks)];
      if FirstUnanswered(before, given).Some? {
        var i :| 0 <= i < |before| && FirstUnanswered(before, given) == Some(before[i]) && before[i].id !in given
                 && forall j :: 0 <= j < i ==> before[j].id in given;
        assert asks[i] == before[i];
      } else if Last(asks).id !in given {
        assert asks[|asks| - 1] == Last(asks);
      }
    }
  }

  /** An item's view has a pending ask exactly when one of its asks is unanswered. */
  lemma {:induction false} PendingIff(rows: Ledger, item: Item)
    ensures ViewOf(rows, item).pending.None? <==> NothingAsked(rows, item)
  {
    var asks := AsksOf(rows, item);
    FirstUnansweredIff(asks, Answers(rows));
    AsksAreRows(rows, item);
    forall a | a in asks
      ensures a.id in Answers(rows) <==> HasAnswer(rows, a.id)
    {
      AnsweredIff(rows, a.id);
    }
    if NothingAsked(rows, item) {
      forall a | a in asks
        ensures a.id in Answers(rows)
      {
        assert AskRow(a) in rows;
      }
    } else {
      var r :| r in rows && r.AskRow? && r.ask.owner == Some(item) && !HasAnswer(rows, r.ask.id);
      assert r == AskRow(r.ask) && r.ask in asks;
    }
  }

  /** The row answers an ask of this kind of the item. */
  ghost predicate Answering(rows: Ledger, r: Row, item: Item, kind: AskKind) {
    r.AnswerRow? && exists q :: q in rows && q.AskRow? && q.ask.owner == Some(item) && q.ask.kind == kind
                                && q.ask.id == r.answer.ask
  }

  /** The last answer to the item's asks of this kind stands at `k`. */
  ghost predicate LastAnswering(rows: Ledger, item: Item, kind: AskKind, k: int) {
    0 <= k < |rows| && Answering(rows, rows[k], item, kind)
    && forall j :: k < j < |rows| ==> !Answering(rows, rows[j], item, kind)
  }

  lemma {:induction false} AnsweringIff(rows: Ledger, r: Row, item: Item, kind: AskKind)
    ensures Answering(rows, r, item, kind) <==> r.AnswerRow? && r.answer.ask in IdsOf(AsksOf(rows, item), kind)
  {
    AsksAreRows(rows, item);
    if Answering(rows, r, item, kind) {
      var q :| q in rows && q.AskRow? && q.ask.owner == Some(item) && q.ask.kind == kind && q.ask.id == r.answer.ask;
      assert q == AskRow(q.ask) && q.ask in AsksOf(rows, item);
    }
  }

  /** The gate's reading is the last answer to one of the item's gate asks. */
  lemma {:induction false} GateIff(rows: Ledger, item: Item, choice: Choice)
    ensures ViewOf(rows, item).gate == Some(choice)
       <==> exists k :: LastAnswering(rows, item, GateAsk, k) && rows[k].answer.choice == choice
  {
    var p := LastAnswerExists(rows, IdsOf(AsksOf(rows, item), GateAsk));
    LatestIsPlaced(rows, IdsOf(AsksOf(rows, item), GateAsk), p);
    LastIsLast(rows, item, GateAsk, p);
  }

  lemma {:induction false} LastIsLast(rows: Ledger, item: Item, kind: AskKind, p: int)
    requires LastAnswerAt(rows, IdsOf(AsksOf(rows, item), kind), p)
    ensures p >= 0 ==> LastAnswering(rows, item, kind, p)
    ensures forall k :: LastAnswering(rows, item, kind, k) ==> k == p
  {
    forall j | 0 <= j < |rows|
      ensures Answering(rows, rows[j], item, kind)
         <==> rows[j].AnswerRow? && rows[j].answer.ask in IdsOf(AsksOf(rows, item), kind)
    {
      AnsweringIff(rows, rows[j], item, kind);
    }
  }

  // ---- the last state row

  /** The item's last state row stands at `k`. */
  ghost predicate LastMove(rows: Ledger, item: Item, k: int) {
    0 <= k < |rows| && IsOwnMove(rows[k], item) && forall j :: k < j < |rows| ==> !IsOwnMove(rows[j], item)
  }

  lemma {:induction false} LastMoveAt(rows: Ledger, item: Item) returns (k: int)
    ensures k == -1 || LastMove(rows, item, k)
    ensures k == -1 ==> StatesOf(rows, item) == [] && forall j :: 0 <= j < |rows| ==> !IsOwnMove(rows[j], item)
    ensures k >= 0 ==> StatesOf(rows, item) != [] && rows[k].move == Last(StatesOf(rows, item))
  {
    k := -1;
    if rows != [] {
      if IsOwnMove(Last(rows), item) {
        k := |rows| - 1;
      } else {
        k := LastMoveAt(Init(rows), item);
      }
    }
  }

  lemma {:induction false} LastMoveIff(rows: Ledger, item: Item)
    ensures StatesOf(rows, item) == [] <==> forall j :: 0 <= j < |rows| ==> !IsOwnMove(rows[j], item)
    ensures forall k :: LastMove(rows, item, k) ==>
      StatesOf(rows, item) != [] && rows[k].move == Last(StatesOf(rows, item))
    ensures StatesOf(rows, item) != [] ==> exists k :: LastMove(rows, item, k)
  {
    var k := LastMoveAt(rows, item);
    if k >= 0 { OneLastMove(rows, item, k); }
  }

  /** Where an item stands: what its last state row says, or planned. */
  ghost predicate Stands(rows: Ledger, item: Item, state: State) {
    if exists k :: LastMove(rows, item, k) then exists k :: LastMove(rows, item, k) && rows[k].move.to == state
    else state == Planned
  }

  lemma {:induction false} StandsIff(rows: Ledger, item: Item, state: State)
    ensures ViewOf(rows, item).State() == state <==> Stands(rows, item, state)
  {
    LastMoveIff(rows, item);
  }

  /** The last state row is to stalled, and the last answer to a stall ask of the item
      came after it, with this choice. */
  ghost predicate Resumed(rows: Ledger, item: Item, choice: Choice) {
    exists j, k :: LastMove(rows, item, j) && rows[j].move.to == Stalled
                && LastAnswering(rows, item, StallAsk, k) && j < k && rows[k].answer.choice == choice
  }

  lemma {:induction false} ResumedIff(rows: Ledger, item: Item, choice: Choice)
    ensures ViewOf(rows, item).resumed == Some(choice) <==> Resumed(rows, item, choice)
  {
    LastMoveIff(rows, item);
    var ids := IdsOf(AsksOf(rows, item), StallAsk);
    var p := LastAnswerExists(rows, ids);
    LastIsLast(rows, item, StallAsk, p);
    if StatesOf(rows, item) != [] {
      var j :| LastMove(rows, item, j);
      SinceMoveIsPlaced(rows, item, ids, p, j);
      OneLastMove(rows, item, j);
    }
  }

  lemma OneLastMove(rows: Ledger, item: Item, j: int)
    requires LastMove(rows, item, j)
    ensures forall k :: LastMove(rows, item, k) ==> k == j
  {
  }

  // ---- runs

  lemma {:induction false} RunsAreRows(rows: Ledger, item: Item)
    ensures forall r :: r in RunsOf(rows, item) <==> RunRow(r) in rows && r.item == item
  {
    if rows != [] {
      RunsAreRows(Init(rows), item);
      assert rows == Init(rows) + [Last(rows)];
    }
  }

  /** The last state row names a run of which no run row is in. */
  ghost predicate Running(rows: Ledger, item: Item) {
    exists k :: LastMove(rows, item, k) && rows[k].move.fields.runId.Some?
             && forall r :: r in rows && r.RunRow? && r.run.item == item ==>
                  r.run.runId != rows[k].move.fields.runId.value
  }

  lemma {:induction false} FirstRunIff(runs: seq<Run>, id: RunId)
    ensures FirstRun(runs, id).None? <==> forall r :: r in runs ==> r.runId != id
    ensures FirstRun(runs, id).Some? ==> FirstRun(runs, id).value in runs && FirstRun(runs, id).value.runId == id
  {
    if runs != [] {
      FirstRunIff(Init(runs), id);
      assert runs == Init(runs) + [Last(runs)];
    }
  }

  lemma {:induction false} RunningIff(rows: Ledger, item: Item)
    ensures ViewOf(rows, item).InFlight() <==> Running(rows, item)
  {
    LastMoveIff(rows, item);
    RunsAreRows(rows, item);
    var v := ViewOf(rows, item);
    if v.Launched().Some? {
      var id := v.Launched().value;
      FirstRunIff(v.runs, id);
      var k :| LastMove(rows, item, k);
      if v.InFlight() {
        forall r | r in rows && r.RunRow? && r.run.item == item
          ensures r.run.runId != id
        {
          assert r == RunRow(r.run) && r.run in v.runs;
        }
        assert Running(rows, item);
      } else {
        var run := FirstRun(v.runs, id).value;
        assert RunRow(run) in rows;
      }
    }
  }

  // ---- authors

  /** Some run of the item that was no review carries the id. */
  ghost predicate Authored(rows: Ledger, item: Item, id: RunId) {
    exists r :: r in rows && r.RunRow? && r.run.item == item && r.run.step != Review && r.run.runId == id
  }

  lemma {:induction false} AuthorIdsAre(runs: seq<Run>, id: RunId)
    ensures id in AuthorIds(runs) <==> exists r :: r in runs && r.step != Review && r.runId == id
  {
    if runs != [] {
      AuthorIdsAre(Init(runs), id);
      assert runs == Init(runs) + [Last(runs)];
    }
  }

  /** An id is an author run exactly when some run of the item with a step other than
      review carries it. */
  lemma {:induction false} AuthorsAre(rows: Ledger, item: Item, id: RunId)
    ensures id in ViewOf(rows, item).AuthorRuns() <==> Authored(rows, item, id)
  {
    AuthorIdsAre(RunsOf(rows, item), id);
    RunsAreRows(rows, item);
    if Authored(rows, item, id) {
      var r :| r in rows && r.RunRow? && r.run.item == item && r.run.step != Review && r.run.runId == id;
      assert r == RunRow(r.run) && r.run in RunsOf(rows, item);
    }
    if id in AuthorIds(RunsOf(rows, item)) {
      var run :| run in RunsOf(rows, item) && run.step != Review && run.runId == id;
      assert RunRow(run) in rows;
    }
  }

  // ---- the oldest ask of the whole batch

  /** The ask at `k` is unanswered, and every ask before it is answered. */
  ghost predicate OldestOpen(rows: Ledger, k: int) {
    0 <= k < |rows| && rows[k].AskRow? && !HasAnswer(rows, rows[k].ask.id)
    && forall j :: 0 <= j < k && rows[j].AskRow? ==> HasAnswer(rows, rows[j].ask.id)
  }

  lemma {:induction false} NextAskAt(rows: Ledger, given: map<nat, Choice>)
    ensures NextAsk(rows, given).None? <==> forall j :: 0 <= j < |rows| && rows[j].AskRow? ==> rows[j].ask.id in given
    ensures NextAsk(rows, given).Some? ==>
      exists k :: 0 <= k < |rows| && rows[k] == AskRow(NextAsk(rows, given).value) && rows[k].ask.id !in given
                  && forall j :: 0 <= j < k && rows[j].AskRow? ==> rows[j].ask.id in given
  {
    if rows != [] {
      var before := Init(rows);
      NextAskAt(before, given);
      assert forall j :: 0 <= j < |before| ==> rows[j] == before[j];
      if NextAsk(before, given).Some? {
        var k :| 0 <= k < |before| && before[k] == AskRow(NextAsk(before, given).value)
                 && before[k].ask.id !in given
                 && forall j :: 0 <= j < k && before[j].AskRow? ==> before[j].ask.id in given;
        assert rows[k] == before[k];
      } else if Last(rows).AskRow? && Last(rows).ask.id !in given {
        assert rows[|rows| - 1] == Last(rows);
      }
    }
  }

  /** The decision queue shows the oldest ask no answer names, and none only when
      there is none. */
  lemma {:induction false} QueueShowsTheOldest(rows: Ledger)
    ensures NextAsk(rows, Answers(rows)).None?
       <==> forall j :: 0 <= j < |rows| && rows[j].AskRow? ==> HasAnswer(rows, rows[j].ask.id)
    ensures NextAsk(rows, Answers(rows)).Some? ==>
      exists k :: OldestOpen(rows, k) && rows[k].ask == NextAsk(rows, Answers(rows)).value
  {
    NextAskAt(rows, Answers(rows));
    forall j | 0 <= j < |rows| && rows[j].AskRow?
      ensures rows[j].ask.id in Answers(rows) <==> HasAnswer(rows, rows[j].ask.id)
    {
      AnsweredIff(rows, rows[j].ask.id);
    }
  }
}
