/** What each command leaves behind, told of the rows and the item it is about. */
module Effects {
  import opened Rows
  import opened View
  import opened ReadLedger
  import opened Meaning
  import opened Flow
  import opened Survey
  import opened Protocol
  import opened Walk
  import opened Commands
  import opened Rules
  import opened Due

  // ---- verdicts

  /** One more state row, and nothing else of the item's. */
  ghost predicate MovedBy(v: ItemView, after: ItemView, m: Move) {
    after.states == v.states + [m] && after.runs == v.runs && after.asks == v.asks
  }

  lemma {:induction false} OneMove(rows: Ledger, m: Move)
    ensures MovedBy(ViewOf(rows, m.item), ViewOf(rows + [StateRow(m)], m.item), m)
  {
    InitSnoc(rows, StateRow(m));
  }

  /** A move is written exactly when it is accepted, and is that one state row. */
  lemma {:induction false} MoveIsRecorded(rows: Ledger, at: int, item: Item, to: State, fields: Fields)
    ensures var out, m := MoveRows(rows, at, item, to, fields), Move(at, item, ViewOf(rows, item).State(), to, fields);
      && (out.Written? <==> Accepted(rows, item, to, fields))
      && (out.Written? ==> out.rows == [StateRow(m)] && MovedBy(ViewOf(rows, item), ViewOf(rows + out.rows, item), m))
  {
    LegalIff(rows, item, to, fields);
    OneMove(rows, Move(at, item, ViewOf(rows, item).State(), to, fields));
  }

  /** A queued stall stalls a planned item where it stands, for its cause, advised as asked. */
  lemma {:induction false} QueuedStallLeaves(rows: Ledger, at: int, item: Item, cause: Cause, recommended: Choice)
    requires ViewOf(rows, item).entry.Some? && recommended in {Retry, Block}
    ensures QueueStallRows(rows, at, item, cause, recommended).Written?
    ensures var v := ViewOf(rows, item);
      var after := ViewOf(rows + QueueStallRows(rows, at, item, cause, recommended).rows, item);
      && StalledFor(v, after, cause, None, recommended) && after.runs == v.runs
      && (RetryUp in Last(after.asks).options <==> cause != DeliveryFailed && RanAt(v) != Some(ArchitectureReview))
  {
    StallAsksAreOk(ViewOf(rows, item), cause);
    StallLeaves(rows, at, item, cause, recommended, None, None);
    OptionsAre(ViewOf(rows, item), cause);
  }

  /** A pass is recorded exactly when the review may end so; its row names the reviewer,
      the head reviewed, and as authors every run of the item that was no review. */
  lemma {:induction false} PassIsRecorded(rows: Ledger, at: int, item: Item, reviewer: RunId, head: string)
    ensures var out := VerdictRows(rows, at, item, Pass, reviewer, head);
      && (out.Written? <==>
            Accepted(rows, item, Reviewed,
                     NO_FIELDS.(verdict := Some(Pass), authorRuns := ViewOf(rows, item).AuthorRuns(),
                                reviewerRun := Some(reviewer), head := Some(head))))
      && (out.Written? ==>
            && |out.rows| == 1 && out.rows[0].StateRow?
            && var m := out.rows[0].move;
               && m.item == item && m.from == ViewOf(rows, item).State() && m.to == Reviewed
               && m.fields.verdict == Some(Pass) && m.fields.reviewerRun == Some(reviewer)
               && m.fields.head == Some(head)
               && (forall id :: id in m.fields.authorRuns <==> Authored(rows, item, id))
               && MovedBy(ViewOf(rows, item), ViewOf(rows + out.rows, item), m))
  {
    var out := VerdictRows(rows, at, item, Pass, reviewer, head);
    var fields := NO_FIELDS.(verdict := Some(Pass), authorRuns := ViewOf(rows, item).AuthorRuns(),
                             reviewerRun := Some(reviewer), head := Some(head));
    LegalIff(rows, item, Reviewed, fields);
    if out.Written? {
      forall id
        ensures id in fields.authorRuns <==> Authored(rows, item, id)
      {
        AuthorsAre(rows, item, id);
      }
      assert out.rows == [StateRow(out.rows[0].move)];
      OneMove(rows, out.rows[0].move);
    }
  }

  /** A first request for changes returns the item to build, with no run of its own; once
      it was sent back, another stalls it, whatever state it is in, and advises to block. */
  lemma {:induction false} ChangesSendBackOnce(rows: Ledger, at: int, item: Item, reviewer: RunId, head: string)
    requires ViewOf(rows, item).entry.Some?
    ensures var out := VerdictRows(rows, at, item, Changes, reviewer, head);
      var v := ViewOf(rows, item);
      if WasSentBack(rows, item) then
        && out.Written? && StalledFor(v, ViewOf(rows + out.rows, item), ChangesAgain, None, Block)
      else
        && (out.Written? <==> Accepted(rows, item, Build, NO_FIELDS))
        && (out.Written? ==>
              MovedBy(v, ViewOf(rows + out.rows, item), Move(at, item, v.State(), Build, NO_FIELDS)))
  {
    var v := ViewOf(rows, item);
    SentBackIff(rows, item);
    SuccessorsFollow(v.entry.value.kind, Review, v.states, Build);
    if WasSentBack(rows, item) {
      StallAsksAreOk(v, ChangesAgain);
      StallLeaves(rows, at, item, ChangesAgain, Block, None, None);
    } else {
      LegalIff(rows, item, Build, NO_FIELDS);
      OneMove(rows, Move(at, item, v.State(), Build, NO_FIELDS));
    }
  }

  // ---- launches

  /** A step is launched exactly when the move is accepted and the month's spend, every
      run out and this run fit the cap; refused exactly when the move is not accepted. */
  lemma {:induction false} LaunchedIff(rows: Ledger, at: int, item: Item, step: State, pid: nat, spent: nat, cap: nat)
    ensures var out := LaunchRows(rows, at, item, step, pid, spent, cap);
      var v := ViewOf(rows, item);
      var fields := NO_FIELDS.(runId := Some(NextRun(v, step)), pid := Some(pid));
      && (out.NotLaunched? <==> !Accepted(rows, item, step, fields))
      && (out.Launched? <==> && Accepted(rows, item, step, fields)
                             && spent + InFlightCents(rows, Entries(rows)) + CeilingOf(v, step) <= cap)
      && (out.Launched? ==>
            MovedBy(v, ViewOf(rows + [out.row], item), Move(at, item, v.State(), step, fields)))
  {
    var v := ViewOf(rows, item);
    var fields := NO_FIELDS.(runId := Some(NextRun(v, step)), pid := Some(pid));
    LegalIff(rows, item, step, fields);
    OneMove(rows, Move(at, item, v.State(), step, fields));
  }

  /** The launch rows of a step, in order. */
  function Launches(states: seq<Move>, step: State): seq<Move> {
    if states == [] then []
    else Launches(Init(states), step)
         + if Last(states).to == step && Last(states).fields.pid.Some? then [Last(states)] else []
  }

  lemma {:induction false} LaunchesAre(states: seq<Move>, step: State)
    ensures |Launches(states, step)| == LaunchCount(states, step)
  {
    if states != [] { LaunchesAre(Init(states), step); }
  }

  /** The launches carry run ids numbered from one, in order. */
  predicate Numbered(launches: seq<Move>, item: Item, step: State) {
    forall i :: 0 <= i < |launches| ==> launches[i].fields.runId == Some(RunId(item, step, i + 1))
  }

  /** In every lawful ledger the launches of an item's step are numbered so. */
  lemma {:induction false} LaunchesAreNumbered(rows: Ledger, item: Item, step: State)
    requires Lawful(rows) && step.IsStep()
    ensures Numbered(Launches(StatesOf(rows, item), step), item, step)
  {
    if |rows| > 1 {
      assert rows == Init(rows) + [Last(rows)];
      LaunchesAreNumbered(Init(rows), item, step);
      OneMoreIsNumbered(Init(rows), Last(rows), item, step);
    } else {
      OpeningIsIdle(rows, item);
    }
  }

  lemma {:induction false} OneMoreIsNumbered(before: Ledger, r: Row, item: Item, step: State)
    requires Admissible(before, r) && step.IsStep() && Numbered(Launches(StatesOf(before, item), step), item, step)
    ensures Numbered(Launches(StatesOf(before + [r], item), step), item, step)
  {
    LaunchesGrow(before, r, item, step);
    if IsOwnMove(r, item) && r.move.to == step && r.move.fields.pid.Some? {
      assert MoveOk(before, r.move);
      NextIsNumbered(before, r.move, step);
    }
  }

  lemma {:induction false} NextIsNumbered(before: Ledger, m: Move, step: State)
    requires MoveOk(before, m) && m.to == step && step.IsStep() && m.fields.pid.Some?
    requires Numbered(Launches(StatesOf(before, m.item), step), m.item, step)
    ensures Numbered(Launches(StatesOf(before, m.item), step) + [m], m.item, step)
  {
    NewLaunchIsNumbered(before, m, step);
    LaunchesAre(StatesOf(before, m.item), step);
    NumberedSnoc(Launches(StatesOf(before, m.item), step), m, m.item, step);
  }

  lemma NumberedSnoc(launches: seq<Move>, m: Move, item: Item, step: State)
    requires Numbered(launches, item, step) && m.fields.runId == Some(RunId(item, step, |launches| + 1))
    ensures Numbered(launches + [m], item, step)
  {
  }

  lemma {:induction false} NewLaunchIsNumbered(before: Ledger, m: Move, step: State)
    requires MoveOk(before, m) && m.to == step && step.IsStep() && m.fields.pid.Some?
    ensures m.fields.runId == Some(RunId(m.item, step, LaunchCount(StatesOf(before, m.item), step) + 1))
  {
    assert LaunchFields(ViewOf(before, m.item), m.to, m.fields);
  }

  lemma {:induction false} LaunchesGrow(before: Ledger, r: Row, item: Item, step: State)
    ensures var launches := Launches(StatesOf(before, item), step);
      Launches(StatesOf(before + [r], item), step)
      == if IsOwnMove(r, item) && r.move.to == step && r.move.fields.pid.Some? then launches + [r.move] else launches
  {
    InitSnoc(before, r);
    if IsOwnMove(r, item) { InitSnoc(StatesOf(before, item), r.move); }
  }

  lemma {:induction false} PendingBatchAskHolds(rows: Ledger)
    requires PendingBatchAsk(rows, Answers(rows)).Some?
    ensures Held(rows)
  {
    var r := PendingBatchRow(rows, Answers(rows));
    assert r in rows && BatchAsk(r);
  }

  lemma {:induction false} PendingBatchRow(rows: Ledger, given: map<nat, Choice>) returns (r: Row)
    requires PendingBatchAsk(rows, given).Some?
    ensures r in rows && BatchAsk(r) && r.ask.id !in given
  {
    if PendingBatchAsk(Init(rows), given).Some? {
      r := PendingBatchRow(Init(rows), given);
    } else {
      r := Last(rows);
    }
  }

  /** A launch paused over the cap leaves dispatch held: by its own pause ask, or by the
      batch ask the Owner has not answered yet, which is not repeated. */
  lemma {:induction false} PausedHoldsDispatch(rows: Ledger, at: int, item: Item, step: State, pid: nat, spent: nat,
                                               cap: nat)
    requires Lawful(rows) && LaunchRows(rows, at, item, step, pid, spent, cap).Paused?
    ensures var more := LaunchRows(rows, at, item, step, pid, spent, cap).rows;
      && Held(rows + more)
      && (more != [] ==> |more| == 1 && BatchAsk(more[0]) && more[0].ask.options == [Resume, Stop])
      && (more == [] <==> exists r :: r in rows && BatchAsk(r) && !HasAnswer(rows, r.ask.id))
  {
    var more := LaunchRows(rows, at, item, step, pid, spent, cap).rows;
    PendingBatchIff(rows, Answers(rows));
    forall r | r in rows && BatchAsk(r)
      ensures r.ask.id in Answers(rows) <==> HasAnswer(rows, r.ask.id)
    {
      AnsweredIff(rows, r.ask.id);
    }
    if more == [] {
      assert rows + more == rows;
      PendingBatchAskHolds(rows);
    } else {
      NewBatchAskHolds(rows, more[0]);
      assert more == [more[0]];
    }
  }

  lemma {:induction false} PendingBatchIff(rows: Ledger, given: map<nat, Choice>)
    ensures PendingBatchAsk(rows, given).Some? <==> exists r :: r in rows && BatchAsk(r) && r.ask.id !in given
  {
    if rows != [] {
      PendingBatchIff(Init(rows), given);
      assert rows == Init(rows) + [Last(rows)];
    }
  }

  /** A batch ask just raised is unanswered: no earlier answer can name it. */
  lemma {:induction false} NewBatchAskHolds(rows: Ledger, r: Row)
    requires Lawful(rows) && BatchAsk(r) && r.ask.id == AskCount(rows) + 1
    ensures Held(rows + [r])
  {
    NewAskIsUnanswered(rows);
    AnsweredIff(rows, r.ask.id);
    InitSnoc(rows, r);
    assert r in rows + [r];
  }

  lemma {:induction false} NewAskIsUnanswered(rows: Ledger)
    requires Lawful(rows)
    ensures !HasAnswer(rows, AskCount(rows) + 1)
  {
    AnswersNameAsks(rows);
    forall r | r in rows && r.AnswerRow?
      ensures r.answer.ask <= AskCount(rows)
    {
      assert r == AnswerRow(r.answer);
    }
  }

  // ---- answers

  lemma {:induction false} FoundIff(rows: Ledger, id: nat)
    ensures FindAsk(rows, id).Some? <==> exists r :: r in rows && r.AskRow? && r.ask.id == id
  {
    if rows != [] {
      FoundIff(Init(rows), id);
      assert rows == Init(rows) + [Last(rows)];
    }
  }

  /** An answer is taken exactly when the ask is there, unanswered, and offers the choice;
      after it the ask is answered. A `block` to an open item's ask leaves the item blocked,
      with the cause it stalled for or else the Owner's; nothing else moves. */
  lemma {:induction false} AnswerLeaves(rows: Ledger, at: int, id: nat, choice: Choice)
    ensures var out := AnswerRows(rows, at, id, choice);
      && (out.Written? <==>
            FindAsk(rows, id).Some? && !HasAnswer(rows, id) && choice in FindAsk(rows, id).value.options)
      && (out.Written? ==>
            var ask := FindAsk(rows, id).value;
            var blocks := choice == Block && ask.owner.Some? && !ViewOf(rows, ask.owner.value).State().IsTerminal();
            && out.rows != [] && out.rows[0] == AnswerRow(Answer(ask.owner, id, choice))
            && |out.rows| == (if blocks then 2 else 1)
            && (blocks ==>
                  var v := ViewOf(rows, ask.owner.value);
                  && out.rows[1].StateRow? && out.rows[1].move.item == ask.owner.value
                  && out.rows[1].move.from == v.State() && out.rows[1].move.to == Blocked
                  && out.rows[1].move.fields.cause
                     == if v.State() == Stalled then Last(v.states).fields.cause else Some(OwnerBlock)))
  {
    AnsweredIff(rows, id);
  }

  /** An ask raised by the grammar can be answered as it recommends. */
  lemma {:induction false} RaisedCanBeAnswered(rows: Ledger, at: int, a: Ask)
    requires Lawful(rows) && AskOk(a) && a.id == AskCount(rows) + 1
    ensures AnswerRows(rows + [AskRow(a)], at, a.id, a.recommended).Written?
  {
    var after := rows + [AskRow(a)];
    InitSnoc(rows, AskRow(a));
    NewAskIsUnanswered(rows);
    AnsweredIff(after, a.id);
    AnsweredIff(rows, a.id);
    NewAskIsUnfound(rows);
  }

  lemma {:induction false} NewAskIsUnfound(rows: Ledger)
    requires Lawful(rows)
    ensures FindAsk(rows, AskCount(rows) + 1).None?
  {
    AnswersNameAsks(rows);
    FoundIff(rows, AskCount(rows) + 1);
    forall r | r in rows && r.AskRow?
      ensures r.ask.id <= AskCount(rows)
    {
      assert r == AskRow(r.ask);
    }
  }

  // ---- stall asks

  /** The band the item ran at when it stalled: its run's, else its step's policy. */
  function RanAt(v: ItemView): Option<Band> {
    if v.Finishing().Some? then Some(v.Finishing().value.band)
    else if v.PolicyOf(v.State()).Some? then Some(v.PolicyOf(v.State()).value.band)
    else None
  }

  /** A stall always offers retry and block, and one band up exactly below the top band
      unless only the delivery failed. */
  lemma OptionsAre(v: ItemView, cause: Cause)
    ensures var options := OfferedOptions(v, cause, None);
      && Retry in options && Block in options
      && (RetryUp in options <==> cause != DeliveryFailed && RanAt(v) != Some(ArchitectureReview))
      && forall o :: o in options ==> o in {Retry, RetryUp, Block}
  {
    var all, top := [Retry, RetryUp, Block], [Retry, Block];
    WithoutIs(all, RetryUp);
    WithoutIs(top, RetryUp);
  }

  lemma {:induction false} WithoutIs(options: seq<Choice>, choice: Choice)
    ensures forall o :: o in Without(options, choice) <==> o in options && o != choice
  {
    if options != [] {
      WithoutIs(Init(options), choice);
      assert options == Init(options) + [Last(options)];
    }
  }

  /** A planned step keeps its ceiling, and runs at its planned band; only the step a
      retry-up answer resumes runs one band up, while there is one. */
  lemma {:induction false} PolicyIs(rows: Ledger, item: Item, step: State)
    ensures var v := ViewOf(rows, item);
      && (v.PolicyOf(step).Some? <==> v.entry.Some? && FindStep(v.entry.value.steps, step).Some?)
      && (v.PolicyOf(step).Some? ==>
            var planned, policy := FindStep(v.entry.value.steps, step).value, v.PolicyOf(step).value;
            var up := && Resumed(rows, item, RetryUp)
                      && exists k :: LastMove(rows, item, k) && rows[k].move.from == step;
            && policy.ceiling == planned.ceiling
            && (planned.band == Mechanical ==> policy.band == if up then Implementation else Mechanical)
            && (planned.band == Implementation ==> policy.band == if up then ArchitectureReview else Implementation)
            && (planned.band == ArchitectureReview ==> policy.band == ArchitectureReview)
            && (policy.bumped <==> up && planned.band != ArchitectureReview))
  {
    ResumedIff(rows, item, RetryUp);
    var k := LastMoveAt(rows, item);
    if k >= 0 { OneLastMove(rows, item, k); }
  }

  /** A lost run is closed at the band it was launched at: its step's policy on the rows
      before its launch row. */
  lemma {:induction false} LostRunIs(rows: Ledger, entry: Entry, launch: Move)
    returns (k: nat)
    requires launch in StatesOf(rows, entry.item) && launch.fields.runId.Some? && launch.fields.pid.Some?
    ensures k < |rows| && rows[k] == StateRow(launch) && forall j :: 0 <= j < k ==> rows[j] != StateRow(launch)
    ensures var run, policy := LostRun(rows, entry, launch).run, ViewOf(rows[..k], entry.item).PolicyOf(launch.to);
      && run.item == entry.item && run.step == launch.to && run.runId == launch.fields.runId.value
      && run.pid == launch.fields.pid.value && run.outcome == RunnerLost
      && (policy.Some? ==> run.band == policy.value.band)
  {
    StatesAreRows(rows, entry.item);
    k := IndexOf(rows, StateRow(launch));
    FirstIndex(rows, StateRow(launch));
  }

  lemma {:induction false} FirstIndex(rows: Ledger, r: Row)
    requires r in rows
    ensures forall j :: 0 <= j < IndexOf(rows, r) ==> rows[j] != r
  {
    if rows[0] != r {
      FirstIndex(rows[1..], r);
      assert forall j :: 0 < j < |rows| ==> rows[j] == rows[1..][j - 1];
    }
  }

  lemma {:induction false} FoundStep(steps: seq<PlannedStep>, step: State)
    ensures FindStep(steps, step).Some? <==> exists s :: s in steps && s.step == step
    ensures FindStep(steps, step).Some? ==>
      FindStep(steps, step).value in steps && FindStep(steps, step).value.step == step
  {
    if steps != [] {
      FoundStep(Init(steps), step);
      assert steps == Init(steps) + [Last(steps)];
    }
  }
}
