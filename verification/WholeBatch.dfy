/** One order taken from plan to merge by what the survey offers: a lawful run in
    which every precondition of the whole-run theorems is met. */
module WholeBatch {
  import opened Rows
  import opened View
  import opened Flow
  import opened Consent
  import opened Survey
  import opened Protocol
  import opened Walk
  import opened Offers
  import opened Commands

  const MERGE_ASK := Ask(Some(1), 1, MergeAsk, [Merge, Block], Merge, [], map[])

  /** The branch facts are read: no gate file changed, no PR merged elsewhere. */
  predicate Plain(w: World) {
    w.facts == map[1 := Facts(Some(map[]), None, None, None)]
  }

  /** What the ledger of the one item reads as. */
  ghost predicate Reads(rows: Ledger, states: seq<Move>, runs: seq<Run>, asks: seq<Ask>, given: map<nat, Choice>) {
    && Lawful(rows) && Entries(rows) == [ENTRY]
    && StatesOf(rows, 1) == states && RunsOf(rows, 1) == runs && AsksOf(rows, 1) == asks
    && Answers(rows) == given && AskCount(rows) == |asks|
    && FailureStreak(rows) == 0 && (forall r :: r in rows ==> !BatchAsk(r))
  }

  lemma PlanReads(plan: Row)
    requires plan == PlanRow([ENTRY])
    ensures Reads([plan], [], [], [], map[])
  {
    OrderOpens(plan);
    PlanStays([plan]);
    assert Init([plan]) == [];
  }

  lemma MoveReads(rows: Ledger, states: seq<Move>, runs: seq<Run>, asks: seq<Ask>, given: map<nat, Choice>, m: Move)
    requires Reads(rows, states, runs, asks, given) && m.item == 1 && MoveOk(rows, m)
    ensures Reads(rows + [StateRow(m)], states + [m], runs, asks, given)
  {
    InitSnoc(rows, StateRow(m));
    SamePlan(rows, StateRow(m));
  }

  lemma RunReads(rows: Ledger, states: seq<Move>, runs: seq<Run>, asks: seq<Ask>, given: map<nat, Choice>, run: Run)
    requires Reads(rows, states, runs, asks, given) && run.item == 1 && run.outcome == Completed && RunOk(rows, run)
    ensures Reads(rows + [RunRow(run)], states, runs + [run], asks, given)
  {
    InitSnoc(rows, RunRow(run));
    SamePlan(rows, RunRow(run));
  }

  lemma AnsweredReads(rows: Ledger, states: seq<Move>, runs: seq<Run>)
    requires Reads(rows, states, runs, [], map[])
    ensures Reads(rows + [AskRow(MERGE_ASK)] + [AnswerRow(Answer(Some(1), 1, Merge))], states, runs,
                  [MERGE_ASK], map[1 := Merge])
  {
    var asked, answer := rows + [AskRow(MERGE_ASK)], Answer(Some(1), 1, Merge);
    InitSnoc(rows, AskRow(MERGE_ASK));
    SamePlan(rows, AskRow(MERGE_ASK));
    assert Reads(asked, states, runs, [MERGE_ASK], map[]);
    InitSnoc(asked, AnswerRow(answer));
    assert AskRow(MERGE_ASK) in asked && AnswerOk(asked, answer);
    SamePlan(asked, AnswerRow(answer));
  }

  /** Nothing is pending and nothing in flight. */
  predicate Idle(v: ItemView) {
    v.entry == Some(ENTRY) && v.pending.None? && !v.InFlight()
  }

  lemma NextIsLegal(v: ItemView, to: State, fields: Fields)
    requires Idle(v) && !v.State().IsTerminal() && v.State() != Stalled && v.State() != AwaitingGate
    requires to in Successors(Order, v.State(), v.states) && to != Blocked && to != Stalled
    requires to == Reviewed ==> fields.reviewerRun.Some? && fields.reviewerRun.value !in fields.authorRuns
    ensures Legal(v, to, fields)
  {
  }

  lemma {:induction false} NoLaunch(states: seq<Move>, step: State)
    requires forall m :: m in states ==> m.to != step
    ensures LaunchCount(states, step) == 0
  {
    if states != [] {
      assert Last(states) in states && forall m :: m in Init(states) ==> m in states;
      NoLaunch(Init(states), step);
    }
  }

  lemma {:induction false} NewRunIsFound(runs: seq<Run>, run: Run)
    requires forall r :: r in runs ==> r.runId != run.runId
    ensures FirstRun(runs + [run], run.runId) == Some(run)
  {
    assert Init(runs + [run]) == runs && Last(runs + [run]) == run;
    NoRunYet(runs, run.runId);
  }

  lemma {:induction false} NoRunYet(runs: seq<Run>, id: RunId)
    requires forall r :: r in runs ==> r.runId != id
    ensures FirstRun(runs, id).None?
  {
    if runs != [] {
      assert Last(runs) in runs && forall r :: r in Init(runs) ==> r in runs;
      NoRunYet(Init(runs), id);
    }
  }

  function Launch(from: State, step: State): Move {
    Move(0, 1, from, step, NO_FIELDS.(runId := Some(RunId(1, step, 1)), pid := Some(7)))
  }

  function Finish(step: State): Run {
    Run(1, step, Mechanical, RunId(1, step, 1), 7, Completed)
  }

  /** The states so far entered, and the steps so far run. */
  ghost predicate Ran(rows: Ledger, states: seq<Move>, runs: seq<Run>, state: State, steps: set<State>) {
    && Reads(rows, states, runs, [], map[])
    && Idle(ViewOf(rows, 1)) && ViewOf(rows, 1).State() == state
    && (forall m :: m in states ==> m.to in steps && !(m.from == Review && m.to == Build))
    && (forall r :: r in runs ==> r.runId.step in steps && r.step == r.runId.step)
  }

  lemma LaunchReads(rows: Ledger, states: seq<Move>, runs: seq<Run>, from: State, steps: set<State>, step: State)
    requires Ran(rows, states, runs, from, steps) && step.IsStep() && step !in steps
    requires !from.IsTerminal() && from != Stalled && from != AwaitingGate && step in Successors(Order, from, states)
    ensures Reads(rows + [StateRow(Launch(from, step))], states + [Launch(from, step)], runs, [], map[])
  {
    var v, m := ViewOf(rows, 1), Launch(from, step);
    NoLaunch(states, step);
    NextIsLegal(v, step, m.fields);
    assert LaunchFields(v, step, m.fields);
    assert MoveOk(rows, m);
    MoveReads(rows, states, runs, [], map[], m);
  }

  /** A step that is due to an idle item is launched and completes. */
  lemma StepRuns(rows: Ledger, states: seq<Move>, runs: seq<Run>, from: State, steps: set<State>, step: State)
    returns (rows': Ledger, states': seq<Move>, runs': seq<Run>)
    requires Ran(rows, states, runs, from, steps) && step.IsStep() && step !in steps
    requires !from.IsTerminal() && from != Stalled && from != AwaitingGate && step in Successors(Order, from, states)
    requires from == Review ==> step != Build
    ensures Ran(rows', states', runs', step, steps + {step}) && ViewOf(rows', 1).Finished()
  {
    var m, run := Launch(from, step), Finish(step);
    var flying := rows + [StateRow(m)];
    LaunchReads(rows, states, runs, from, steps, step);
    assert m in StatesOf(flying, 1) && RunOk(flying, run);
    RunReads(flying, states + [m], runs, [], map[], run);
    NewRunIsFound(runs, run);
    rows', states', runs' := flying + [RunRow(run)], states + [m], runs + [run];
  }

  /** The review passes, by its own run and none of the authors'. */
  lemma Passes(rows: Ledger, states: seq<Move>, runs: seq<Run>, steps: set<State>) returns (m: Move)
    requires Ran(rows, states, runs, Review, steps)
    ensures Ran(rows + [StateRow(m)], states + [m], runs, Reviewed, steps + {Reviewed})
  {
    var v := ViewOf(rows, 1);
    m := Move(0, 1, Review, Reviewed,
              NO_FIELDS.(verdict := Some(Pass), authorRuns := v.AuthorRuns(),
                         reviewerRun := Some(RunId(1, Review, 1)), head := Some("head")));
    AuthorsAreNotReviews(runs);
    NextIsLegal(v, Reviewed, m.fields);
    assert "head"[0] in "head" && IsText("head");
    assert MoveOk(rows, m);
    MoveReads(rows, states, runs, [], map[], m);
  }

  lemma Starts()
    ensures Ran([PlanRow([ENTRY])], [], [], Planned, {})
  {
    PlanReads(PlanRow([ENTRY]));
  }

  lemma Verifies() returns (rows: Ledger, states: seq<Move>, runs: seq<Run>)
    ensures Ran(rows, states, runs, Verify, {} + {Build} + {Verify})
  {
    Starts();
    rows, states, runs := StepRuns([PlanRow([ENTRY])], [], [], Planned, {}, Build);
    rows, states, runs := StepRuns(rows, states, runs, Build, {} + {Build}, Verify);
  }

  lemma IsReviewed() returns (rows: Ledger, states: seq<Move>, runs: seq<Run>)
    ensures Ran(rows, states, runs, Reviewed, {} + {Build} + {Verify} + {Review} + {Reviewed})
  {
    rows, states, runs := Verifies();
    rows, states, runs := StepRuns(rows, states, runs, Verify, {} + {Build} + {Verify}, Review);
    var m := Passes(rows, states, runs, {} + {Build} + {Verify} + {Review});
    rows, states := rows + [StateRow(m)], states + [m];
  }

  /** The order finishes ship. */
  lemma Ships() returns (rows: Ledger, states: seq<Move>, runs: seq<Run>)
    ensures Reads(rows, states, runs, [], map[])
    ensures ViewOf(rows, 1).State() == Ship && ViewOf(rows, 1).Finished()
  {
    rows, states, runs := IsReviewed();
    rows, states, runs := StepRuns(rows, states, runs, Reviewed, {} + {Build} + {Verify} + {Review} + {Reviewed}, Ship);
  }

  /** What is ready for the one item is offered. */
  lemma OneOffer(rows: Ledger, w: World, states: seq<Move>, runs: seq<Run>, asks: seq<Ask>, given: map<nat, Choice>,
                 ready: Ready)
    requires Reads(rows, states, runs, asks, given)
    requires CandidateOf(rows, w, ENTRY) == Candidate(Some(ready), false, [])
    ensures SurveyWrites(rows, w) == [] && SurveyOffers(rows, w, 1) == [Offer(1, ready)]
  {
    assert Init([ENTRY]) == [];
    var none := SurveyItems(rows, w, []);
    assert none == Surveyed([], 0, []);
    assert rows + [] == rows;
    assert SurveyItems(rows, w, [ENTRY]) == Absorb(none, 1, Candidate(Some(ready), false, []));
  }

  /** A fresh plan is offered its first step. */
  lemma FirstStepIsOffered(w: World)
    requires Plain(w)
    ensures Lawful([PlanRow([ENTRY])]) && Offer(1, Go(Build)) in SurveyOffers([PlanRow([ENTRY])], w, 1)
  {
    var rows := [PlanRow([ENTRY])];
    PlanReads(rows[0]);
    assert CandidateOf(rows, w, ENTRY) == Candidate(Some(Go(Build)), false, []);
    OneOffer(rows, w, [], [], [], map[], Go(Build));
  }

  lemma MergeIsReady(rows: Ledger, w: World, states: seq<Move>, runs: seq<Run>)
    requires Plain(w) && Reads(rows, states, runs, [MERGE_ASK], map[1 := Merge])
    requires ViewOf(rows, 1).State() == Ship && ViewOf(rows, 1).Finished()
    ensures ViewOf(rows, 1).pending.None?
    ensures CandidateOf(rows, w, ENTRY) == Candidate(Some(MergeTurn), false, [])
  {
    assert Init([MERGE_ASK]) == [];
    assert FirstUnanswered([], map[1 := Merge]) == None;
    OwnMergesAre(rows, 1, Answers(rows));
    AsksAreRows(rows, 1);
    assert MERGE_ASK in AsksOf(rows, 1) && IsOwnMerge(AskRow(MERGE_ASK), 1, Answers(rows));
    assert MERGE_ASK in OwnMerges(rows, 1, Answers(rows));
    assert Cover(rows, 1, map[], w.policy) == Covered;
  }

  /** Once the Owner answers its merge ask, the shipped order is offered its merge
      turn, the turn's precondition holds, and it is merged. */
  lemma OrderIsMerged(w: World) returns (rows: Ledger)
    requires Plain(w)
    ensures |rows| > 3 && Lawful(rows)
    ensures var shipped := rows[..|rows| - 2];
      && StandingRead(shipped, w) && ViewOf(shipped, 1).State() == Ship
      && Offer(1, MergeTurn) in SurveyOffers(shipped, w, 1)
    ensures Last(rows).StateRow? && Last(rows).move.from == Merging && Last(rows).move.to == Merged
  {
    var shipped, states, runs := Ships();
    AnsweredReads(shipped, states, runs);
    var ready := shipped + [AskRow(MERGE_ASK)] + [AnswerRow(Answer(Some(1), 1, Merge))];
    AnsweredView(shipped, ready, states, runs);
    MergeIsReady(ready, w, states, runs);
    OneOffer(ready, w, states, runs, [MERGE_ASK], map[1 := Merge], MergeTurn);
    MergeOffersAreAllowed(ready, w, 1, 1);
    assert ready + [] == ready;
    rows := MergesInto(ready, w, states, runs);
  }

  lemma AnsweredView(shipped: Ledger, ready: Ledger, states: seq<Move>, runs: seq<Run>)
    requires Reads(shipped, states, runs, [], map[]) && Reads(ready, states, runs, [MERGE_ASK], map[1 := Merge])
    requires ViewOf(shipped, 1).State() == Ship && ViewOf(shipped, 1).Finished()
    ensures ViewOf(ready, 1).State() == Ship && ViewOf(ready, 1).Finished()
  {
  }

  lemma MergesInto(ready: Ledger, w: World, states: seq<Move>, runs: seq<Run>) returns (rows: Ledger)
    requires Reads(ready, states, runs, [MERGE_ASK], map[1 := Merge])
    requires ViewOf(ready, 1).State() == Ship && MergeAllowed(ready, 1, map[], w.policy)
    ensures |rows| == |ready| + 2 && rows[..|ready|] == ready && Lawful(rows)
    ensures Last(rows).StateRow? && Last(rows).move.from == Merging && Last(rows).move.to == Merged
  {
    var begin := Move(0, 1, Ship, Merging, NO_FIELDS.(pid := Some(7)));
    assert Legal(ViewOf(ready, 1), Merging, begin.fields);
    assert MoveOk(ready, begin);
    MoveReads(ready, states, runs, [MERGE_ASK], map[1 := Merge], begin);
    rows := MergeEnds(ready + [StateRow(begin)], states + [begin], runs);
  }

  lemma MergeEnds(merging: Ledger, states: seq<Move>, runs: seq<Run>) returns (rows: Ledger)
    requires Reads(merging, states, runs, [MERGE_ASK], map[1 := Merge])
    requires ViewOf(merging, 1).State() == Merging && !ViewOf(merging, 1).InFlight()
    ensures |rows| == |merging| + 1 && rows[..|merging|] == merging && Lawful(rows)
    ensures Last(rows).StateRow? && Last(rows).move.from == Merging && Last(rows).move.to == Merged
  {
    var end := Move(0, 1, Merging, Merged, NO_FIELDS.(pr := Some(9)));
    assert Init([MERGE_ASK]) == [] && FirstUnanswered([], map[1 := Merge]) == None;
    NextIsLegal(ViewOf(merging, 1), Merged, end.fields);
    assert MoveOk(merging, end);
    MoveReads(merging, states, runs, [MERGE_ASK], map[1 := Merge], end);
    rows := merging + [StateRow(end)];
  }
}
