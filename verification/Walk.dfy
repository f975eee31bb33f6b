/** Whole-run invariants of an item's states: its rows chain; with its stalls
    erased it walks the documented sequence; and nothing is retried, built or
    merged without the answer that allows it. */
module Walk {
  import opened Rows
  import opened View
  import opened Meaning
  import opened Flow
  import opened Consent
  import opened Protocol

  // ---- the chain

  ghost predicate Chained(states: seq<Move>) {
    && (states != [] ==> states[0].from == Planned)
    && forall i :: 0 < i < |states| ==> states[i].from == states[i - 1].to
  }

  lemma {:induction false} StatesChain(rows: Ledger, item: Item)
    requires Lawful(rows)
    ensures Chained(StatesOf(rows, item))
  {
    if |rows| > 1 {
      StatesChain(Init(rows), item);
    }
  }

  // ---- the walk

  /** The states entered once every stall, and the resume that ends it, is erased. */
  function WalkOf(states: seq<Move>): (w: seq<State>)
    ensures w != []
  {
    if states == [] then [Planned]
    else
      var w := WalkOf(Init(states));
      var m := Last(states);
      if m.to == Stalled || (m.from == Stalled && m.to == Last(w)) then w else w + [m.to]
  }

  /** The documented edges, besides the ones out of order: `blocked` from any
      state still open, and `merged` for a pull request merged outside the batch. */
  predicate Edge(kind: ItemType, a: State, b: State) {
    match b
    case Planned => false
    case Spec => a == Planned && kind != Order
    case AwaitingGate => a == Spec
    case Build =>
      || (a == Planned && kind == Order)
      || (a == Spec && kind == Fix)
      || a == AwaitingGate || a == Build || a == Review
    case Verify => a == Build
    case Review => a == Verify
    case Reviewed => a == Review
    case Ship => a == Reviewed
    case Merging => a == Ship
    case Merged => a != Merged
    case Stalled => false
    case Blocked => !a.IsTerminal()
  }

  /** How often the walk goes back from review to build. */
  function SendBacks(w: seq<State>): nat {
    if |w| < 2 then 0
    else SendBacks(Init(w)) + if w[|w| - 2] == Review && Last(w) == Build then 1 else 0
  }

  predicate Documented(kind: ItemType, w: seq<State>) {
    && w != [] && w[0] == Planned
    && (forall i :: 0 < i < |w| ==> Edge(kind, w[i - 1], w[i]))
    && SendBacks(w) <= 1
  }

  /** Where the item stands with its stall erased. */
  function Base(states: seq<Move>): State {
    if states == [] then Planned
    else if Last(states).to == Stalled then Last(states).from
    else Last(states).to
  }

  lemma SuccessorsAreEdges(kind: ItemType, state: State, states: seq<Move>, to: State)
    requires to in Successors(kind, state, states)
    requires !(state == Spec && kind == Order)
    ensures Edge(kind, state, to)
    ensures state == Review && to == Build ==> forall m :: m in states ==> !SentBack(m)
  {
  }

  lemma {:induction false} OrdersSkipTheSpec(kind: ItemType, w: seq<State>, i: nat)
    requires Documented(kind, w) && kind == Order && i < |w|
    ensures w[i] != Spec && w[i] != AwaitingGate
  {
    if i > 0 {
      OrdersSkipTheSpec(kind, w, i - 1);
    }
  }

  /** What an admissible move does to the walk: nothing, or a documented edge. */
  lemma MoveIsErasedOrEdge(rows: Ledger, m: Move)
    requires MoveOk(rows, m)
    requires var v := ViewOf(rows, m.item);
      && v.entry.Some? && Base(v.states) != Stalled && !(Base(v.states) == Spec && v.entry.value.kind == Order)
      && (v.State() == Stalled ==> !Base(v.states).IsTerminal())
    ensures var v := ViewOf(rows, m.item);
      || (m.to == Stalled && m.from == Base(v.states))
      || (m.from == Stalled && m.to == Base(v.states))
      || (&& Edge(v.entry.value.kind, Base(v.states), m.to)
          && (SentBackEdge(Base(v.states), m.to) ==>
                SentBack(m) && forall sent :: sent in v.states ==> !SentBack(sent)))
  {
    var v := ViewOf(rows, m.item);
    if Legal(v, m.to, m.fields) && v.State() != Stalled && m.to != Stalled && v.State() != Blocked {
      SuccessorsAreEdges(v.entry.value.kind, v.State(), v.states, m.to);
    }
  }

  predicate SentBackEdge(a: State, b: State) {
    a == Review && b == Build
  }

  ghost predicate WalkKept(entry: Option<Entry>, states: seq<Move>) {
    var w := WalkOf(states);
    && (entry.Some? ==> Documented(entry.value.kind, w))
    && Last(w) == Base(states) && Base(states) != Stalled
    && (states != [] && Last(states).to == Stalled ==> !Base(states).IsTerminal())
    && (SendBacks(w) > 0 ==> exists m :: m in states && SentBack(m))
  }

  lemma {:induction false} DocumentedSnoc(kind: ItemType, w: seq<State>, to: State)
    requires Documented(kind, w) && Edge(kind, Last(w), to)
    requires SentBackEdge(Last(w), to) ==> SendBacks(w) == 0
    ensures Documented(kind, w + [to])
    ensures SendBacks(w + [to]) == SendBacks(w) + if SentBackEdge(Last(w), to) then 1 else 0
  {
    InitSnoc(w, to);
  }

  lemma {:induction false} WalkStep(before: Ledger, m: Move)
    requires MoveOk(before, m)
    requires WalkKept(ViewOf(before, m.item).entry, StatesOf(before, m.item))
    ensures WalkKept(ViewOf(before, m.item).entry, StatesOf(before, m.item) + [m])
  {
    var v := ViewOf(before, m.item);
    if v.entry.Some? {
      var w := WalkOf(v.states);
      if v.entry.value.kind == Order { OrdersSkipTheSpec(Order, w, |w| - 1); }
      MoveIsErasedOrEdge(before, m);
    }
    StatesGrow(v.entry, v.states, m);
  }

  /** One more state: the walk stays where it was, or grows by a documented edge. */
  lemma {:induction false} StatesGrow(entry: Option<Entry>, states: seq<Move>, m: Move)
    requires WalkKept(entry, states)
    requires m.from == if states == [] then Planned else Last(states).to
    requires m.to == Stalled ==> m.from != Stalled && !m.from.IsTerminal()
    requires entry.None? ==> m.to == Blocked
    requires entry.Some? ==>
      || (m.to == Stalled && m.from == Base(states))
      || (m.from == Stalled && m.to == Base(states))
      || (&& Edge(entry.value.kind, Base(states), m.to)
          && (SentBackEdge(Base(states), m.to) ==> SentBack(m) && forall sent :: sent in states ==> !SentBack(sent)))
    ensures WalkKept(entry, states + [m])
  {
    InitSnoc(states, m);
    var w, states' := WalkOf(states), states + [m];
    assert m in states' && forall sent :: sent in states ==> sent in states';
    if m.to == Stalled || (m.from == Stalled && m.to == Base(states)) {
      assert WalkOf(states') == w;
    } else {
      assert WalkOf(states') == w + [m.to];
      if entry.Some? { DocumentedSnoc(entry.value.kind, w, m.to); } else { InitSnoc(w, m.to); }
    }
  }

  /** In every lawful ledger the walk is documented: out-of-order only to
      `blocked` or `merged`, standing still only at build, and at most one
      return from review to build. */
  lemma {:induction false} WalkIsDocumented(rows: Ledger, item: Item)
    requires Lawful(rows)
    ensures WalkKept(ViewOf(rows, item).entry, StatesOf(rows, item))
  {
    if |rows| > 1 {
      var before, r := Init(rows), Last(rows);
      WalkIsDocumented(before, item);
      PlanStays(rows);
      PlanStays(before);
      assert ViewOf(rows, item).entry == ViewOf(before, item).entry;
      if r.StateRow? && r.move.item == item {
        WalkStep(before, r.move);
        assert StatesOf(rows, item) == StatesOf(before, item) + [r.move];
      } else {
        assert StatesOf(rows, item) == StatesOf(before, item);
      }
    } else {
      assert StatesOf(Init(rows), item) == [];
    }
  }

  // ---- how often a documented walk visits a state

  function Visits(w: seq<State>, s: State): nat {
    if w == [] then 0 else Visits(Init(w), s) + if Last(w) == s then 1 else 0
  }

  /** How far along the documented sequence a state is. */
  function Rank(s: State): nat {
    match s
    case Planned => 0
    case Spec => 1
    case AwaitingGate => 2
    case Build => 3
    case Verify => 4
    case Review => 5
    case Reviewed => 6
    case Ship => 7
    case Merging => 8
    case Stalled => 9
    case Blocked => 10
    case Merged => 11
  }

  /** A state past the last one has not been visited, or only before a return. */
  lemma {:induction false} VisitBounds(kind: ItemType, w: seq<State>, s: State)
    requires Documented(kind, w)
    ensures s != Build ==>
      Visits(w, s) <= (if s == Verify || s == Review then 1 + SendBacks(w) else 1)
    ensures Rank(s) > Rank(Last(w)) ==>
      Visits(w, s) <= (if s == Verify || s == Review then SendBacks(w) else 0)
  {
    if |w| > 1 {
      var before := Init(w);
      assert forall i :: 0 < i < |before| ==> before[i] == w[i];
      VisitBounds(kind, before, s);
      assert Edge(kind, w[|w| - 2], w[|w| - 1]);
    } else {
      assert Visits(Init(w), s) == 0;
    }
  }

  /** Each item is specified, gated, shipped and merged at most once, and
      verified and reviewed at most twice; only build repeats freely. */
  lemma {:induction false} EachStateOnce(rows: Ledger, item: Item, s: State)
    requires Lawful(rows) && ViewOf(rows, item).entry.Some? && s != Build
    ensures Visits(WalkOf(StatesOf(rows, item)), s) <= (if s == Verify || s == Review then 2 else 1)
  {
    WalkIsDocumented(rows, item);
    VisitBounds(ViewOf(rows, item).entry.value.kind, WalkOf(StatesOf(rows, item)), s);
  }

  // ---- no feature is built before its gate is approved

  ghost predicate GateApproved(rows: Ledger, item: Item) {
    exists q, a ::
      && AskRow(q) in rows && q.kind == GateAsk && q.owner == Some(item)
      && AnswerRow(a) in rows && a.ask == q.id && a.choice == Approve
  }

  lemma GateApprovedStays(rows: Ledger, r: Row, item: Item)
    requires GateApproved(rows, item)
    ensures GateApproved(rows + [r], item)
  {
    var q, a :| && AskRow(q) in rows && q.kind == GateAsk && q.owner == Some(item)
                && AnswerRow(a) in rows && a.ask == q.id && a.choice == Approve;
    assert AskRow(q) in rows + [r] && AnswerRow(a) in rows + [r];
  }

  lemma {:induction false} LatestAnswerIsRow(rows: Ledger, ids: set<nat>)
    requires LatestAnswer(rows, ids).Some?
    ensures exists a :: AnswerRow(a) in rows && a.ask in ids && a.choice == LatestAnswer(rows, ids).value
  {
    if Last(rows).AnswerRow? && Last(rows).answer.ask in ids {
      assert AnswerRow(Last(rows).answer) in rows;
    } else {
      LatestAnswerIsRow(Init(rows), ids);
      var a :| AnswerRow(a) in Init(rows) && a.ask in ids && a.choice == LatestAnswer(rows, ids).value;
      assert AnswerRow(a) in rows;
    }
  }

  lemma GateReadIsApproved(rows: Ledger, item: Item)
    requires ViewOf(rows, item).gate == Some(Approve)
    ensures GateApproved(rows, item)
  {
    var ids := IdsOf(AsksOf(rows, item), GateAsk);
    LatestAnswerIsRow(rows, ids);
    var a :| AnswerRow(a) in rows && a.ask in ids && a.choice == Approve;
    var q :| q in AsksOf(rows, item) && q.kind == GateAsk && q.id == a.ask;
    AsksAreRows(rows, item);
  }

  /** The plan's type of an item. */
  predicate IsFeature(rows: Ledger, item: Item) {
    var entry := FindEntry(Entries(rows), item);
    entry.Some? && entry.value.kind == Feature
  }

  /** The move that first puts build on a feature's walk leaves awaiting-gate, approved. */
  lemma {:induction false} FirstBuildIsGated(before: Ledger, m: Move)
    requires MoveOk(before, m) && IsFeature(before, m.item)
    requires WalkKept(FindEntry(Entries(before), m.item), StatesOf(before, m.item))
    requires Build !in WalkOf(StatesOf(before, m.item))
    requires Build in WalkOf(StatesOf(before, m.item) + [m])
    ensures GateApproved(before, m.item)
  {
    var v := ViewOf(before, m.item);
    InitSnoc(v.states, m);
    var w := WalkOf(v.states);
    assert Last(w) in w;
    assert WalkOf(v.states + [m]) == w + [m.to] && m.to == Build;
    MoveIsErasedOrEdge(before, m);
    ReviewedAfterBuild(Feature, w, |w| - 1);
    assert v.State() == AwaitingGate;
    GateReadIsApproved(before, m.item);
  }

  lemma {:induction false} FeatureBuildsAreApproved(rows: Ledger, item: Item)
    requires Lawful(rows) && IsFeature(rows, item)
    requires Build in WalkOf(StatesOf(rows, item))
    ensures GateApproved(rows, item)
  {
    if |rows| > 1 {
      var before, r := Init(rows), Last(rows);
      assert rows == before + [r];
      SamePlan(before, r);
      if Build in WalkOf(StatesOf(before, item)) {
        FeatureBuildsAreApproved(before, item);
      } else {
        WalkIsDocumented(before, item);
        FirstBuildIsGated(before, r.move);
      }
      GateApprovedStays(before, r, item);
    } else {
      assert StatesOf(Init(rows), item) == [];
    }
  }

  lemma {:induction false} SamePlan(before: Ledger, r: Row)
    requires Lawful(before) && Lawful(before + [r])
    ensures Entries(before + [r]) == Entries(before)
  {
    PlanStays(before);
    PlanStays(before + [r]);
    assert (before + [r])[0] == before[0];
  }

  /** The walk reaches verify or review only through build. */
  lemma {:induction false} ReviewedAfterBuild(kind: ItemType, w: seq<State>, i: nat)
    requires Documented(kind, w) && i < |w|
    requires Build !in w
    ensures w[i] != Verify && w[i] != Review
  {
    if i > 0 {
      ReviewedAfterBuild(kind, w, i - 1);
      assert w[i - 1] in w;
      assert Edge(kind, w[i - 1], w[i]);
    }
  }

  /** No row ever launches or sends back a feature to build unless an `approve`
      answer to one of its gate asks stands earlier in the ledger. */
  lemma {:induction false} NoBuildBeforeApproval(rows: Ledger, k: nat)
    requires Lawful(rows) && 1 <= k < |rows|
    requires rows[k].StateRow? && rows[k].move.to == Build
    requires IsFeature(rows, rows[k].move.item)
    ensures GateApproved(rows[..k], rows[k].move.item)
  {
    var item := rows[k].move.item;
    var before := rows[..k];
    RowAtPlace(rows, k);
    BuildRowIsOnTheWalk(before, rows[k].move);
    FeatureBuildsAreApproved(before + [rows[k]], item);
    ApprovedByAnEarlierRow(before, rows[k], item);
  }

  lemma {:induction false} RowAtPlace(rows: Ledger, k: nat)
    requires Lawful(rows) && 1 <= k < |rows|
    ensures Lawful(rows[..k]) && Lawful(rows[..k] + [rows[k]])
    ensures Entries(rows[..k] + [rows[k]]) == Entries(rows)
  {
    var after := rows[..k + 1];
    LawfulPrefix(rows, k);
    LawfulPrefix(rows, k + 1);
    assert after == rows[..k] + [rows[k]];
    PlanStays(rows);
    PlanStays(after);
  }

  lemma {:induction false} BuildRowIsOnTheWalk(before: Ledger, m: Move)
    requires Lawful(before + [StateRow(m)]) && m.to == Build
    ensures Build in WalkOf(StatesOf(before + [StateRow(m)], m.item))
  {
    var after := before + [StateRow(m)];
    InitSnoc(before, StateRow(m));
    WalkIsDocumented(after, m.item);
    var w := WalkOf(StatesOf(after, m.item));
    assert Last(w) in w;
  }

  lemma ApprovedByAnEarlierRow(before: Ledger, r: Row, item: Item)
    requires GateApproved(before + [r], item) && r.StateRow?
    ensures GateApproved(before, item)
  {
    var after := before + [r];
    var q, a :| && AskRow(q) in after && q.kind == GateAsk && q.owner == Some(item)
                && AnswerRow(a) in after && a.ask == q.id && a.choice == Approve;
    assert AskRow(q) in before && AnswerRow(a) in before;
  }

  // ---- nothing is retried without an answer

  predicate IsResume(m: Move) {
    m.from == Stalled && m.to != Merged && m.to != Blocked
  }

  function Resumes(rows: Ledger, item: Item): nat {
    if rows == [] then 0
    else
      var r := Last(rows);
      Resumes(Init(rows), item) + if r.StateRow? && r.move.item == item && IsResume(r.move) then 1 else 0
  }

  predicate IsRetry(choice: Option<Choice>) {
    choice == Some(Retry) || choice == Some(RetryUp)
  }

  /** The retry and retry-up answers to the item's stall asks. */
  function RetryAnswers(rows: Ledger, item: Item): nat {
    if rows == [] then 0
    else
      var before, r := Init(rows), Last(rows);
      RetryAnswers(before, item)
      + if r.AnswerRow? && IsRetry(Some(r.answer.choice)) && r.answer.ask in IdsOf(AsksOf(before, item), StallAsk)
        then 1 else 0
  }

  /** Ask ids run from 1 to the ask count, and no answer names a later one. */
  lemma {:induction false} AnswersNameAsks(rows: Ledger)
    requires Lawful(rows)
    ensures forall a :: AskRow(a) in rows ==> 1 <= a.id <= AskCount(rows)
    ensures forall a :: AnswerRow(a) in rows ==> a.ask <= AskCount(rows)
  {
    if |rows| > 1 {
      AnswersNameAsks(Init(rows));
      assert rows == Init(rows) + [Last(rows)];
    }
  }

  lemma {:induction false} UnaskedIdsDoNotMatter(rows: Ledger, item: Item, ids: set<nat>, more: set<nat>)
    requires forall a :: AnswerRow(a) in rows ==> (a.ask in ids <==> a.ask in more)
    ensures AnswerSinceMove(rows, item, ids) == AnswerSinceMove(rows, item, more)
    ensures LatestAnswer(rows, ids) == LatestAnswer(rows, more)
  {
    if rows != [] {
      assert rows == Init(rows) + [Last(rows)];
      UnaskedIdsDoNotMatter(Init(rows), item, ids, more);
    }
  }

  /** An answer not yet spent by a resume. */
  function Unspent(rows: Ledger, item: Item): nat {
    if IsRetry(ResumedBy(rows, item)) then 1 else 0
  }

  lemma {:induction false} NewAskReadsNoAnswer(before: Ledger, a: Ask, item: Item)
    requires Lawful(before) && a.id == AskCount(before) + 1
    ensures ResumedBy(before + [AskRow(a)], item) == ResumedBy(before, item)
  {
    InitSnoc(before, AskRow(a));
    AnswersNameAsks(before);
    var rows := before + [AskRow(a)];
    var ids, ids' := IdsOf(AsksOf(before, item), StallAsk), IdsOf(AsksOf(rows, item), StallAsk);
    assert ids' == ids || ids' == ids + {a.id} by {
      if a.owner == Some(item) {
        assert AsksOf(rows, item) == AsksOf(before, item) + [a];
      }
    }
    UnaskedIdsDoNotMatter(before, item, ids, ids');
  }

  /** What one row does to the account: a resume spends the answer it reads, a retry
      answer is counted as it becomes unspent, and no other row unspends anything. */
  lemma {:induction false} ResumeStep(before: Ledger, r: Row, item: Item)
    requires Lawful(before) && Admissible(before, r)
    ensures var after := before + [r];
      Resumes(after, item) + Unspent(after, item) - Resumes(before, item) - Unspent(before, item)
      <= RetryAnswers(after, item) - RetryAnswers(before, item)
  {
    InitSnoc(before, r);
    match r
    case AskRow(a) => NewAskReadsNoAnswer(before, a, item);
    case StateRow(m) => ResumeSpends(before, m, item);
    case _ =>
  }

  lemma {:induction false} ResumeSpends(before: Ledger, m: Move, item: Item)
    requires Lawful(before) && MoveOk(before, m)
    ensures var after := before + [StateRow(m)];
      Resumes(after, item) + Unspent(after, item) <= Resumes(before, item) + Unspent(before, item)
  {
    InitSnoc(before, StateRow(m));
  }

  /** Each resume spends one retry answer, and an answer is spent at most once. */
  lemma {:induction false} ResumesAreAnswered(rows: Ledger, item: Item)
    requires Lawful(rows)
    ensures Resumes(rows, item) + Unspent(rows, item) <= RetryAnswers(rows, item)
  {
    if |rows| > 1 {
      var before := Init(rows);
      assert rows == before + [Last(rows)];
      ResumesAreAnswered(before, item);
      ResumeStep(before, Last(rows), item);
    } else {
      assert Init(rows) == [] && Last(rows).PlanRow?;
      assert Resumes([], item) == 0 && StatesOf([], item) == [];
      assert StatesOf(rows, item) == [];
    }
  }

  /** So in every lawful ledger an item leaves `stalled` for the step it stalled
      in at most as often as its stall asks were answered retry or retry-up. */
  lemma {:induction false} NothingRetriesUnanswered(rows: Ledger, item: Item)
    requires Lawful(rows)
    ensures Resumes(rows, item) <= RetryAnswers(rows, item)
    ensures forall m :: m in StatesOf(rows, item) && IsResume(m) ==>
      m.to.IsStep() || m.to in {AwaitingGate, Reviewed, Merging}
  {
    ResumesAreAnswered(rows, item);
    RowsShaped(rows, item);
    ResumeTargets(rows, item);
  }

  lemma {:induction false} ResumeTargets(rows: Ledger, item: Item)
    requires Lawful(rows)
    ensures forall m :: m in StatesOf(rows, item) && m.from == Stalled ==> m.to != Stalled
  {
    if |rows| > 1 {
      ResumeTargets(Init(rows), item);
      assert rows == Init(rows) + [Last(rows)];
    }
  }

  // ---- merged only after a review and a consent

  /** A reviewed-pass row whose reviewer run is none of the author runs it records,
      and no run row of the item with a step other than review carries it. */
  ghost predicate ReviewPassed(rows: Ledger, item: Item) {
    exists m :: m in StatesOf(rows, item) && m.to == Reviewed && m.fields.verdict == Some(Pass)
      && m.fields.reviewerRun.Some?
      && m.fields.reviewerRun.value !in m.fields.authorRuns
      && !Authored(rows, item, m.fields.reviewerRun.value)
  }

  /** Every reviewed row names as its author runs exactly the ids of the runs, other
      than reviews, that the ledger held when it was written. */
  lemma {:induction false} RecordedAuthorsAre(rows: Ledger, k: nat, id: RunId)
    requires Lawful(rows) && 1 <= k < |rows| && rows[k].StateRow? && rows[k].move.to == Reviewed
    ensures id in rows[k].move.fields.authorRuns <==> Authored(rows[..k], rows[k].move.item, id)
  {
    LawfulPrefix(rows, k);
    AuthorsAre(rows[..k], rows[k].move.item, id);
  }

  lemma {:induction false} PassedAreStates(states: seq<Move>)
    ensures forall m :: m in PassedRows(states) <==> m in states && m.to == Reviewed
  {
    if states != [] {
      PassedAreStates(Init(states));
    }
  }

  lemma {:induction false} ReviewedMeansPassed(rows: Ledger, item: Item)
    requires Lawful(rows) && ReviewedProblem(ViewOf(rows, item)).None?
    ensures ReviewPassed(rows, item)
  {
    var v := ViewOf(rows, item);
    PassedAreStates(v.states);
    RowsShaped(rows, item);
    var m := Last(PassedRows(v.states));
    assert m in PassedRows(v.states) && m in v.states;
    AuthorsAre(rows, item, m.fields.reviewerRun.value);
  }

  lemma {:induction false} MergeAllowedMeans(rows: Ledger, item: Item, blobs: Blobs, policy: StandingPolicy)
    requires Lawful(rows) && MergeAllowed(rows, item, blobs, policy)
    ensures ReviewPassed(rows, item) && Consented(rows, item)
  {
    assert ReviewedProblem(ViewOf(rows, item)).None? && Cover(rows, item, blobs, policy) == Covered;
    ReviewedMeansPassed(rows, item);
    CoveredIsConsented(rows, item, blobs, policy);
  }

  /** A passed review is not undone by a later row: no run of an author step is a
      review. */
  lemma {:induction false} ReviewPassedStays(rows: Ledger, r: Row, item: Item)
    requires Lawful(rows) && Lawful(rows + [r]) && ReviewPassed(rows, item)
    ensures ReviewPassed(rows + [r], item)
  {
    InitSnoc(rows, r);
    RowsShaped(rows, item);
    RowsShaped(rows + [r], item);
    RunsAreRows(rows + [r], item);
    var m :| m in StatesOf(rows, item) && m.to == Reviewed && m.fields.verdict == Some(Pass)
             && m.fields.reviewerRun.Some? && m.fields.reviewerRun.value !in m.fields.authorRuns;
    assert m in StatesOf(rows + [r], item);
  }

  /** Nor is a consent: an answered ask is never answered again. */
  lemma ConsentedStays(rows: Ledger, r: Row, item: Item)
    requires Admissible(rows, r) && Consented(rows, item)
    ensures Consented(rows + [r], item)
  {
    var after := rows + [r];
    InitSnoc(rows, r);
    assert forall id :: id in Answers(rows) ==> id in Answers(after) && Answers(after)[id] == Answers(rows)[id];
    assert forall other :: other in rows ==> other in after;
  }

  lemma {:induction false} EvidenceStays(rows: Ledger, r: Row, item: Item)
    requires Lawful(rows) && Admissible(rows, r) && ReviewPassed(rows, item) && Consented(rows, item)
    ensures Lawful(rows + [r]) && ReviewPassed(rows + [r], item) && Consented(rows + [r], item)
  {
    InitSnoc(rows, r);
    ReviewPassedStays(rows, r, item);
    ConsentedStays(rows, r, item);
  }

  /** What every admissible row keeps, any number of them keeps. */
  lemma {:induction false} RowsKeep(holds: Ledger -> bool, rows: Ledger, more: seq<Row>)
    requires forall l, r :: Admissible(l, r) && holds(l) ==> holds(l + [r])
    requires Extends(rows, more) && holds(rows)
    ensures holds(rows + more)
    decreases |more|
  {
    if more == [] {
      assert rows + more == rows;
    } else {
      RowsKeep(holds, rows + [more[0]], more[1..]);
      assert rows + more == (rows + [more[0]]) + more[1..];
    }
  }

  /** So what a merge turn read stays true however many rows others write after it. */
  lemma {:induction false} MergeEvidenceStays(rows: Ledger, more: seq<Row>, item: Item)
    requires Lawful(rows) && Extends(rows, more) && ReviewPassed(rows, item) && Consented(rows, item)
    ensures ReviewPassed(rows + more, item) && Consented(rows + more, item)
  {
    var holds := (l: Ledger) => Lawful(l) && ReviewPassed(l, item) && Consented(l, item);
    forall l, r | Admissible(l, r) && holds(l)
      ensures holds(l + [r])
    {
      EvidenceStays(l, r, item);
    }
    RowsKeep(holds, rows, more);
  }

  lemma {:induction false} EvidenceStaysUntil(rows: Ledger, j: nat, k: nat, item: Item)
    requires Lawful(rows) && 1 <= j <= k <= |rows|
    requires ReviewPassed(rows[..j], item) && Consented(rows[..j], item)
    ensures ReviewPassed(rows[..k], item) && Consented(rows[..k], item)
  {
    assert rows[..k] == rows[..j] + rows[j..k];
    LawfulPrefix(rows, j);
    LawfulPrefix(rows, k);
    LawfulIffExtends(rows[..j], rows[j..k]);
    MergeEvidenceStays(rows[..j], rows[j..k], item);
  }

  /** Every merge turn begins only on a ledger that shows the passed review and
      the consent. */
  lemma {:induction false} MergeTurnsAreConsented(rows: Ledger, k: nat)
    requires Lawful(rows) && 1 <= k < |rows|
    requires rows[k].StateRow? && rows[k].move.to == Merging
    ensures ReviewPassed(rows[..k], rows[k].move.item) && Consented(rows[..k], rows[k].move.item)
  {
    LawfulPrefix(rows, k);
    var m := rows[k].move;
    assert FieldsOk(rows[..k], ViewOf(rows[..k], m.item), m.to, m.fields);
    var blobs, policy :| MergeAllowed(rows[..k], m.item, blobs, policy);
    MergeAllowedMeans(rows[..k], m.item, blobs, policy);
  }

  lemma {:induction false} LastMoveIndex(rows: Ledger, item: Item) returns (k: nat)
    requires StatesOf(rows, item) != []
    ensures k < |rows| && rows[k] == StateRow(Last(StatesOf(rows, item))) && Last(StatesOf(rows, item)).item == item
  {
    var r := Last(rows);
    if r.StateRow? && r.move.item == item {
      k := |rows| - 1;
    } else {
      k := LastMoveIndex(Init(rows), item);
    }
  }

  /** An item goes from merging to merged only after a merge turn that began with
      a passed review by none of its authors, and some consent; and both still stand
      where it is merged. */
  lemma MergedIsReviewedAndConsented(rows: Ledger, k: nat) returns (turn: nat)
    requires Lawful(rows) && 1 <= k < |rows|
    requires rows[k].StateRow? && rows[k].move.from == Merging && rows[k].move.to == Merged
    ensures 1 <= turn < k && rows[turn].StateRow? && rows[turn].move.item == rows[k].move.item
    ensures rows[turn].move.to == Merging
    ensures ReviewPassed(rows[..turn], rows[k].move.item) && Consented(rows[..turn], rows[k].move.item)
    ensures ReviewPassed(rows[..k], rows[k].move.item) && Consented(rows[..k], rows[k].move.item)
  {
    var item := rows[k].move.item;
    LawfulPrefix(rows, k);
    assert ViewOf(rows[..k], item).State() == Merging;
    turn := LastMoveIndex(rows[..k], item);
    PlanStays(rows);
    MergeTurnsAreConsented(rows, turn);
    EvidenceStaysUntil(rows, turn, k, item);
  }

  lemma MergedMoveFrom(rows: Ledger, m: Move)
    requires MoveOk(rows, m) && m.to == Merged
    requires !(m.from == Stalled && ViewOf(rows, m.item).resumed != Some(AsMerged))
    ensures m.from in {Merging, Blocked, Stalled}
  {
  }

  lemma StalledMergeIsAnswered(rows: Ledger, m: Move)
    requires MoveOk(rows, m) && m.to == Merged && m.from == Stalled
    ensures ViewOf(rows, m.item).resumed == Some(AsMerged)
  {
  }

  /** And `merged` is reached only so, or by an answer the Owner gave: stalled
      and answered `merged`, or blocked and reconciled. */
  lemma {:induction false} MergedFrom(rows: Ledger, k: nat)
    requires Lawful(rows) && 1 <= k < |rows|
    requires rows[k].StateRow? && rows[k].move.to == Merged
    ensures rows[k].move.from in {Merging, Blocked, Stalled}
    ensures rows[k].move.from == Stalled ==> ViewOf(rows[..k], rows[k].move.item).resumed == Some(AsMerged)
  {
    LawfulPrefix(rows, k);
    var m := rows[k].move;
    if m.from == Stalled {
      StalledMergeIsAnswered(rows[..k], m);
    }
    MergedMoveFrom(rows[..k], m);
  }
}
