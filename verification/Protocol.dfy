/** The ledger protocol: which single row may follow a ledger. `Lawful` ledgers
    are the ones built by admissible rows from an opening plan row; the
    `BatchLedger` class shows which commands write admissible rows only. */
module Protocol {
  import opened Rows
  import opened View
  import opened Flow
  import opened Consent
  import opened Survey

  /** The launches of a step: its state rows that carry a runner's pid. */
  function LaunchCount(states: seq<Move>, step: State): nat {
    if states == [] then 0
    else LaunchCount(Init(states), step) + if Last(states).to == step && Last(states).fields.pid.Some? then 1 else 0
  }

  /** The run id of the item's next launch of a step. */
  function NextRun(v: ItemView, step: State): RunId {
    RunId(v.item, step, 1 + LaunchCount(v.states, step))
  }

  predicate LaunchFields(v: ItemView, to: State, fields: Fields) {
    fields.runId == Some(NextRun(v, to)) && fields.pid.Some?
  }

  /** A bookkeeping resume carries the completed run's own id, and no pid. */
  predicate ResumeFields(v: ItemView, fields: Fields) {
    && DeliveredRun(v).Some?
    && fields == NO_FIELDS.(runId := Some(DeliveredRun(v).value.runId))
  }

  ghost predicate FieldsOk(rows: Ledger, v: ItemView, to: State, fields: Fields) {
    && (to.IsStep() ==>
          || LaunchFields(v, to, fields)
          || ResumeFields(v, fields)
          || (to == Build && fields == NO_FIELDS))
    && (!to.IsStep() ==> fields.runId.None?)
    && (to == Reviewed ==>
          && fields.verdict == Some(Pass)
          && fields.authorRuns == v.AuthorRuns()
          && fields.reviewerRun.Some? && fields.reviewerRun.value.step == Review
          && fields.head.Some? && IsText(fields.head.value))
    && (to == Merging ==> exists blobs, policy :: MergeAllowed(rows, v.item, blobs, policy))
  }

  /** The last row answers one of the item's asks with `block`. */
  predicate JustBlocked(rows: Ledger, item: Item) {
    rows != [] && Last(rows).AnswerRow? && Last(rows).answer.owner == Some(item) && Last(rows).answer.choice == Block
  }

  ghost predicate MoveOk(rows: Ledger, m: Move) {
    var v := ViewOf(rows, m.item);
    && (v.entry.Some? || (v.State() == Planned && m.to == Blocked))
    && m.from == v.State()
    && m.to != Planned
    && FieldsOk(rows, v, m.to, m.fields)
    && (|| Legal(v, m.to, m.fields)
        || (m.to == Merged && AnsweredMerged(v))
        || (m.to == Blocked && !v.State().IsTerminal() && JustBlocked(rows, m.item)))
  }

  /** A run row closes a launch that has none yet. */
  ghost predicate RunOk(rows: Ledger, r: Run) {
    && (exists m :: m in StatesOf(rows, r.item) && m.to == r.step && m.fields.runId == Some(r.runId))
    && (forall other :: other in RunsOf(rows, r.item) ==> other.runId != r.runId)
  }

  ghost predicate AnswerOk(rows: Ledger, a: Answer) {
    && a.ask !in Answers(rows)
    && exists q :: AskRow(q) in rows && q.id == a.ask && q.owner == a.owner && a.choice in q.options
  }

  ghost predicate Admissible(rows: Ledger, r: Row) {
    match r
    case PlanRow(_) => false
    case StateRow(m) => MoveOk(rows, m)
    case RunRow(run) => RunOk(rows, run)
    case AskRow(a) => a.id == AskCount(rows) + 1
    case AnswerRow(a) => AnswerOk(rows, a)
    case _ => true
  }

  ghost predicate Lawful(rows: Ledger) {
    && rows != []
    && if |rows| == 1 then rows[0].PlanRow? && PlanOk(rows[0].entries)
       else Lawful(Init(rows)) && Admissible(Init(rows), Last(rows))
  }

  /** `more` extends `rows` by admissible rows, one after another. */
  ghost predicate Extends(rows: Ledger, more: seq<Row>)
    decreases |more|
  {
    more == [] || (Admissible(rows, more[0]) && Extends(rows + [more[0]], more[1..]))
  }

  lemma {:induction false} LawfulExtends(rows: Ledger, more: seq<Row>)
    requires Lawful(rows) && Extends(rows, more)
    ensures Lawful(rows + more)
    decreases |more|
  {
    if more == [] {
      assert rows + more == rows;
    } else {
      InitSnoc(rows, more[0]);
      LawfulExtends(rows + [more[0]], more[1..]);
      assert rows + more == (rows + [more[0]]) + more[1..];
    }
  }

  lemma {:induction false} ExtendsAppend(rows: Ledger, a: seq<Row>, b: seq<Row>)
    requires Extends(rows, a) && Extends(rows + a, b)
    ensures Extends(rows, a + b)
    decreases |a|
  {
    if a == [] {
      assert rows + a == rows && a + b == b;
    } else {
      assert rows + a == (rows + [a[0]]) + a[1..];
      ExtendsAppend(rows + [a[0]], a[1..], b);
      assert (a + b)[1..] == a[1..] + b;
    }
  }

  lemma {:induction false} LawfulPrefix(rows: Ledger, k: nat)
    requires Lawful(rows) && 1 <= k <= |rows|
    ensures Lawful(rows[..k])
    ensures k < |rows| ==> Admissible(rows[..k], rows[k])
    decreases |rows|
  {
    if k == |rows| {
      assert rows[..k] == rows;
    } else if k == |rows| - 1 {
      assert rows[..k] == Init(rows);
    } else {
      LawfulPrefix(Init(rows), k);
      assert Init(rows)[..k] == rows[..k];
    }
  }

  /** Rows written onto a lawful ledger leave it lawful exactly when they extend it. */
  lemma {:induction false} LawfulIffExtends(rows: Ledger, more: seq<Row>)
    requires Lawful(rows)
    ensures Lawful(rows + more) <==> Extends(rows, more)
    decreases |more|
  {
    if Lawful(rows + more) && more != [] {
      LawfulPrefix(rows + more, |rows|);
      LawfulPrefix(rows + more, |rows| + 1);
      assert (rows + more)[..|rows|] == rows && (rows + more)[..|rows| + 1] == rows + [more[0]];
      assert rows + more == (rows + [more[0]]) + more[1..];
      LawfulIffExtends(rows + [more[0]], more[1..]);
    } else if Extends(rows, more) {
      LawfulExtends(rows, more);
    }
  }

  // ---- what every lawful ledger keeps

  lemma {:induction false} PlanStays(rows: Ledger)
    requires Lawful(rows)
    ensures rows[0].PlanRow? && PlanOf(rows) == Some(rows[0].entries) && PlanOk(Entries(rows))
  {
    if |rows| > 1 {
      PlanStays(Init(rows));
    } else {
      assert Init(rows) == [];
    }
  }

  lemma {:induction false} FoundEntry(entries: seq<Entry>, item: Item)
    requires FindEntry(entries, item).Some?
    ensures FindEntry(entries, item).value in entries && FindEntry(entries, item).value.item == item
  {
    if Last(entries).item != item {
      FoundEntry(Init(entries), item);
    }
  }

  /** A ledger just opened has moved no item. */
  lemma {:induction false} OpeningIsIdle(rows: Ledger, item: Item)
    requires |rows| == 1 && rows[0].PlanRow?
    ensures StatesOf(rows, item) == []
  {
    assert Init(rows) == [];
  }

  /** The step names of an item's own entry are its type's. */
  lemma {:induction false} EntrySteps(rows: Ledger, item: Item)
    requires Lawful(rows) && ViewOf(rows, item).entry.Some?
    ensures var e := ViewOf(rows, item).entry.value;
      e.item == item && e in Entries(rows) && StepNames(e.steps) == ItemSteps(e.kind)
  {
    PlanStays(rows);
    FoundEntry(Entries(rows), item);
  }

  /** An item off the plan can only be blocked, through an ask that names it. */
  lemma {:induction false} UnknownOnlyBlocks(rows: Ledger, item: Item)
    requires Lawful(rows) && ViewOf(rows, item).entry.None?
    ensures ViewOf(rows, item).State() in {Planned, Blocked}
  {
    if |rows| > 1 {
      PlanStays(rows);
      PlanStays(Init(rows));
      UnknownOnlyBlocks(Init(rows), item);
    }
  }

  predicate Shaped(m: Move) {
    && (m.to.IsStep() && m.to != Build ==> m.fields.runId.Some?)
    && (!m.to.IsStep() ==> m.fields.runId.None?)
    && (m.fields.runId.Some? ==> m.fields.runId.value.item == m.item && m.fields.runId.value.step == m.to)
    && (m.to == Reviewed ==>
          && m.fields.verdict == Some(Pass)
          && m.fields.reviewerRun.Some? && m.fields.reviewerRun.value.step == Review
          && m.fields.head.Some? && IsText(m.fields.head.value)
          && forall id :: id in m.fields.authorRuns ==> id.step != Review)
    && m.to != Planned
  }

  lemma {:induction false} AttemptIds(states: seq<Move>, runs: seq<Run>, step: State)
    requires forall m :: m in states ==> Shaped(m)
    ensures forall a :: a in Attempts(states, runs, step) && a.run.Some? ==>
      a.run.value in runs && exists m :: m in states && m.to == step && m.fields.runId == Some(a.run.value.runId)
  {
    if states != [] {
      AttemptIds(Init(states), runs, step);
      var m := Last(states);
      var earlier := Attempts(Init(states), runs, step);
      forall id | LastRun(runs, id).Some?
        ensures LastRun(runs, id).value in runs && LastRun(runs, id).value.runId == id
      {
        LastRunFound(runs, id);
      }
      forall a | a in Attempts(states, runs, step) && a.run.Some?
        ensures a.run.value in runs
        ensures exists m :: m in states && m.to == step && m.fields.runId == Some(a.run.value.runId)
      {
        if exists e :: e in earlier && e.run == a.run {
          var e :| e in earlier && e.run == a.run;
          var m' :| m' in Init(states) && m'.to == step && m'.fields.runId == Some(e.run.value.runId);
          assert m' in states;
        } else {
          assert m in states;
        }
      }
    }
  }

  lemma {:induction false} LastRunFound(runs: seq<Run>, id: RunId)
    requires LastRun(runs, id).Some?
    ensures LastRun(runs, id).value in runs && LastRun(runs, id).value.runId == id
  {
    if Last(runs).runId != id {
      LastRunFound(Init(runs), id);
    }
  }

  lemma {:induction false} StallsAreAttempts(attempts: seq<Attempt>)
    ensures forall a :: a in PriorStalls(attempts) ==> a in attempts && a.stalled
    ensures PriorStalls(attempts) != [] ==> attempts != [] && Last(PriorStalls(attempts)) == Last(attempts)
  {
    if attempts != [] && Last(attempts).stalled {
      StallsAreAttempts(Init(attempts));
    }
  }

  /** A delivered run is one of the item's runs, of a launch of the stalled step. */
  lemma DeliveredIsLaunched(v: ItemView)
    requires forall m :: m in v.states ==> Shaped(m)
    requires DeliveredRun(v).Some?
    ensures var run := DeliveredRun(v).value;
      && run in v.runs && run.outcome == Completed
      && exists m :: m in v.states && m.to == Last(v.states).from && m.fields.runId == Some(run.runId)
  {
    var attempts := Attempts(v.states, v.runs, Last(v.states).from);
    AttemptIds(v.states, v.runs, Last(v.states).from);
    StallsAreAttempts(attempts);
  }

  lemma {:induction false} AuthorsAreNotReviews(runs: seq<Run>)
    requires forall r :: r in runs ==> r.runId.step == r.step
    ensures forall id :: id in AuthorIds(runs) ==> id.step != Review
  {
    if runs != [] {
      AuthorsAreNotReviews(Init(runs));
    }
  }

  /** A move onto shaped rows is shaped: a resume's run id is one a launch carries. */
  lemma {:induction false} MoveIsShaped(before: Ledger, m: Move)
    requires MoveOk(before, m)
    requires forall other :: other in StatesOf(before, m.item) ==> Shaped(other) && other.item == m.item
    requires forall r :: r in RunsOf(before, m.item) ==> r.runId.step == r.step
    ensures Shaped(m)
  {
    var v := ViewOf(before, m.item);
    AuthorsAreNotReviews(v.runs);
    if m.to.IsStep() && !LaunchFields(v, m.to, m.fields) && m.fields != NO_FIELDS {
      DeliveredIsLaunched(v);
      assert Legal(v, m.to, m.fields);
    }
  }

  /** Every state row and run row of a lawful ledger has its documented shape. */
  lemma {:induction false} RowsShaped(rows: Ledger, item: Item)
    requires Lawful(rows)
    ensures forall m :: m in StatesOf(rows, item) ==> Shaped(m) && m.item == item
    ensures forall r :: r in RunsOf(rows, item) ==> r.runId.step == r.step && r.item == item
  {
    if |rows| > 1 {
      var before := Init(rows);
      RowsShaped(before, item);
      match Last(rows)
      case StateRow(m) =>
        if m.item == item { MoveIsShaped(before, m); }
      case _ =>
    }
  }
}
