/** The rows each command appends under the ledger lock, and the proof that they
    are admissible: `run` (conductor_run.py), `merge` (conductor_merge.py),
    `next` (conductor_next.py), `answer` and `ask` (conductor.py), `close`
    (conductor_close.py). */
module Commands {
  import opened Rows
  import opened View
  import opened Flow
  import opened Consent
  import opened Survey
  import opened Protocol
  import opened Walk
  import opened Offers

  lemma {:induction false} ExtendsOne(rows: Ledger, r: Row)
    requires Admissible(rows, r)
    ensures Extends(rows, [r])
  {
    assert [r][1..] == [];
  }

  lemma {:induction false} ExtendsTwo(rows: Ledger, a: Row, b: Row)
    requires Admissible(rows, a) && Admissible(rows + [a], b)
    ensures Extends(rows, [a, b])
  {
    ExtendsOne(rows + [a], b);
    assert [a, b][1..] == [b];
  }

  // ---- moves

  /** A stall of an item that stands open is admissible. */
  lemma {:induction false} StallExtends(rows: Ledger, at: int, item: Item, cause: Cause, recommended: Choice,
                                        given: Option<seq<Choice>>, pr: Option<nat>)
    requires var v := ViewOf(rows, item);
      v.entry.Some? && !v.State().IsTerminal() && v.State() != Stalled
    ensures Extends(rows, StallRows(rows, at, item, cause, recommended, given, pr))
  {
    var more := StallRows(rows, at, item, cause, recommended, given, pr);
    assert more == [more[0], more[1]];
    InitSnoc(rows, more[0]);
    ExtendsTwo(rows, more[0], more[1]);
  }

  lemma {:induction false} StallRowsIffOpen(rows: Ledger, at: int, item: Item, cause: Cause, recommended: Choice)
    requires Lawful(rows) && ViewOf(rows, item).entry.Some?
    ensures var v := ViewOf(rows, item);
      Extends(rows, StallRows(rows, at, item, cause, recommended, None, None))
      <==> !v.State().IsTerminal() && v.State() != Stalled
  {
    var v := ViewOf(rows, item);
    if !v.State().IsTerminal() && v.State() != Stalled {
      StallExtends(rows, at, item, cause, recommended, None, None);
    } else {
      var more := StallRows(rows, at, item, cause, recommended, None, None);
      assert !Legal(v, Stalled, more[0].move.fields);
      assert !Admissible(rows, more[0]);
    }
  }

  /** flow.queue_stall asks no legality: its rows are lawful exactly when the
      item stands open. */
  lemma {:induction false} StallIsLawfulIffOpen(rows: Ledger, at: int, item: Item, cause: Cause, recommended: Choice)
    requires Lawful(rows)
    requires QueueStallRows(rows, at, item, cause, recommended).Written?
    ensures var v := ViewOf(rows, item);
      Extends(rows, QueueStallRows(rows, at, item, cause, recommended).rows)
      <==> !v.State().IsTerminal() && v.State() != Stalled
  {
    StallRowsIffOpen(rows, at, item, cause, recommended);
  }

  const ORDER_STEPS := [
    PlannedStep(Build, Implementation, 300), PlannedStep(Verify, Mechanical, 100),
    PlannedStep(Review, ArchitectureReview, 100), PlannedStep(Ship, Mechanical, 100)]
  const ENTRY := Entry(1, Order, S, ORDER_STEPS)

  lemma OrderOpens(plan: Row)
    requires plan == PlanRow([ENTRY])
    ensures Lawful([plan]) && FindEntry([ENTRY], 1).Some?
    ensures AskCount([plan]) == 0 && Answers([plan]) == map[] && StatesOf([plan], 1) == []
  {
    assert StepNames(ORDER_STEPS) == ItemSteps(Order);
    assert Init([plan]) == [];
  }

  /** The stall ask is always well formed: retry and block are offered at any band. */
  lemma StallAsksAreOk(v: ItemView, cause: Cause)
    ensures var options := OfferedOptions(v, cause, None);
      Distinct(options) && Retry in options && Block in options
  {
    var all, top := [Retry, RetryUp, Block], [Retry, Block];
    assert Init(all) == [Retry, RetryUp] && Init([Retry, RetryUp]) == [Retry] && Init([Retry]) == [];
    assert Init(top) == [Retry];
    assert Without([Retry], RetryUp) == [Retry];
    assert Without([Retry, RetryUp], RetryUp) == [Retry];
    assert Without(all, RetryUp) == [Retry, Block];
    assert Without(top, RetryUp) == [Retry, Block];
    assert Distinct(all) && Distinct(top);
  }

  /** An unguarded stall never fails: whatever state a plan item is in, it ends stalled. */
  lemma QueueStallAlwaysStalls(rows: Ledger, at: int, item: Item, cause: Cause, recommended: Choice)
    requires ViewOf(rows, item).entry.Some? && recommended in {Retry, Block}
    ensures var out := QueueStallRows(rows, at, item, cause, recommended);
      out.Written? && |out.rows| == 2 && ViewOf(rows + [out.rows[0]], item).State() == Stalled
  {
    StallAsksAreOk(ViewOf(rows, item), cause);
    InitSnoc(rows, StallRows(rows, at, item, cause, recommended, None, None)[0]);
  }

  // ---- launching a step

  /** The ceilings of the launched runs with no finishing row. */
  function InFlightCents(rows: Ledger, entries: seq<Entry>): nat {
    if entries == [] then 0
    else InFlightCents(rows, Init(entries)) + FlightCents(ViewOf(rows, Last(entries).item))
  }

  function CeilingOf(v: ItemView, step: State): nat {
    match v.PolicyOf(step)
    case Some(policy) => policy.ceiling
    case None => 0
  }

  function FlightCents(v: ItemView): nat {
    if v.InFlight() then CeilingOf(v, v.State()) else 0
  }

  /** The oldest unanswered batch-level ask dispatch waits behind. */
  function PendingBatchAsk(rows: Ledger, given: map<nat, Choice>): Option<Ask> {
    if rows == [] then None
    else
      var earlier := PendingBatchAsk(Init(rows), given);
      if earlier.Some? then earlier
      else if BatchAsk(Last(rows)) && Last(rows).ask.id !in given then Some(Last(rows).ask)
      else None
  }

  /** A pending batch-level ask is reused, never repeated. */
  function PauseRows(rows: Ledger, kind: AskKind, recommended: Choice): seq<Row> {
    if PendingBatchAsk(rows, Answers(rows)).Some? then []
    else [AskRow(NewAsk(rows, None, kind, PAUSE_OPTIONS, recommended, [], map[]))]
  }

  datatype Launched = Launched(row: Row) | Paused(rows: seq<Row>) | NotLaunched(problem: Problem)

  /** conductor_run._launch: the launch row, written only while the month's
      spend, every in-flight ceiling and this run's ceiling fit the cap. */
  function LaunchRows(rows: Ledger, at: int, item: Item, step: State, pid: nat, spent: nat, cap: nat): Launched {
    var v := ViewOf(rows, item);
    var fields := NO_FIELDS.(runId := Some(NextRun(v, step)), pid := Some(pid));
    match TransitionProblem(v, step, fields)
    case Some(problem) => NotLaunched(problem)
    case None =>
      if spent + InFlightCents(rows, Entries(rows)) + CeilingOf(v, step) <= cap
      then Launched(StateRow(Move(at, item, v.State(), step, fields)))
      else Paused(PauseRows(rows, SpendAsk, Stop))
  }

  lemma {:induction false} LaunchExtends(rows: Ledger, at: int, item: Item, step: State, pid: nat, spent: nat, cap: nat)
    requires Lawful(rows) && step.IsStep()
    ensures var out := LaunchRows(rows, at, item, step, pid, spent, cap);
      (out.Launched? ==> Admissible(rows, out.row)) && (out.Paused? ==> Extends(rows, out.rows))
  {
    match LaunchRows(rows, at, item, step, pid, spent, cap)
    case Launched(row) =>
    case Paused(more) =>
      if more != [] { ExtendsOne(rows, more[0]); }
    case NotLaunched(_) =>
  }

  /** The run ids of one step's launches differ: the next one is numbered past all. */
  lemma {:induction false} NextRunIsFresh(rows: Ledger, item: Item, step: State)
    requires Lawful(rows)
    ensures forall m :: m in StatesOf(rows, item) && m.to == step && m.fields.pid.Some? && step.IsStep() ==>
      m.fields.runId.Some? && m.fields.runId.value.number <= LaunchCount(StatesOf(rows, item), step)
  {
    if |rows| > 1 {
      NextRunIsFresh(Init(rows), item, step);
    }
  }

  // ---- verdicts

  /** The verdict is a second request for changes: it stalls, and asks no legality. */
  predicate SecondChanges(v: ItemView, verdict: Verdict) {
    verdict == Changes && v.entry.Some? && Build !in Successors(v.entry.value.kind, Review, v.states)
  }

  /** A verdict's rows are lawful unless it is a second `changes` on an item that was
      blocked, merged or stalled meanwhile. */
  lemma {:induction false} VerdictExtends(rows: Ledger, at: int, item: Item, verdict: Verdict, reviewer: RunId,
                                          head: string)
    requires Lawful(rows)
    requires reviewer.step == Review && IsText(head)
    requires VerdictRows(rows, at, item, verdict, reviewer, head).Written?
    ensures var v := ViewOf(rows, item);
      Extends(rows, VerdictRows(rows, at, item, verdict, reviewer, head).rows)
      <==> !SecondChanges(v, verdict) || (!v.State().IsTerminal() && v.State() != Stalled)
  {
    var v := ViewOf(rows, item);
    var more := VerdictRows(rows, at, item, verdict, reviewer, head).rows;
    if SecondChanges(v, verdict) {
      assert more == StallRows(rows, at, item, ChangesAgain, Block, None, None);
      StallRowsIffOpen(rows, at, item, ChangesAgain, Block);
    } else {
      assert more == [more[0]];
      ExtendsOne(rows, more[0]);
    }
  }

  // ---- merge turns

  /** conductor_merge.merge_turn's first row: refused unless the precondition holds. */
  function BeginMergeRows(rows: Ledger, at: int, item: Item, pid: nat, blobs: Blobs,
                          policy: StandingPolicy): Flow.Outcome<Refusal> {
    match MergeProblem(rows, item, blobs, policy)
    case Some(refusal) => Refused(refusal)
    case None => MoveRows(rows, at, item, Merging, NO_FIELDS.(pid := Some(pid)))
  }

  /** The precondition asks the same of the move as the ledger will. */
  lemma {:induction false} BeginMergeExtends(rows: Ledger, at: int, item: Item, pid: nat, blobs: Blobs,
                                             policy: StandingPolicy)
    requires Lawful(rows)
    requires BeginMergeRows(rows, at, item, pid, blobs, policy).Written?
    ensures Extends(rows, BeginMergeRows(rows, at, item, pid, blobs, policy).rows)
  {
    assert MergeAllowed(rows, item, blobs, policy);
    var more := BeginMergeRows(rows, at, item, pid, blobs, policy).rows;
    assert more == [more[0]];
    ExtendsOne(rows, more[0]);
  }

  lemma {:induction false} MergedExtends(rows: Ledger, at: int, item: Item, pr: nat)
    requires MoveRows(rows, at, item, Merged, NO_FIELDS.(pr := Some(pr))).Written?
    ensures Extends(rows, MoveRows(rows, at, item, Merged, NO_FIELDS.(pr := Some(pr))).rows)
  {
    var more := MoveRows(rows, at, item, Merged, NO_FIELDS.(pr := Some(pr))).rows;
    assert more == [more[0]];
    ExtendsOne(rows, more[0]);
  }

  // ---- answers

  function FindAsk(rows: Ledger, id: nat): Option<Ask> {
    if rows == [] then None
    else
      var earlier := FindAsk(Init(rows), id);
      if earlier.Some? then earlier
      else if Last(rows).AskRow? && Last(rows).ask.id == id then Some(Last(rows).ask)
      else None
  }

  lemma {:induction false} FoundAsk(rows: Ledger, id: nat)
    requires FindAsk(rows, id).Some?
    ensures AskRow(FindAsk(rows, id).value) in rows && FindAsk(rows, id).value.id == id
  {
    assert rows == Init(rows) + [Last(rows)];
    if FindAsk(Init(rows), id).Some? {
      FoundAsk(Init(rows), id);
    }
  }

  /** conductor.answer: the answer row, and the blocked state row a `block`
      answer to an open item's ask brings. */
  function AnswerRows(rows: Ledger, at: int, id: nat, choice: Choice): Flow.Outcome<Refusal> {
    match FindAsk(rows, id)
    case None => Refused(NoSuchAsk)
    case Some(ask) =>
      if id in Answers(rows) then Refused(AlreadyAnswered)
      else if choice !in ask.options then Refused(NotAnOption)
      else
        var answered := AnswerRow(Answer(ask.owner, id, choice));
        if choice != Block || ask.owner.None? then Written([answered])
        else
          var v := ViewOf(rows, ask.owner.value);
          if v.State().IsTerminal() then Written([answered])
          else
            var cause := if v.State() != Stalled then Some(OwnerBlock) else Last(v.states).fields.cause;
            Written([answered, StateRow(Move(at, ask.owner.value, v.State(), Blocked, NO_FIELDS.(cause := cause)))])
  }

  lemma {:induction false} AnswerExtends(rows: Ledger, at: int, id: nat, choice: Choice)
    requires Lawful(rows)
    requires AnswerRows(rows, at, id, choice).Written?
    ensures Extends(rows, AnswerRows(rows, at, id, choice).rows)
  {
    FoundAsk(rows, id);
    var more := AnswerRows(rows, at, id, choice).rows;
    var ask := FindAsk(rows, id).value;
    assert Admissible(rows, more[0]);
    InitSnoc(rows, more[0]);
    if |more| == 2 {
      if ViewOf(rows, ask.owner.value).entry.None? { UnknownOnlyBlocks(rows, ask.owner.value); }
      assert StatesOf(rows + [more[0]], ask.owner.value) == StatesOf(rows, ask.owner.value);
      assert Admissible(rows + [more[0]], more[1]);
      ExtendsTwo(rows, more[0], more[1]);
      assert more == [more[0], more[1]];
    } else {
      ExtendsOne(rows, more[0]);
      assert more == [more[0]];
    }
  }

  // ---- next: bookkeeping

  /** A stalled item whose retry answer is in and whose run completed. */
  predicate BookkeepingIsDue(v: ItemView) {
    v.State() == Stalled && v.RetryAnswered() && DeliveredRun(v).Some?
  }

  /** conductor_next.bookkeeping_due: the due items in plan order. */
  function BookkeepingDue(rows: Ledger, entries: seq<Entry>): seq<Item> {
    if entries == [] then []
    else
      var earlier := BookkeepingDue(rows, Init(entries));
      if BookkeepingIsDue(ViewOf(rows, Last(entries).item)) then earlier + [Last(entries).item] else earlier
  }

  datatype IssueState = Open | Closed | Unread

  function IssueOf(issues: map<Item, IssueState>, item: Item): IssueState {
    if item in issues then issues[item] else Unread
  }

  datatype Clarified = Clarified(launch: seq<Offer>, asks: seq<Row>)

  /** conductor_next.clarify_closed: an offer whose issue does not read open is
      held behind a clarify ask; a merge turn is not read. */
  function ClarifyClosed(rows: Ledger, offers: seq<Offer>, issues: map<Item, IssueState>): Clarified {
    if offers == [] then Clarified([], [])
    else
      var c := ClarifyClosed(rows, Init(offers), issues);
      var offer := Last(offers);
      var issue := IssueOf(issues, offer.item);
      if offer.ready == MergeTurn || issue == Open then c.(launch := c.launch + [offer])
      else
        c.(asks := c.asks + [AskRow(NewAsk(rows + c.asks, Some(offer.item), ClarifyAsk, [Block, Proceed],
                                           if issue == Closed then Block else Proceed, [], map[]))])
  }

  lemma {:induction false} ClarifyExtends(rows: Ledger, offers: seq<Offer>, issues: map<Item, IssueState>)
    ensures var c := ClarifyClosed(rows, offers, issues);
      && Extends(rows, c.asks) && Quiet(c.asks) && NoMergeAsks(c.asks)
      && (forall r :: r in c.asks ==> r.AskRow? && exists o :: o in offers && r.Grouped() == Some(o.item))
      && (forall o :: o in c.launch ==> o in offers && (o.ready == MergeTurn || IssueOf(issues, o.item) == Open))
  {
    if offers != [] {
      var c := ClarifyClosed(rows, Init(offers), issues);
      ClarifyExtends(rows, Init(offers), issues);
      var c' := ClarifyClosed(rows, offers, issues);
      if c'.asks != c.asks {
        ExtendsOne(rows + c.asks, Last(c'.asks));
        ExtendsAppend(rows, c.asks, [Last(c'.asks)]);
        assert c'.asks == c.asks + [Last(c'.asks)];
      }
      forall r | r in c'.asks
        ensures r.AskRow? && exists o :: o in offers && r.Grouped() == Some(o.item)
      {
        if r in c.asks {
          var o :| o in Init(offers) && r.Grouped() == Some(o.item);
          assert o in offers;
        } else {
          assert Last(offers) in offers;
        }
      }
    }
  }

  /** The resume row of a bookkeeping turn: the completed run's id, no pid. */
  function ResumeRow(at: int, item: Item, step: State, run: Run): Row {
    StateRow(Move(at, item, Stalled, step, NO_FIELDS.(runId := Some(run.runId))))
  }

  /** conductor_next.retry_bookkeeping for one item: resumed, and stalled again
      when the delivery failed again. */
  function BookkeepingRows(rows: Ledger, at: int, item: Item, delivered: bool): seq<Row>
    requires BookkeepingIsDue(ViewOf(rows, item))
  {
    var v := ViewOf(rows, item);
    var resumed := ResumeRow(at, item, Last(v.states).from, DeliveredRun(v).value);
    if delivered then [resumed]
    else [resumed] + StallRows(rows + [resumed], at, item, DeliveryFailed, Retry, None, None)
  }

  /** The resume row is lawful, and the step it returns to stands open again. */
  lemma {:induction false} ResumedStandsOpen(rows: Ledger, at: int, item: Item)
    requires Lawful(rows) && BookkeepingIsDue(ViewOf(rows, item))
    ensures var v := ViewOf(rows, item);
      var resumed := ResumeRow(at, item, Last(v.states).from, DeliveredRun(v).value);
      && Extends(rows, [resumed])
      && ViewOf(rows + [resumed], item).entry.Some?
      && !ViewOf(rows + [resumed], item).State().IsTerminal() && ViewOf(rows + [resumed], item).State() != Stalled
  {
    var v := ViewOf(rows, item);
    DueIsStalledInAStep(rows, item);
    var resumed := ResumeRow(at, item, Last(v.states).from, DeliveredRun(v).value);
    ResumeIsLegal(v, resumed.move);
    assert Admissible(rows, resumed);
    ExtendsOne(rows, resumed);
    AfterMove(rows, resumed.move);
  }

  lemma {:induction false} AfterMove(rows: Ledger, m: Move)
    requires Lawful(rows) && MoveOk(rows, m)
    ensures ViewOf(rows + [StateRow(m)], m.item).entry == ViewOf(rows, m.item).entry
    ensures ViewOf(rows + [StateRow(m)], m.item).State() == m.to
  {
    InitSnoc(rows, StateRow(m));
    SamePlan(rows, StateRow(m));
  }

  lemma ResumeIsLegal(v: ItemView, m: Move)
    requires BookkeepingIsDue(v) && v.entry.Some? && v.State() == Stalled && Last(v.states).from.IsStep()
    requires m.to == Last(v.states).from && m.fields == NO_FIELDS.(runId := Some(DeliveredRun(v).value.runId))
    ensures Legal(v, m.to, m.fields) && ResumeFields(v, m.fields)
  {
  }

  /** A due item is of the plan, and stalled in a step. */
  lemma {:induction false} DueIsStalledInAStep(rows: Ledger, item: Item)
    requires Lawful(rows) && BookkeepingIsDue(ViewOf(rows, item))
    ensures var v := ViewOf(rows, item);
      v.entry.Some? && v.State() == Stalled && v.states != [] && Last(v.states).from.IsStep()
  {
    var v := ViewOf(rows, item);
    RowsShaped(rows, item);
    DeliveredIsLaunched(v);
    if v.entry.None? { UnknownOnlyBlocks(rows, item); }
    WalkIsDocumented(rows, item);
  }

  lemma {:induction false} BookkeepingExtends(rows: Ledger, at: int, item: Item, delivered: bool)
    requires Lawful(rows) && BookkeepingIsDue(ViewOf(rows, item))
    ensures Extends(rows, BookkeepingRows(rows, at, item, delivered))
    ensures Quiet(BookkeepingRows(rows, at, item, delivered))
    ensures WritesOwn(BookkeepingRows(rows, at, item, delivered), item)
    ensures NoMergeAsks(BookkeepingRows(rows, at, item, delivered))
  {
    var v := ViewOf(rows, item);
    var resumed := ResumeRow(at, item, Last(v.states).from, DeliveredRun(v).value);
    ResumedStandsOpen(rows, at, item);
    StallExtends(rows + [resumed], at, item, DeliveryFailed, Retry, None, None);
    StallWritesOwn(rows + [resumed], at, item, DeliveryFailed, Retry, None, None);
    ExtendsAppend(rows, [resumed], StallRows(rows + [resumed], at, item, DeliveryFailed, Retry, None, None));
  }

  /** Every due item in turn, each on the rows written so far. An item no longer
      due (it was held behind a clarify ask) is left alone. */
  function RetryBookkeeping(rows: Ledger, at: int, due: seq<Item>, delivered: set<Item>): seq<Row> {
    if due == [] then []
    else
      var written := RetryBookkeeping(rows, at, Init(due), delivered);
      var item := Last(due);
      if BookkeepingIsDue(ViewOf(rows + written, item))
      then written + BookkeepingRows(rows + written, at, item, item in delivered)
      else written
  }

  ghost predicate OnlyItems(more: seq<Row>, items: seq<Item>) {
    forall r :: r in more ==> exists item :: item in items && WritesOwn([r], item)
  }

  lemma {:induction false} RetryBookkeepingExtends(rows: Ledger, at: int, due: seq<Item>, delivered: set<Item>)
    requires Lawful(rows)
    ensures var more := RetryBookkeeping(rows, at, due, delivered);
      Extends(rows, more) && Quiet(more) && NoMergeAsks(more) && OnlyItems(more, due)
  {
    if due != [] {
      var written := RetryBookkeeping(rows, at, Init(due), delivered);
      var item := Last(due);
      RetryBookkeepingExtends(rows, at, Init(due), delivered);
      LawfulExtends(rows, written);
      if BookkeepingIsDue(ViewOf(rows + written, item)) {
        BookkeepingExtends(rows + written, at, item, item in delivered);
        ExtendsAppend(rows, written, BookkeepingRows(rows + written, at, item, item in delivered));
      }
      forall r | r in RetryBookkeeping(rows, at, due, delivered)
        ensures exists i :: i in due && WritesOwn([r], i)
      {
        if r in written {
          var i :| i in Init(due) && WritesOwn([r], i);
          assert i in due;
        } else {
          assert item in due && WritesOwn([r], item);
        }
      }
    }
  }

  // ---- next: the survey

  lemma {:induction false} LaunchIsRow(rows: Ledger, item: Item)
    ensures forall m :: m in StatesOf(rows, item) ==> StateRow(m) in rows && m.item == item
  {
    if rows != [] {
      LaunchIsRow(Init(rows), item);
      assert rows == Init(rows) + [Last(rows)];
    }
  }

  lemma LostRunIsAdmissible(rows: Ledger, entry: Entry)
    requires var v := ViewOf(rows, entry.item); v.InFlight()
    ensures Admissible(rows, LostRun(rows, entry, Last(ViewOf(rows, entry.item).states)))
  {
    var v := ViewOf(rows, entry.item);
    var m := Last(v.states);
    assert m in v.states;
    FirstRunMissing(v.runs, m.fields.runId.value);
  }

  lemma {:induction false} FirstRunMissing(runs: seq<Run>, id: RunId)
    requires FirstRun(runs, id).None?
    ensures forall r :: r in runs ==> r.runId != id
  {
    if runs != [] {
      FirstRunMissing(Init(runs), id);
    }
  }

  lemma {:induction false} FlyingExtends(rows: Ledger, w: World, entry: Entry)
    requires Lawful(rows)
    requires var v := ViewOf(rows, entry.item);
      v.InFlight() && v.entry.Some? && !v.State().IsTerminal() && v.State() != Stalled
    ensures Extends(rows, FlyingStep(rows, w, entry, Last(ViewOf(rows, entry.item).states)).writes)
  {
    StallExtends(rows, w.now, entry.item, RunnerGone, Retry, None, None);
    LostRunExtends(rows, w, entry);
  }

  lemma {:induction false} LostRunExtends(rows: Ledger, w: World, entry: Entry)
    requires var v := ViewOf(rows, entry.item);
      v.InFlight() && v.entry.Some? && !v.State().IsTerminal() && v.State() != Stalled
    ensures var lost := LostRun(rows, entry, Last(ViewOf(rows, entry.item).states));
      Extends(rows, [lost] + StallRows(rows + [lost], w.now, entry.item, RunnerGone, Retry, None, None))
  {
    var lost := LostRun(rows, entry, Last(ViewOf(rows, entry.item).states));
    LostRunIsAdmissible(rows, entry);
    ExtendsOne(rows, lost);
    InitSnoc(rows, lost);
    StallExtends(rows + [lost], w.now, entry.item, RunnerGone, Retry, None, None);
    ExtendsAppend(rows, [lost], StallRows(rows + [lost], w.now, entry.item, RunnerGone, Retry, None, None));
  }

  lemma GateIsLegal(v: ItemView)
    requires v.entry.Some? && v.State() == Spec && v.pending.None? && !v.InFlight()
    ensures Legal(v, AwaitingGate, NO_FIELDS)
  {
    assert AwaitingGate in Successors(v.entry.value.kind, Spec, v.states);
  }

  lemma {:induction false} GateExtends(rows: Ledger, now: int, item: Item, blobs: Blobs)
    requires Lawful(rows)
    requires var v := ViewOf(rows, item);
      v.entry.Some? && v.State() == Spec && v.pending.None? && !v.InFlight()
    ensures Extends(rows, GateRows(rows, now, item, blobs))
  {
    var more := GateRows(rows, now, item, blobs);
    InitSnoc(rows, more[0]);
    GateIsLegal(ViewOf(rows, item));
    assert Admissible(rows, more[0]);
    ExtendsTwo(rows, more[0], more[1]);
  }

  lemma {:induction false} AfterExtends(rows: Ledger, w: World, entry: Entry)
    requires Lawful(rows)
    requires var v := ViewOf(rows, entry.item);
      v.entry.Some? && v.pending.None? && !v.InFlight()
    ensures Extends(rows, AfterStep(rows, w, entry, ViewOf(rows, entry.item).State()).writes)
  {
    var facts := FactsOf(w.facts, entry.item);
    var v := ViewOf(rows, entry.item);
    if v.State() == Spec && facts.gateBlobs.Some? {
      GateExtends(rows, w.now, entry.item, facts.gateBlobs.value);
    }
    ExtendsOne(rows, ConsentRow(entry.item));
  }

  lemma {:induction false} StepExtends(rows: Ledger, w: World, entry: Entry)
    requires Lawful(rows) && ViewOf(rows, entry.item).entry.Some?
    ensures Extends(rows, StepOf(rows, w, entry).writes)
  {
    var v := ViewOf(rows, entry.item);
    var state := v.State();
    if !state.IsTerminal() && state != Stalled {
      if state == Merging {
        StallExtends(rows, w.now, entry.item, RunnerGone, Retry, None, None);
      } else if v.InFlight() {
        FlyingExtends(rows, w, entry);
      } else if v.pending.None? {
        AfterExtends(rows, w, entry);
      }
    }
  }

  /** A merged PR is read only for an item whose next step would launch, or one
      stalled and answered `merged`. */
  ghost predicate LandedRead(rows: Ledger, w: World) {
    forall item :: item in w.facts && w.facts[item].mergedPr.Some? ==> LandedDue(ViewOf(rows, item))
  }

  predicate OwnLandedRead(rows: Ledger, w: World, item: Item) {
    item in w.facts && w.facts[item].mergedPr.Some? ==> LandedDue(ViewOf(rows, item))
  }

  lemma {:induction false} CandidateExtends(rows: Ledger, w: World, entry: Entry)
    requires Lawful(rows) && ViewOf(rows, entry.item).entry.Some?
    requires OwnLandedRead(rows, w, entry.item)
    ensures Extends(rows, CandidateOf(rows, w, entry).writes)
  {
    var v := ViewOf(rows, entry.item);
    var facts := FactsOf(w.facts, entry.item);
    var c := CandidateOf(rows, w, entry);
    if facts.mergedPr.Some? && AnsweredMerged(v) {
      var moved := StateRow(Move(w.now, entry.item, Stalled, Merged, NO_FIELDS.(pr := facts.mergedPr)));
      assert c.writes == [moved];
      assert MoveOk(rows, moved.move);
      ExtendsOne(rows, moved);
    } else {
      StepExtends(rows, w, entry);
      if c != StepOf(rows, w, entry) {
        StallExtends(rows, w.now, entry.item, MergeDrift, LandedAdvice(v.State(), facts.unchecked),
                     Some([Retry, AsMerged, Block]), facts.mergedPr);
      }
    }
  }

  lemma {:induction false} SurveyItemsExtend(rows: Ledger, w: World, entries: seq<Entry>)
    requires Lawful(rows) && DistinctItems(entries) && LandedRead(rows, w)
    requires forall e :: e in entries ==> ViewOf(rows, e.item).entry.Some?
    ensures Extends(rows, SurveyItems(rows, w, entries).writes)
  {
    if entries != [] {
      var before, entry := Init(entries), Last(entries);
      var s := SurveyItems(rows, w, before);
      SurveyItemsExtend(rows, w, before);
      LawfulExtends(rows, s.writes);
      OthersWriteElsewhere(rows, w, before, entry.item);
      CandidateExtends(rows + s.writes, w, entry);
      ExtendsAppend(rows, s.writes, CandidateOf(rows + s.writes, w, entry).writes);
    }
  }

  lemma {:induction false} SurveyExtends(rows: Ledger, w: World)
    requires Lawful(rows) && LandedRead(rows, w)
    ensures Extends(rows, SurveyWrites(rows, w))
  {
    var entries := Entries(rows);
    PlanStays(rows);
    forall e | e in entries
      ensures ViewOf(rows, e.item).entry.Some?
    {
      EntryFound(entries, e);
    }
    SurveyItemsExtend(rows, w, entries);
    var writes := SurveyItems(rows, w, entries).writes;
    if SurveyWrites(rows, w) != writes {
      ExtendsOne(rows + writes, Last(SurveyWrites(rows, w)));
      ExtendsAppend(rows, writes, [Last(SurveyWrites(rows, w))]);
    }
  }

  // ---- next, whole

  /** The bookkeeping half of `next`: clarify asks for due items whose issue does
      not read open, then the other due items' bookkeeping. */
  function Prepared(rows: Ledger, w: World, issues: map<Item, IssueState>, delivered: set<Item>): seq<Row> {
    var due := BookkeepingDue(rows, Entries(rows));
    var asked := ClarifyClosed(rows, seq(|due|, i requires 0 <= i < |due| => Offer(due[i], Go(Build))), issues).asks;
    asked + RetryBookkeeping(rows + asked, w.now, due, delivered)
  }

  datatype Advanced = Advanced(launch: seq<Offer>, written: seq<Row>)

  /** conductor_next.advance: bookkeeping, survey, and a clarify ask for every
      ready step whose issue does not read open, all written together. */
  function Advance(rows: Ledger, w: World, wipCap: int, issues: map<Item, IssueState>, delivered: set<Item>): Advanced {
    var prepared := Prepared(rows, w, issues, delivered);
    var before := rows + prepared;
    var writes := SurveyWrites(before, w);
    var cleared := ClarifyClosed(before + writes, SurveyOffers(before, w, wipCap), issues);
    Advanced(cleared.launch, prepared + writes + cleared.asks)
  }

  lemma {:induction false} DueAreDue(rows: Ledger, entries: seq<Entry>)
    ensures forall item :: item in BookkeepingDue(rows, entries) ==> BookkeepingIsDue(ViewOf(rows, item))
  {
    if entries != [] {
      DueAreDue(rows, Init(entries));
    }
  }

  ghost predicate OnlyDue(rows: Ledger, more: seq<Row>) {
    forall item: Item :: !BookkeepingIsDue(ViewOf(rows, item)) ==> Avoids(more, item) && ConsentRow(item) !in more
  }

  lemma AskedIsOnlyDue(rows: Ledger, due: seq<Item>, offers: seq<Offer>, asked: seq<Row>)
    requires forall r :: r in asked ==> r.AskRow? && exists o :: o in offers && r.Grouped() == Some(o.item)
    requires forall o :: o in offers ==> o.item in due
    requires forall item :: item in due ==> BookkeepingIsDue(ViewOf(rows, item))
    ensures OnlyDue(rows, asked)
  {
  }

  lemma ResumedIsOnlyDue(rows: Ledger, due: seq<Item>, resumed: seq<Row>)
    requires OnlyItems(resumed, due)
    requires forall item :: item in due ==> BookkeepingIsDue(ViewOf(rows, item))
    ensures OnlyDue(rows, resumed)
  {
    forall item: Item | !BookkeepingIsDue(ViewOf(rows, item))
      ensures Avoids(resumed, item) && ConsentRow(item) !in resumed
    {
      forall r | r in resumed
        ensures r.Grouped() != Some(item) && r != ConsentRow(item)
      {
        var i :| i in due && WritesOwn([r], i);
        assert r in [r];
      }
    }
  }

  /** What bookkeeping writes touches only items it is due for: no item whose
      merged PR or standing fact was read. */
  lemma {:induction false} PreparedExtends(rows: Ledger, w: World, issues: map<Item, IssueState>, delivered: set<Item>)
    requires Lawful(rows)
    ensures var more := Prepared(rows, w, issues, delivered);
      Extends(rows, more) && Quiet(more) && NoMergeAsks(more) && OnlyDue(rows, more)
  {
    var due := BookkeepingDue(rows, Entries(rows));
    var offers := seq(|due|, i requires 0 <= i < |due| => Offer(due[i], Go(Build)));
    var asked := ClarifyClosed(rows, offers, issues).asks;
    DueAreDue(rows, Entries(rows));
    ClarifyExtends(rows, offers, issues);
    AskedIsOnlyDue(rows, due, offers, asked);
    LawfulExtends(rows, asked);
    RetryBookkeepingExtends(rows + asked, w.now, due, delivered);
    var resumed := RetryBookkeeping(rows + asked, w.now, due, delivered);
    ResumedIsOnlyDue(rows, due, resumed);
    ExtendsAppend(rows, asked, resumed);
  }

  /** Rows that touch only bookkeeping items leave every fact read true. */
  lemma FactsStillRead(rows: Ledger, more: seq<Row>, w: World)
    requires LandedRead(rows, w) && StandingRead(rows, w)
    requires Quiet(more) && NoMergeAsks(more)
    requires OnlyDue(rows, more)
    ensures LandedRead(rows + more, w) && StandingRead(rows + more, w)
  {
    forall item | item in w.facts && w.facts[item].mergedPr.Some?
      ensures LandedDue(ViewOf(rows + more, item))
    {
      FrameMany(rows, more, item);
    }
    forall item | item in w.facts && w.facts[item].standing.Some?
      ensures OwnStandingRead(rows + more, w, item)
    {
      assert ViewOf(rows, item).State() == Ship;
      StandingReadStays(rows, more, w, item);
    }
  }

  lemma {:induction false} ExtendsThree(rows: Ledger, a: seq<Row>, b: seq<Row>, c: seq<Row>)
    requires Extends(rows, a) && Extends(rows + a, b) && Extends((rows + a) + b, c)
    ensures Extends(rows, a + b + c)
  {
    assert (rows + a) + b == rows + (a + b);
    ExtendsAppend(rows, a, b);
    ExtendsAppend(rows, a + b, c);
  }

  /** `next` writes admissible rows only, given facts read from the same rows. */
  lemma {:induction false} AdvanceExtends(rows: Ledger, w: World, wipCap: int, issues: map<Item, IssueState>,
                                          delivered: set<Item>)
    requires Lawful(rows) && LandedRead(rows, w) && StandingRead(rows, w)
    ensures Extends(rows, Advance(rows, w, wipCap, issues, delivered).written)
  {
    var prepared := Prepared(rows, w, issues, delivered);
    PreparedExtends(rows, w, issues, delivered);
    FactsStillRead(rows, prepared, w);
    var before := rows + prepared;
    LawfulExtends(rows, prepared);
    SurveyExtends(before, w);
    var offers := SurveyOffers(before, w, wipCap);
    ClarifyExtends(before + SurveyWrites(before, w), offers, issues);
    ExtendsThree(rows, prepared, SurveyWrites(before, w),
                 ClarifyClosed(before + SurveyWrites(before, w), offers, issues).asks);
  }

  // ---- what next launches

  predicate DistinctOffers(offers: seq<Offer>) {
    forall i, j :: 0 <= i < j < |offers| ==> offers[i].item != offers[j].item
  }

  lemma {:induction false} SurveyOffersDistinct(rows: Ledger, w: World, entries: seq<Entry>)
    requires DistinctItems(entries)
    ensures DistinctOffers(SurveyItems(rows, w, entries).offers)
  {
    if entries != [] {
      SurveyOffersDistinct(rows, w, Init(entries));
      SurveyItemsWrites(rows, w, Init(entries));
      AbsorbDistinct(SurveyItems(rows, w, Init(entries)), Last(entries).item,
                     CandidateOf(rows + SurveyItems(rows, w, Init(entries)).writes, w, Last(entries)));
    }
  }

  lemma AbsorbDistinct(s: Surveyed, item: Item, c: Candidate)
    requires DistinctOffers(s.offers) && forall o :: o in s.offers ==> o.item != item
    ensures DistinctOffers(Absorb(s, item, c).offers)
  {
  }

  /** A launched offer's item is asked nothing. */
  lemma {:induction false} ClarifyAvoids(rows: Ledger, offers: seq<Offer>, issues: map<Item, IssueState>, offer: Offer)
    requires DistinctOffers(offers) && offer in ClarifyClosed(rows, offers, issues).launch
    ensures Avoids(ClarifyClosed(rows, offers, issues).asks, offer.item)
  {
    var before := Init(offers);
    var c := ClarifyClosed(rows, before, issues);
    ClarifyExtends(rows, before, issues);
    if offer in c.launch {
      ClarifyAvoids(rows, before, issues, offer);
      assert offer in before;
    }
  }

  /** What `next` launches is legal on the ledger it leaves: its clarify asks
      hold only the offers it withholds. */
  lemma {:induction false} LaunchIsLegal(rows: Ledger, w: World, wipCap: int, issues: map<Item, IssueState>,
                                         offer: Offer, fields: Fields)
    requires Lawful(rows) && fields.verdict.None?
    requires var offers := SurveyOffers(rows, w, wipCap);
      offer in ClarifyClosed(rows + SurveyWrites(rows, w), offers, issues).launch
    ensures var after := rows + SurveyWrites(rows, w);
      Legal(ViewOf(after + ClarifyClosed(after, SurveyOffers(rows, w, wipCap), issues).asks, offer.item),
            offer.ready.Target(), fields)
  {
    PlanStays(rows);
    var after, offers := rows + SurveyWrites(rows, w), SurveyOffers(rows, w, wipCap);
    SurveyOffersDistinct(rows, w, Entries(rows));
    ClarifyExtends(after, offers, issues);
    ClarifyAvoids(after, offers, issues, offer);
    FrameMany(after, ClarifyClosed(after, offers, issues).asks, offer.item);
    OffersAreLegal(rows, w, wipCap, offer, fields);
  }

  lemma AppendThree(rows: Ledger, a: seq<Row>, b: seq<Row>, c: seq<Row>)
    ensures rows + (a + b + c) == ((rows + a) + b) + c
  {
  }

  lemma {:induction false} AdvanceLaunchIsLegal(rows: Ledger, w: World, wipCap: int, issues: map<Item, IssueState>,
                                                delivered: set<Item>, offer: Offer, fields: Fields)
    requires Lawful(rows) && fields.verdict.None?
    requires offer in Advance(rows, w, wipCap, issues, delivered).launch
    ensures Legal(ViewOf(rows + Advance(rows, w, wipCap, issues, delivered).written, offer.item),
                  offer.ready.Target(), fields)
  {
    var prepared := Prepared(rows, w, issues, delivered);
    assert Lawful(rows + prepared) by {
      PreparedExtends(rows, w, issues, delivered);
      LawfulExtends(rows, prepared);
    }
    var before := rows + prepared;
    var writes := SurveyWrites(before, w);
    var offers := SurveyOffers(before, w, wipCap);
    LaunchIsLegal(before, w, wipCap, issues, offer, fields);
    AppendThree(rows, prepared, writes, ClarifyClosed(before + writes, offers, issues).asks);
  }

  // ---- the merge turns next launches

  lemma {:induction false} AsksMoveNothing(rows: Ledger, more: seq<Row>, item: Item)
    requires forall r :: r in more ==> r.AskRow?
    ensures StatesOf(rows + more, item) == StatesOf(rows, item)
    decreases |more|
  {
    if more == [] {
      assert rows + more == rows;
    } else {
      assert more[0] in more && forall r :: r in more[1..] ==> r in more;
      InitSnoc(rows, more[0]);
      AsksMoveNothing(rows + [more[0]], more[1..], item);
      assert rows + more == (rows + [more[0]]) + more[1..];
    }
  }

  lemma MergeStaysAllowed(rows: Ledger, more: seq<Row>, item: Item, blobs: Blobs, policy: StandingPolicy)
    requires MergeAllowed(rows, item, blobs, policy)
    requires Quiet(more) && NoMergeAsks(more) && Avoids(more, item) && forall r :: r in more ==> r.AskRow?
    ensures MergeAllowed(rows + more, item, blobs, policy)
  {
    FrameMany(rows, more, item);
    forall i: Item {:trigger ViewOf(rows, i)} | ViewOf(rows, i).State() == Merged
      ensures ViewOf(rows + more, i).State() == Merged
    {
      AsksMoveNothing(rows, more, i);
    }
    assert Cover(rows, item, blobs, policy) == Covered;
    CoverStays(rows, more, item, blobs, policy);
  }

  lemma {:induction false} LaunchedWasOffered(rows: Ledger, offers: seq<Offer>, issues: map<Item, IssueState>,
                                              offer: Offer)
    requires offer in ClarifyClosed(rows, offers, issues).launch
    ensures offer in offers
  {
    ClarifyExtends(rows, offers, issues);
  }

  lemma {:induction false} ClarifyKeepsView(rows: Ledger, offers: seq<Offer>, issues: map<Item, IssueState>,
                                            offer: Offer)
    requires DistinctOffers(offers) && offer in ClarifyClosed(rows, offers, issues).launch
    ensures ViewOf(rows + ClarifyClosed(rows, offers, issues).asks, offer.item) == ViewOf(rows, offer.item)
  {
    ClarifyExtends(rows, offers, issues);
    ClarifyAvoids(rows, offers, issues, offer);
    FrameMany(rows, ClarifyClosed(rows, offers, issues).asks, offer.item);
  }

  lemma {:induction false} ClarifyKeepsMerge(rows: Ledger, offers: seq<Offer>, issues: map<Item, IssueState>,
                                             item: Item, blobs: Blobs, policy: StandingPolicy)
    requires DistinctOffers(offers) && Offer(item, MergeTurn) in ClarifyClosed(rows, offers, issues).launch
    requires MergeAllowed(rows, item, blobs, policy)
    ensures MergeAllowed(rows + ClarifyClosed(rows, offers, issues).asks, item, blobs, policy)
  {
    ClarifyExtends(rows, offers, issues);
    ClarifyAvoids(rows, offers, issues, Offer(item, MergeTurn));
    MergeStaysAllowed(rows, ClarifyClosed(rows, offers, issues).asks, item, blobs, policy);
  }

  /** A merge turn a survey launches past its clarify asks still meets its precondition. */
  lemma {:induction false} LaunchedMergeIsAllowed(rows: Ledger, w: World, wipCap: int,
                                                  issues: map<Item, IssueState>, item: Item)
    requires Lawful(rows) && StandingRead(rows, w) && ViewOf(rows, item).State() == Ship
    requires var offers := SurveyOffers(rows, w, wipCap);
      Offer(item, MergeTurn) in ClarifyClosed(rows + SurveyWrites(rows, w), offers, issues).launch
    ensures FactsOf(w.facts, item).gateBlobs.Some?
    ensures var after := rows + SurveyWrites(rows, w);
      MergeAllowed(after + ClarifyClosed(after, SurveyOffers(rows, w, wipCap), issues).asks, item,
                   FactsOf(w.facts, item).gateBlobs.value, w.policy)
  {
    PlanStays(rows);
    var after, offers := rows + SurveyWrites(rows, w), SurveyOffers(rows, w, wipCap);
    SurveyOffersDistinct(rows, w, Entries(rows));
    LaunchedWasOffered(after, offers, issues, Offer(item, MergeTurn));
    MergeOffersAreAllowed(rows, w, wipCap, item);
    ClarifyKeepsMerge(after, offers, issues, item, FactsOf(w.facts, item).gateBlobs.value, w.policy);
  }

  /** A launched offer's item reads after the survey and its clarify asks as before. */
  lemma {:induction false} LaunchedViewIsKept(rows: Ledger, w: World, wipCap: int, issues: map<Item, IssueState>,
                                              offer: Offer)
    requires Lawful(rows)
    requires var offers := SurveyOffers(rows, w, wipCap);
      offer in ClarifyClosed(rows + SurveyWrites(rows, w), offers, issues).launch
    ensures var after := rows + SurveyWrites(rows, w);
      ViewOf(after + ClarifyClosed(after, SurveyOffers(rows, w, wipCap), issues).asks, offer.item)
      == ViewOf(rows, offer.item)
  {
    PlanStays(rows);
    var entries := Entries(rows);
    var after, offers := rows + SurveyWrites(rows, w), SurveyOffers(rows, w, wipCap);
    SurveyOffersDistinct(rows, w, entries);
    LaunchedWasOffered(after, offers, issues, offer);
    ClarifyKeepsView(after, offers, issues, offer);
    TruncateKeeps(SurveyItems(rows, w, entries).offers, wipCap - SurveyItems(rows, w, entries).flying, offer);
    OfferedViewIsKept(rows, w, entries, offer);
    PauseTouchesNoItem(rows, w, offer.item);
  }

  /** Every merge turn a whole `next` launches for an item in ship meets the merge
      precondition on the ledger `next` leaves: the `merge` it starts is not refused. */
  lemma {:induction false} AdvanceMergeIsAllowed(rows: Ledger, w: World, wipCap: int, issues: map<Item, IssueState>,
                                                 delivered: set<Item>, item: Item)
    requires Lawful(rows) && LandedRead(rows, w) && StandingRead(rows, w)
    requires var out := Advance(rows, w, wipCap, issues, delivered);
      Offer(item, MergeTurn) in out.launch && ViewOf(rows + out.written, item).State() == Ship
    ensures FactsOf(w.facts, item).gateBlobs.Some?
    ensures var after := rows + Advance(rows, w, wipCap, issues, delivered).written;
      var blobs := FactsOf(w.facts, item).gateBlobs.value;
      MergeAllowed(after, item, blobs, w.policy)
  {
    var prepared := Prepared(rows, w, issues, delivered);
    var before := rows + prepared;
    PreparedExtends(rows, w, issues, delivered);
    LawfulExtends(rows, prepared);
    FactsStillRead(rows, prepared, w);
    var writes := SurveyWrites(before, w);
    AppendThree(rows, prepared, writes, ClarifyClosed(before + writes, SurveyOffers(before, w, wipCap), issues).asks);
    LaunchedViewIsKept(before, w, wipCap, issues, Offer(item, MergeTurn));
    LaunchedMergeIsAllowed(before, w, wipCap, issues, item);
  }

  lemma AllowedMergeBegins(rows: Ledger, at: int, item: Item, pid: nat, blobs: Blobs, policy: StandingPolicy)
    requires MergeAllowed(rows, item, blobs, policy)
    ensures BeginMergeRows(rows, at, item, pid, blobs, policy).Written?
  {
    var v := ViewOf(rows, item);
    assert Legal(v, Merging, NO_FIELDS);
    assert Legal(v, Merging, NO_FIELDS.(pid := Some(pid)));
  }
}
