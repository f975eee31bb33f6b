/** The item view (tools/factory/conductor.py): the ledger's one reading
    interface, by direct definitions over the rows. `ReadLedger.dfy` proves the
    single pass of the source against them. Every definition scans backward, so
    that appending a row unfolds it once. */
module View {
  import opened Rows

  // ---- selections of rows, in ledger order

  function PlanOf(rows: Ledger): Option<seq<Entry>> {
    if rows == [] then None
    else
      var plan := PlanOf(Init(rows));
      if plan.Some? then plan
      else if Last(rows).PlanRow? then Some(Last(rows).entries)
      else None
  }

  function Entries(rows: Ledger): seq<Entry> {
    match PlanOf(rows)
    case Some(entries) => entries
    case None => []
  }

  function FindEntry(entries: seq<Entry>, item: Item): Option<Entry> {
    if entries == [] then None
    else if Last(entries).item == item then Some(Last(entries))
    else FindEntry(Init(entries), item)
  }

  function StatesOf(rows: Ledger, item: Item): seq<Move> {
    if rows == [] then []
    else
      match Last(rows)
      case StateRow(m) =>
        if m.item == item then StatesOf(Init(rows), item) + [m] else StatesOf(Init(rows), item)
      case _ => StatesOf(Init(rows), item)
  }

  function RunsOf(rows: Ledger, item: Item): seq<Run> {
    if rows == [] then []
    else
      match Last(rows)
      case RunRow(r) =>
        if r.item == item then RunsOf(Init(rows), item) + [r] else RunsOf(Init(rows), item)
      case _ => RunsOf(Init(rows), item)
  }

  function AsksOf(rows: Ledger, item: Item): seq<Ask> {
    if rows == [] then []
    else
      match Last(rows)
      case AskRow(a) =>
        if a.owner == Some(item) then AsksOf(Init(rows), item) + [a] else AsksOf(Init(rows), item)
      case _ => AsksOf(Init(rows), item)
  }

  function ReservesOf(rows: Ledger, item: Item): seq<Reservation> {
    if rows == [] then []
    else
      match Last(rows)
      case ReserveRow(r) =>
        if r.item == item then ReservesOf(Init(rows), item) + [r] else ReservesOf(Init(rows), item)
      case _ => ReservesOf(Init(rows), item)
  }

  /** Each answered ask's choice; a later answer to the same ask wins. */
  function Answers(rows: Ledger): map<nat, Choice> {
    if rows == [] then map[]
    else
      match Last(rows)
      case AnswerRow(a) => Answers(Init(rows))[a.ask := a.choice]
      case _ => Answers(Init(rows))
  }

  function AskCount(rows: Ledger): nat {
    if rows == [] then 0
    else AskCount(Init(rows)) + if Last(rows).AskRow? then 1 else 0
  }

  // ---- readings of an item's rows

  /** The oldest of these asks that no answer names. */
  function FirstUnanswered(asks: seq<Ask>, given: map<nat, Choice>): Option<Ask> {
    if asks == [] then None
    else
      var earlier := FirstUnanswered(Init(asks), given);
      if earlier.Some? then earlier
      else if Last(asks).id !in given then Some(Last(asks))
      else None
  }

  function FirstRun(runs: seq<Run>, id: RunId): Option<Run> {
    if runs == [] then None
    else
      var earlier := FirstRun(Init(runs), id);
      if earlier.Some? then earlier
      else if Last(runs).runId == id then Some(Last(runs))
      else None
  }

  function IdsOf(asks: seq<Ask>, kind: AskKind): set<nat> {
    set a | a in asks && a.kind == kind :: a.id
  }

  /** The latest-placed answer to one of `ids`. */
  function LatestAnswer(rows: Ledger, ids: set<nat>): Option<Choice> {
    if rows == [] then None
    else
      match Last(rows)
      case AnswerRow(a) => if a.ask in ids then Some(a.choice) else LatestAnswer(Init(rows), ids)
      case _ => LatestAnswer(Init(rows), ids)
  }

  /** The latest-placed answer to one of `ids` after the item's last state row. */
  function AnswerSinceMove(rows: Ledger, item: Item, ids: set<nat>): Option<Choice> {
    if rows == [] then None
    else
      match Last(rows)
      case AnswerRow(a) => if a.ask in ids then Some(a.choice) else AnswerSinceMove(Init(rows), item, ids)
      case StateRow(m) => if m.item == item then None else AnswerSinceMove(Init(rows), item, ids)
      case _ => AnswerSinceMove(Init(rows), item, ids)
  }

  function AuthorIds(runs: seq<Run>): seq<RunId> {
    if runs == [] then []
    else if Last(runs).step != Review then AuthorIds(Init(runs)) + [Last(runs).runId]
    else AuthorIds(Init(runs))
  }

  function ReservedValues(reserves: seq<Reservation>, kind: Kind): set<nat> {
    set r, v | r in reserves && r.what == kind && v in r.values :: v
  }

  function MovedValues(reserves: seq<Reservation>, kind: Kind): set<nat> {
    set r, v | r in reserves && r.what == kind && v in r.renumberedFrom :: v
  }

  /** The numbers the item holds: every reserved one less those a renumber moved away. */
  function LiveBlock(reserves: seq<Reservation>, kind: Kind): set<nat> {
    ReservedValues(reserves, kind) - MovedValues(reserves, kind)
  }

  function FindStep(steps: seq<PlannedStep>, step: State): Option<PlannedStep> {
    if steps == [] then None
    else if Last(steps).step == step then Some(Last(steps))
    else FindStep(Init(steps), step)
  }

  /** A step's policy: its planned one, or one band up when a retry-up resumed it. */
  datatype Policy = Policy(band: Band, ceiling: nat, bumped: bool)

  function Up(band: Band): Band {
    match band
    case Mechanical => Implementation
    case _ => ArchitectureReview
  }

  datatype ItemView = ItemView(
    item: Item,
    entry: Option<Entry>,
    states: seq<Move>,
    runs: seq<Run>,
    asks: seq<Ask>,
    reserves: seq<Reservation>,
    pending: Option<Ask>,
    resumed: Option<Choice>,
    gate: Option<Choice>)
  {
    function State(): State {
      if states == [] then Planned else Last(states).to
    }

    /** The run id the last state row names. */
    function Launched(): Option<RunId> {
      if states == [] then None else Last(states).fields.runId
    }

    function Finishing(): Option<Run> {
      match Launched()
      case Some(id) => FirstRun(runs, id)
      case None => None
    }

    predicate InFlight() {
      Launched().Some? && Finishing().None?
    }

    predicate Finished() {
      Finishing().Some? && Finishing().value.outcome == Completed
    }

    predicate RetryAnswered() {
      pending.None? && (resumed == Some(Retry) || resumed == Some(RetryUp))
    }

    function AuthorRuns(): seq<RunId> {
      AuthorIds(runs)
    }

    function PolicyOf(step: State): Option<Policy> {
      if entry.None? then None
      else
        match FindStep(entry.value.steps, step)
        case None => None
        case Some(planned) =>
          if && resumed == Some(RetryUp)
             && states != [] && Last(states).from == step
             && planned.band != ArchitectureReview
          then Some(Policy(Up(planned.band), planned.ceiling, true))
          else Some(Policy(planned.band, planned.ceiling, false))
    }
  }

  /** The answer that resumed the item: read only while it is stalled. */
  function ResumedBy(rows: Ledger, item: Item): Option<Choice> {
    var states := StatesOf(rows, item);
    if states != [] && Last(states).to == Stalled
    then AnswerSinceMove(rows, item, IdsOf(AsksOf(rows, item), StallAsk))
    else None
  }

  function ViewOf(rows: Ledger, item: Item): ItemView {
    var asks := AsksOf(rows, item);
    ItemView(
      item,
      FindEntry(Entries(rows), item),
      StatesOf(rows, item),
      RunsOf(rows, item),
      asks,
      ReservesOf(rows, item),
      FirstUnanswered(asks, Answers(rows)),
      ResumedBy(rows, item),
      LatestAnswer(rows, IdsOf(asks, GateAsk)))
  }

  // ---- appending one row

  lemma InitSnoc<T>(s: seq<T>, x: T)
    ensures Init(s + [x]) == s && Last(s + [x]) == x
  {
  }

  lemma {:induction false} AsksAreRows(rows: Ledger, item: Item)
    ensures forall a :: a in AsksOf(rows, item) <==> AskRow(a) in rows && a.owner == Some(item)
  {
    if rows != [] {
      AsksAreRows(Init(rows), item);
      assert rows == Init(rows) + [Last(rows)];
    }
  }

  /** A row is foreign to an item when it is not grouped under it, does not answer
      one of its asks, and is not the plan row. */
  predicate Foreign(rows: Ledger, r: Row, item: Item) {
    && r.Grouped() != Some(item)
    && !r.PlanRow?
    && (r.AnswerRow? ==> forall a :: a in AsksOf(rows, item) ==> a.id != r.answer.ask)
  }

  lemma {:induction false} UnansweredIgnores(asks: seq<Ask>, given: map<nat, Choice>, other: map<nat, Choice>)
    requires forall a :: a in asks ==> (a.id in given <==> a.id in other)
    ensures FirstUnanswered(asks, given) == FirstUnanswered(asks, other)
  {
    if asks != [] {
      UnansweredIgnores(Init(asks), given, other);
      assert Last(asks) in asks;
    }
  }

  /** The frame rule: a foreign row leaves the item's view unchanged. */
  lemma Frame(rows: Ledger, r: Row, item: Item)
    requires Foreign(rows, r, item)
    ensures ViewOf(rows + [r], item) == ViewOf(rows, item)
  {
    InitSnoc(rows, r);
    var asks := AsksOf(rows, item);
    assert AsksOf(rows + [r], item) == asks;
    UnansweredIgnores(asks, Answers(rows + [r]), Answers(rows));
  }

  /** No row of `more` can touch another item's view: none is a plan row or an answer. */
  predicate Quiet(more: seq<Row>) {
    forall r :: r in more ==> !r.PlanRow? && !r.AnswerRow?
  }

  predicate Avoids(more: seq<Row>, item: Item) {
    forall r :: r in more ==> r.Grouped() != Some(item)
  }

  lemma {:induction false} FrameMany(rows: Ledger, more: seq<Row>, item: Item)
    requires Quiet(more) && Avoids(more, item)
    ensures ViewOf(rows + more, item) == ViewOf(rows, item)
    decreases |more|
  {
    if more == [] {
      assert rows + more == rows;
    } else {
      var r := more[0];
      Frame(rows, r, item);
      assert rows + more == (rows + [r]) + more[1..];
      FrameMany(rows + [r], more[1..], item);
    }
  }

  // ---- a view depends only on the plan, the item's own rows and their answers

  predicate Concerns(r: Row, item: Item, ids: set<nat>) {
    r.PlanRow? || r.Grouped() == Some(item) || (r.AnswerRow? && r.answer.ask in ids)
  }

  /** The rows that concern the item, in order. */
  function Project(rows: Ledger, item: Item, ids: set<nat>): Ledger {
    if rows == [] then []
    else if Concerns(Last(rows), item, ids) then Project(Init(rows), item, ids) + [Last(rows)]
    else Project(Init(rows), item, ids)
  }

  function AskIds(asks: seq<Ask>): set<nat> {
    set a | a in asks :: a.id
  }

  lemma {:induction false} ProjectReadings(rows: Ledger, item: Item, ids: set<nat>)
    ensures var own := Project(rows, item, ids);
      && PlanOf(own) == PlanOf(rows)
      && StatesOf(own, item) == StatesOf(rows, item)
      && RunsOf(own, item) == RunsOf(rows, item)
      && AsksOf(own, item) == AsksOf(rows, item)
      && ReservesOf(own, item) == ReservesOf(rows, item)
      && (forall id :: id in ids ==> (id in Answers(own) <==> id in Answers(rows)))
      && (forall some: set<nat> :: some <= ids ==> LatestAnswer(own, some) == LatestAnswer(rows, some))
      && (forall some: set<nat> :: some <= ids ==>
            AnswerSinceMove(own, item, some) == AnswerSinceMove(rows, item, some))
  {
    if rows != [] {
      ProjectReadings(Init(rows), item, ids);
      InitSnoc(Project(Init(rows), item, ids), Last(rows));
    }
  }

  /** The whole view can be read off the rows that concern the item, whatever
      other rows stand between them: position-ordered fields included. */
  lemma {:induction false} ViewDependsOnlyOnOwnRows(rows: Ledger, item: Item)
    ensures ViewOf(Project(rows, item, AskIds(AsksOf(rows, item))), item) == ViewOf(rows, item)
  {
    var asks := AsksOf(rows, item);
    var ids := AskIds(asks);
    ProjectReadings(rows, item, ids);
    UnansweredIgnores(asks, Answers(Project(rows, item, ids)), Answers(rows));
  }

  /** So two ledgers that agree on those rows give the item the same view. */
  lemma {:induction false} SameOwnRowsSameView(rows: Ledger, other: Ledger, item: Item)
    requires Project(rows, item, AskIds(AsksOf(rows, item))) == Project(other, item, AskIds(AsksOf(other, item)))
    ensures ViewOf(rows, item) == ViewOf(other, item)
  {
    ViewDependsOnlyOnOwnRows(rows, item);
    ViewDependsOnlyOnOwnRows(other, item);
  }
}
