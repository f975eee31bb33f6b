/** The item state machine (tools/factory/conductor_flow.py): which moves are
    legal, and the rows a stall or a verdict writes. Legality reads nothing but
    the item's view. */
module Flow {
  import opened Rows
  import opened View

  datatype Problem =
    | UnknownItem | TerminalState | BlockNeedsAnswer | UnansweredAsk | AlreadyStalled
    | NoMergedAnswer | NotTheRetriedStep | BookkeepingOnly | NoSuchEdge | GateNotApproved
    | ReviewerIsAuthor | RunInFlight

  /** The next state along the documented sequence; blocked, stalled and merged have none. */
  function Following(state: State): seq<State> {
    match state
    case Planned => [Spec]
    case Spec => [AwaitingGate]
    case AwaitingGate => [Build]
    case Build => [Verify]
    case Verify => [Review]
    case Review => [Reviewed]
    case Reviewed => [Ship]
    case Ship => [Merging]
    case Merging => [Merged]
    case _ => []
  }

  predicate SentBack(m: Move) {
    m.from == Review && m.to == Build
  }

  function Successors(kind: ItemType, state: State, states: seq<Move>): seq<State> {
    match state
    case Planned => if kind == Order then [Build] else [Spec]
    case Spec => if kind == Fix then [AwaitingGate, Build] else [AwaitingGate]
    case Build => [Build, Verify]
    case Review =>
      if exists m :: m in states && SentBack(m) then [Reviewed] else [Reviewed, Build]
    case _ => Following(state)
  }

  // ---- the completed run behind a delivery failure

  /** A launch of a step, the run row it left (if any) and whether it stalled. */
  datatype Attempt = Attempt(run: Option<Run>, stalled: bool)

  function LastRun(runs: seq<Run>, id: RunId): Option<Run> {
    if runs == [] then None
    else if Last(runs).runId == id then Some(Last(runs))
    else LastRun(Init(runs), id)
  }

  function Attempts(states: seq<Move>, runs: seq<Run>, step: State): seq<Attempt> {
    if states == [] then []
    else
      var earlier := Attempts(Init(states), runs, step);
      var m := Last(states);
      if m.to == step && m.fields.runId.Some? then
        earlier + [Attempt(LastRun(runs, m.fields.runId.value), false)]
      else if m.to == Stalled && m.from == step && earlier != [] then
        Init(earlier) + [Last(earlier).(stalled := true)]
      else earlier
  }

  /** The latest consecutive attempts that each ended in a stall. */
  function PriorStalls(attempts: seq<Attempt>): seq<Attempt> {
    if attempts == [] || !Last(attempts).stalled then []
    else PriorStalls(Init(attempts)) + [Last(attempts)]
  }

  function DeliveredRun(v: ItemView): Option<Run> {
    if v.State() != Stalled || Last(v.states).fields.cause != Some(DeliveryFailed) then None
    else
      var earlier := PriorStalls(Attempts(v.states, v.runs, Last(v.states).from));
      if earlier == [] then None
      else
        match Last(earlier).run
        case Some(run) => if run.outcome == Completed then Some(run) else None
        case None => None
  }

  // ---- legality of a move

  function StalledProblem(v: ItemView, to: State, fields: Fields): Option<Problem>
    requires v.State() == Stalled
  {
    if to == Merged then
      if v.resumed == Some(AsMerged) then None else Some(NoMergedAnswer)
    else if to != Last(v.states).from || !v.RetryAnswered() then Some(NotTheRetriedStep)
    else
      match DeliveredRun(v)
      case Some(run) => if fields.runId != Some(run.runId) then Some(BookkeepingOnly) else None
      case None => None
  }

  /** Why moving the item to `to` with these fields is refused; None when it is legal. */
  function TransitionProblem(v: ItemView, to: State, fields: Fields): Option<Problem> {
    var state := v.State();
    if v.entry.None? then Some(UnknownItem)
    else if state == Blocked && to == Merged then None
    else if state.IsTerminal() then Some(TerminalState)
    else if to == Blocked then Some(BlockNeedsAnswer)
    else if v.pending.Some? && to != Stalled then Some(UnansweredAsk)
    else if to == Stalled then (if state != Stalled then None else Some(AlreadyStalled))
    else if state == Stalled then StalledProblem(v, to, fields)
    else if to !in Successors(v.entry.value.kind, state, v.states) then Some(NoSuchEdge)
    else if state == AwaitingGate && v.gate != Some(Approve) then Some(GateNotApproved)
    else if && to == Reviewed && fields.verdict == Some(Pass)
            && fields.reviewerRun.Some? && fields.reviewerRun.value in fields.authorRuns then
      Some(ReviewerIsAuthor)
    else if v.InFlight() then Some(RunInFlight)
    else None
  }

  predicate Legal(v: ItemView, to: State, fields: Fields) {
    TransitionProblem(v, to, fields).None?
  }

  // ---- asks and stalls

  /** An ask with a fresh id: one past the ask count of `rows`. */
  function NewAsk(rows: Ledger, owner: Option<Item>, kind: AskKind, options: seq<Choice>,
                  recommended: Choice, covers: seq<Item>, blobs: Blobs): (a: Ask)
    ensures a.id == AskCount(rows) + 1 && a.owner == owner
  {
    Ask(owner, AskCount(rows) + 1, kind, options, recommended, covers, blobs)
  }

  predicate Distinct<T(==)>(s: seq<T>) {
    forall i, j :: 0 <= i < j < |s| ==> s[i] != s[j]
  }

  /** The grammar an ask is refused without. */
  predicate AskOk(a: Ask) {
    a.options != [] && Distinct(a.options) && a.recommended in a.options && Distinct(a.covers)
  }

  /** The stall ask's options at a band: retry-up only below the top one. */
  function StallOptions(band: Option<Band>): seq<Choice> {
    if band == Some(ArchitectureReview) then [Retry, Block] else [Retry, RetryUp, Block]
  }

  function Without(options: seq<Choice>, choice: Choice): seq<Choice> {
    if options == [] then []
    else if Last(options) == choice then Without(Init(options), choice)
    else Without(Init(options), choice) + [Last(options)]
  }

  function OfferedOptions(v: ItemView, cause: Cause, given: Option<seq<Choice>>): seq<Choice> {
    var band :=
      match v.Finishing()
      case Some(run) => Some(run.band)
      case None =>
        match v.PolicyOf(v.State())
        case Some(policy) => Some(policy.band)
        case None => None;
    var options := if given.Some? then given.value else StallOptions(band);
    if cause == DeliveryFailed then Without(options, RetryUp) else options
  }

  /** The state row and the ask of an item that stalls where it stands. */
  function StallRows(rows: Ledger, at: int, item: Item, cause: Cause, recommended: Choice,
                     given: Option<seq<Choice>>, pr: Option<nat>): (w: seq<Row>)
    ensures |w| == 2 && w[0].StateRow? && w[1].AskRow?
    ensures w[0].move.item == item && w[1].ask.owner == Some(item)
    ensures w[0].move.to == Stalled && w[0].move.from == ViewOf(rows, item).State()
    ensures w[1].ask.kind == StallAsk && w[1].ask.id == AskCount(rows) + 1
  {
    var v := ViewOf(rows, item);
    var moved := StateRow(Move(at, item, v.State(), Stalled, NO_FIELDS.(cause := Some(cause), pr := pr)));
    InitSnoc(rows, moved);
    var options := OfferedOptions(v, cause, given);
    [moved, AskRow(NewAsk(rows + [moved], Some(item), StallAsk, options, recommended, [], map[]))]
  }

  // ---- results of an append: the rows to write, or the problem that writes none

  datatype Outcome<+E> = Written(rows: seq<Row>) | Refused(problem: E)

  datatype Refusal =
    | Illegal(problem: Problem)
    | BadAsk
    | NoSuchAsk | AlreadyAnswered | NotAnOption
    | NoReviewedPass | NoReviewedHead | ShipNotFinished | NotCovered
    | CapReached

  /** flow.move: one state row, refused unless the move is legal. */
  function MoveRows(rows: Ledger, at: int, item: Item, to: State, fields: Fields): Outcome<Refusal> {
    var v := ViewOf(rows, item);
    match TransitionProblem(v, to, fields)
    case Some(problem) => Refused(Illegal(problem))
    case None => Written([StateRow(Move(at, item, v.State(), to, fields))])
  }

  /** flow.queue_stall: refused only for an item off the plan or a malformed ask. */
  function QueueStallRows(rows: Ledger, at: int, item: Item, cause: Cause, recommended: Choice): Outcome<Refusal> {
    if ViewOf(rows, item).entry.None? then Refused(Illegal(UnknownItem))
    else
      var w := StallRows(rows, at, item, cause, recommended, None, None);
      if AskOk(w[1].ask) then Written(w) else Refused(BadAsk)
  }

  /** flow.record_verdict: a pass is recorded with its author runs, a first
      request for changes returns the item to build, a second stalls it. */
  function VerdictRows(rows: Ledger, at: int, item: Item, verdict: Verdict, reviewer: RunId,
                       head: string): Outcome<Refusal> {
    var v := ViewOf(rows, item);
    if v.entry.None? then Refused(Illegal(UnknownItem))
    else if verdict == Pass then
      MoveRows(rows, at, item, Reviewed,
               NO_FIELDS.(verdict := Some(Pass), authorRuns := v.AuthorRuns(),
                          reviewerRun := Some(reviewer), head := Some(head)))
    else if Build !in Successors(v.entry.value.kind, Review, v.states) then
      var w := StallRows(rows, at, item, ChangesAgain, Block, None, None);
      if AskOk(w[1].ask) then Written(w) else Refused(BadAsk)
    else MoveRows(rows, at, item, Build, NO_FIELDS)
  }
}
