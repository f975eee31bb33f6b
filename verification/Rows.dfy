/** The batch ledger's rows (tools/factory/conductor.py).
    Every kind of ledger row is one constructor of `Row`; the row kinds an item
    view groups carry a record of their own. Texts (reasons, questions, advice)
    carry no rule and are not modelled. */
module Rows {

  datatype Option<+T> = None | Some(value: T)

  /** An issue key `#n`. */
  type Item = nat

  /** A file path mapped to its blob id: the gate files an item branch changes. */
  type Blobs = map<string, string>

  /** The item states; the five that a Worker runs are the steps. */
  datatype State =
    | Planned | Spec | AwaitingGate | Build | Verify | Review | Reviewed
    | Ship | Merging | Merged | Stalled | Blocked
  {
    predicate IsStep() {
      Spec? || Build? || Verify? || Review? || Ship?
    }

    predicate IsTerminal() {
      Merged? || Blocked?
    }
  }

  datatype ItemType = Feature | Fix | Order
  datatype Size = S | M | L
  datatype Band = Mechanical | Implementation | ArchitectureReview
  datatype Verdict = Pass | Changes

  datatype RunId = RunId(item: Item, step: State, number: nat)

  datatype Outcome = Completed | AgentFailed | KilledAtCeiling | Unaccounted | RunnerLost

  datatype Cause =
    | CeilingStop | TimedOut | WorkerFailed | DeliveryFailed | RunnerGone
    | ChangesAgain | MergeDrift | MergeFailed | OwnerBlock | SetupFailed

  datatype AskKind = SpendAsk | GateAsk | MergeAsk | StallAsk | ClarifyAsk

  /** An ask's options; `Words` is any other text the `ask` command may offer. */
  datatype Choice =
    | Retry | RetryUp | Block | AsMerged | Approve | Decline | Resume | Stop
    | Merge | Train | Proceed | Words(text: string)

  /** A planned step: the band it runs at and its ceiling, in cents. */
  datatype PlannedStep = PlannedStep(step: State, band: Band, ceiling: nat)
  datatype Entry = Entry(item: Item, kind: ItemType, size: Size, steps: seq<PlannedStep>)

  /** The extra fields a state row may carry. */
  datatype Fields = Fields(
    runId: Option<RunId>,
    pid: Option<nat>,
    verdict: Option<Verdict>,
    authorRuns: seq<RunId>,
    reviewerRun: Option<RunId>,
    head: Option<string>,
    pr: Option<nat>,
    cause: Option<Cause>)

  const NO_FIELDS := Fields(None, None, None, [], None, None, None, None)

  datatype Move = Move(at: int, item: Item, from: State, to: State, fields: Fields)
  datatype Run = Run(item: Item, step: State, band: Band, runId: RunId, pid: nat, outcome: Outcome)
  datatype Ask = Ask(
    owner: Option<Item>,
    id: nat,
    kind: AskKind,
    options: seq<Choice>,
    recommended: Choice,
    covers: seq<Item>,
    gateBlobs: Blobs)
  datatype Answer = Answer(owner: Option<Item>, ask: nat, choice: Choice)

  /** The number families a plan reserves. */
  datatype Kind = Prd | Adr | Wo
  datatype Reservation = Reservation(item: Item, what: Kind, values: seq<nat>, renumberedFrom: seq<nat>)

  datatype Row =
    | PlanRow(entries: seq<Entry>)
    | ReserveRow(reservation: Reservation)
    | StateRow(move: Move)
    | RunRow(run: Run)
    | AskRow(ask: Ask)
    | AnswerRow(answer: Answer)
    | ConsentRow(item: Item)
    | CloseRow
  {
    /** The item whose view this row is grouped under, if any. */
    function Grouped(): Option<Item> {
      match this
      case ReserveRow(r) => Some(r.item)
      case StateRow(m) => Some(m.item)
      case RunRow(r) => Some(r.item)
      case AskRow(a) => a.owner
      case _ => None
    }
  }

  type Ledger = seq<Row>

  function Init<T>(s: seq<T>): seq<T>
    requires s != []
  {
    s[..|s| - 1]
  }

  function Last<T>(s: seq<T>): T
    requires s != []
  {
    s[|s| - 1]
  }

  /** Steps an item type runs, in order (conductor_plan.ITEM_STEPS). */
  function ItemSteps(kind: ItemType): seq<State> {
    if kind == Order then [Build, Verify, Review, Ship] else [Spec, Build, Verify, Review, Ship]
  }

  function StepNames(steps: seq<PlannedStep>): seq<State> {
    seq(|steps|, i requires 0 <= i < |steps| => steps[i].step)
  }

  predicate DistinctItems(entries: seq<Entry>) {
    forall i, j :: 0 <= i < j < |entries| ==> entries[i].item != entries[j].item
  }

  /** What `open` guarantees of the plan row: no issue is named twice, and each
      item runs exactly its type's steps. */
  ghost predicate PlanOk(entries: seq<Entry>) {
    && DistinctItems(entries)
    && (forall i :: 0 <= i < |entries| ==> StepNames(entries[i].steps) == ItemSteps(entries[i].kind))
  }
}
