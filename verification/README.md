# Conductor: a verified model

A Dafny model of the Conductor, the batch scheduler under `tools/factory/`, and of
four self-contained algorithms beside it. `dafny verify dfyconfig.toml` checks the
whole project.

## What is modelled

**The batch ledger.** A batch is one append-only sequence of rows. Every command
reads all rows, decides, and appends its rows in one step. `Rows` declares the rows,
`View` what is read off them, `ReadLedger` the source's single pass that reads it,
`Flow`, `Consent` and `Survey` the three deciders (legality of a move, merge consent,
what to offer next), `Protocol` which row may follow a ledger (`Lawful`), `Commands`
the rows of each command, and `Batch` the ledger as an object whose methods are the
commands. Whole-run results are stated of every lawful ledger; every command keeps
its ledger lawful, but for a stall queued on an item that no longer stands open, so
they hold in every run without one. `Walk` holds the invariants of an
item's states, `Offers` the agreement of the survey with the other two deciders,
`Spend`, `Orphans` and `IdleStall` the monthly cap, `BlockedFlight` and `WholeBatch`
two runs written out row by row.

**What it says of the rows.** `Meaning`, `Rules`, `Covers` and `Merges` tell an item's
view, the legal moves, the cover and the merge precondition of the ledger's rows and
their positions, and prove the deciders to be exactly that; `Due`, `Effects` and `Turns`
tell so what a survey offers and moves, what each command leaves, and one whole `next`.

**Numbers.** `Plan` prices and numbers a batch, `Citations` rewrites the lines that
cite a number, `Renumber` is the merge turn's reservation check over any run of a
batch.

**Gate latency.** `Gates` extracts the completed stays of a label history,
`CostLedger` is the ledger the passages land in, `Capture` the daily rescan.

**Graphs, layout, index.** `Cycles` and `Closure` are the two dependency-graph
searches, `Fill`, `Pretty` and `Layout` the JSON layout printer, `WorkOrders` the
shared index of breakdown rows.

No proof uses automatic induction. Code that updates state in place is a class or a
method with loops proved against a specification function; the laws are proved of that
function. Timestamps are integers, money is integer cents, run ids are (item, step, number), asks are numbered
from one, and what git, gh or the clock would say is an input.

## Where the code does not keep a promise

Each has a concrete counterexample and the condition under which the promise holds,
exact where the entry says so.

- `queue_stall` and the second `changes` verdict do not ask whether the item may
  stall. A run that fails after its item was blocked reopens it
  (`BlockedFlight.UnguardedStallReopensBlocked`). Their rows are lawful exactly when
  the item is neither terminal nor stalled (`Commands.StallIsLawfulIffOpen`,
  `Commands.VerdictExtends`).
- The monthly cap can be passed (`IdleStall.IdleStallPassesTheCap`). The launch check
  counts a launched run until its own run row is in, or a state row of its item is
  written over it (`Orphans.InFlightIff`); a charge after that comes on top of what
  the check left room for (`Orphans.ChargeIsDueUnlessCounted`). Over any run, the
  month's spend with what the runs in flight may still be charged stays within the cap
  if and only if every charge is of a run that still counts, or fits what is left of
  the cap when it is made (`Orphans.CapIsKeptIff`). What is so due is no estimate: while
  no run in flight is charged yet, all of it can be spent (`Orphans.DueCanBeSpent`). Two guards are enough, that nothing is written
  over a run in flight and that every run is charged before its run row
  (`Orphans.GuardsKeepTheCap`); after a row that breaks one the run's whole charge can
  come on top (`Orphans.UnguardedChargeIsOrphaned`). A run is
  written over by the survey exactly when its runner is alive, idle and has no ask
  pending (`Orphans.SurveyDisplacesIffIdle`), and by an answer exactly when it is
  `block` to an ask of its item (`Orphans.AnswerDisplacesIffBlock`): `answer` has no
  in-flight check. A runner's stall after a failed setup also writes over its run,
  which never ran and is not charged. A spend row whose commit fails and is redone by
  a later bookkeeping turn is charged after its run row.
- A confirmed passage can be dropped by a later rescan: when its queue is re-entered
  and only then passed, the rejected stay reads as confirmed until the open one is
  left (`Gates.ReentryDropsThePassage`, `Capture.ReentryRecordsARejection`). This is
  the only way (`Gates.SafeIffNotReentered`).
- `ceilings` can give the first step a negative amount. It does not exactly when the
  first share and the others' fractional parts make up a cent for each other share
  that rounds up (`Plan.FirstCeilingIsNaturalIff`). A first share above half a cent
  for every step past the third is enough (`Plan.FirstCeilingIsNatural`), and at that
  bound it fails, for four steps and for five (`Plan.FourStepsAtTheBound`,
  `Plan.FiveStepsAtTheBound`).

## Model

| member | source | states |
|---|---|---|
| ReadLedger.Latest | tools/factory/conductor.py:478-485 | the loop over an item's asks finds the last answer row of the ledger to one of them, and drops it when it is not after the position given |
| ReadLedger.ReadItem | tools/factory/conductor.py:526-559 | an item's view built from its grouped rows equals the view defined by scanning the whole ledger backward |
| ReadLedger.GroupRows | tools/factory/conductor.py:576-585 | one pass yields the first plan row, each ask's latest answer with its position, and every item's rows in order |
| ReadLedger.OldestUnanswered | tools/factory/conductor.py:592-596 | the first ask row no answer names, or none |
| ReadLedger.ReadView | tools/factory/conductor.py:562-598 | plan, answers, next ask and every item's view agree with their direct definitions; the items are the planned and the grouped ones |
| View.Frame | tools/factory/conductor.py:583-585 | appending a row that is not the plan, not the item's and no answer to its asks leaves the item's view unchanged |
| View.FrameMany | tools/factory/conductor.py:576-591 | the same of any number of rows with no answer and no plan among them |
| View.ViewDependsOnlyOnOwnRows | tools/factory/conductor.py:562-598 | the view is a function of the plan row, the item's rows and the answers to its asks, position-ordered fields included |
| View.SameOwnRowsSameView | tools/factory/conductor.py:562-598 | two ledgers with the same such rows give the item the same view |
| Meaning.PlanIsFirst | tools/factory/conductor.py:576-580 | the plan read is the first plan row of the ledger, and none only when there is none |
| Meaning.PendingIff | tools/factory/conductor.py:533-534 | an item has a pending ask exactly when some ask row of it is named by no answer row |
| Meaning.GateIff | tools/factory/conductor.py:478-555 | the gate reads a choice exactly when the last answer in the ledger to one of the item's gate asks is that choice |
| Meaning.ResumedIff | tools/factory/conductor.py:540-547 | a stall is resumed by a choice exactly when the last answer to a stall ask of the item came after its last state row, which is to stalled, and is that choice |
| Meaning.RunningIff | tools/factory/conductor.py:536-548 | an item is in flight exactly when its last state row names a run that no run row of it carries |
| Meaning.StandsIff | tools/factory/conductor.py:526-559 | an item stands where its last state row in the ledger took it, planned without one |
| Meaning.AuthorsAre | tools/factory/conductor.py:556-557 | an id is an author run exactly when some run row of the item with a step other than review carries it |
| Meaning.QueueShowsTheOldest | tools/factory/conductor.py:592-596 | the queue shows the ask before which every ask is answered, and nothing exactly when all are |
| Consent.OwnMergesAre | tools/factory/conductor_consent.py:46-60 | the item's own consents are exactly its merge asks answered `merge` |
| Consent.TrainsAre | tools/factory/conductor_consent.py:46-60 | its trains are exactly the merge asks covering it answered `train` |
| Consent.CoveredIsConsented | tools/factory/conductor_consent.py:91-109 | a covered item has its own merge answer, a train answer covering it, or a standing row in the ledger |
| Consent.GateFilesNeedTheOwner | tools/factory/conductor_consent.py:63-109 | an item whose branch changes gate files is covered only by its own merge answer, or by a train with everything ahead of it merged where some gate ask of the item, answered `approve`, names each changed file with that very blob; standing consent never covers it |
| Consent.ApprovedAtAnAsk | tools/factory/conductor_consent.py:63-72 | every blob the loop over the asks approved stands in a gate ask answered `approve` |
| Covers.OwnAnswerCovers | tools/factory/conductor_consent.py:91-101 | an item whose own merge ask was answered `merge` is covered for every set of changed gate files and every policy |
| Covers.TrainCovers | tools/factory/conductor_consent.py:75-103 | with no own answer, the latest train listing it covers it exactly when everything listed ahead has merged and each changed gate file's last approved blob is that one; it waits exactly when something ahead has not merged |
| Covers.StandingCoversIff | tools/factory/conductor_consent.py:104-128 | with neither, a standing row covers it exactly when the policy is on and no gate file changed |
| Covers.CoverIff | tools/factory/conductor_consent.py:91-109 | the reading is covered exactly in those three cases |
| Covers.ApprovedIff | tools/factory/conductor_consent.py:63-72 | the blob read as approved for a path is that of the last approved gate ask naming the path |
| Protocol.LawfulExtends | tools/factory/conductor.py:434-459 | appending rows each admissible after the ones before it keeps a ledger lawful |
| Protocol.LawfulPrefix | tools/factory/conductor.py:434-459 | every prefix of a lawful ledger is lawful and every row was admissible where it was written |
| Protocol.LawfulIffExtends | tools/factory/conductor.py:434-459 | rows written onto a lawful ledger leave it lawful exactly when they extend it |
| Protocol.RowsShaped | tools/factory/conductor_flow.py:179-193 | every state and run row of a lawful ledger carries the fields its state documents; only a row back to build enters a step without a run id |
| Protocol.DeliveredIsLaunched | tools/factory/conductor_flow.py:256-266 | the delivered run is a completed run of the item whose id one of its launches of the stalled step carries |
| Protocol.UnknownOnlyBlocks | tools/factory/conductor_flow.py:132-141 | an item off the plan is only ever planned or blocked |
| Rules.LegalIff | tools/factory/conductor_flow.py:111-176 | both ways, for every ledger: a move is legal exactly when the rows show the documented way followed, every ask of the item answered, the gate approved, no run out, and a stall left only for the stalled state on a retry answer or for merged on its own |
| Rules.NoMoveOverAnAsk | tools/factory/conductor_flow.py:132-176 | in every lawful ledger no launch, and no other state row but to stalled, blocked or merged, stands where an ask of its item was unanswered, and none but to stalled or blocked where its run was out |
| Rules.DeliveredIff | tools/factory/conductor_flow.py:238-266 | the delivered run is the completed one that the last launch or resume of the stalled step names, and only for a delivery failure |
| Walk.StatesChain | tools/factory/conductor_flow.py:184-193 | each state row's `from` is the previous row's `to`, the first one's is planned |
| Walk.WalkIsDocumented | tools/factory/conductor_flow.py:94-176 | with stalls and the resumes that end them erased, the states walk the documented edges, with at most one return from review to build |
| Walk.VisitBounds | tools/factory/conductor_flow.py:94-108 | a documented walk visits each state but build at most once, verify and review once more per return |
| Walk.EachStateOnce | tools/factory/conductor_flow.py:94-108 | in every lawful ledger an item is specified, gated, shipped and merged at most once, verified and reviewed at most twice |
| Walk.FeatureBuildsAreApproved | tools/factory/conductor_flow.py:157-161 | a feature whose walk has reached build has an `approve` answer to one of its gate asks |
| Walk.NoBuildBeforeApproval | tools/factory/conductor_flow.py:157-161 | no row sends a feature to build unless that answer stands earlier in the ledger |
| Walk.AnswersNameAsks | tools/factory/conductor.py:624-641 | ask ids run from one to the ask count and no answer names a later ask |
| Walk.ResumesAreAnswered | tools/factory/conductor_flow.py:111-129 | resumes so far, plus one while a retry answer is unspent, never exceed the retry and retry-up answers to the item's stall asks |
| Walk.NothingRetriesUnanswered | tools/factory/conductor_flow.py:111-129 | an item leaves stalled for the state it stalled in at most as often as its stall asks were answered retry or retry-up |
| Walk.MergeAllowedMeans | tools/factory/conductor_merge.py:52-115 | an empty refusal list means a reviewed-pass row whose reviewer run is none of the authors it records nor carried by any non-review run row of the item, and some consent in the rows |
| Walk.RecordedAuthorsAre | tools/factory/conductor_flow.py:394-425 | the author runs a reviewed row names are exactly the ids of the non-review run rows the ledger held when it was written |
| Merges.MergeAllowedIff | tools/factory/conductor_merge.py:52-123 | both ways: `merge` is let through exactly when the item is planned, its last review passed a named head by a run that no author row or list carries, its ship run completed, the move is legal and it is covered |
| Walk.MergeTurnsAreConsented | tools/factory/conductor_merge.py:709-763 | every row to merging stands on a ledger that shows that review and that consent |
| Walk.MergeEvidenceStays | tools/factory/conductor_merge.py:709-763 | a passed review by none of the authors, and a consent, outlive any admissible rows written after them, so reading them before the turn's own row does no harm |
| Walk.MergedIsReviewedAndConsented | tools/factory/conductor_merge.py:709-763 | a row from merging to merged follows a turn that began with a passed review by none of its authors and some consent, and both still stand where it is written |
| Walk.MergedFrom | tools/factory/conductor_landed.py:38-71 | merged is reached only from merging, from blocked, or from stalled with the Owner's `merged` answer |
| Offers.StepIsLegal | tools/factory/conductor_flow.py:615-650 | the step offered for one item is a legal move of that item |
| Offers.OfferedViewIsKept | tools/factory/conductor_flow.py:653-682 | an item offered a step reads the same after all of the survey's rows as before them |
| Offers.OffersAreLegal | tools/factory/conductor_flow.py:594-682 | in every lawful ledger, every item and step the survey offers is a move `transition_problems` accepts on the ledger its rows leave, whatever run id and pid it carries |
| Due.PutForwardIffDue | tools/factory/conductor_flow.py:500-650 | both ways, in every lawful ledger: a planned item is put forward for a step exactly when its state, answers, finished run and read facts call for that step |
| Due.OffersAreTheFirstDue | tools/factory/conductor_flow.py:653-682 | what is offered is none while dispatch is held, else the first of all that is due, in plan order, as many as the cap leaves room for beside the live runs |
| Due.OfferedIffDue | tools/factory/conductor_flow.py:653-682 | an offered step is due, and a due step is offered when dispatch is not held and there is room for all |
| Due.VerifyOnlyWhatIsBuilt | tools/factory/conductor_flow.py:524-530 | no feature or fix in build is offered verify while a breakdown row is unbuilt, nor a further build with none left |
| Due.NothingOnUnreadFacts | tools/factory/conductor_flow.py:500-542 | a finished spec, ship, or non-order build whose facts were not read is offered nothing and moved nowhere |
| Due.SurveyMoves | tools/factory/conductor_flow.py:545-682 | in every lawful ledger a survey leaves each planned item exactly where it must: merged on the Owner's word, stalled over a PR merged elsewhere, at its gate with the gate ask, stalled for a dead or silent runner or a lost merge turn with their run row and ask, or unmoved |
| Offers.ShippedWasReviewed | tools/factory/conductor_merge.py:52-78 | an item standing in ship meets the reviewed precondition |
| Offers.CoverStays | tools/factory/conductor_consent.py:91-109 | rows that answer no ask and raise no merge ask keep a covered item covered |
| Offers.ConsentCovers | tools/factory/conductor_flow.py:500-542 | the standing row the survey writes covers its item, gate files absent |
| Offers.MergeOffersAreAllowed | tools/factory/conductor_merge.py:104-123 | when the survey offers merge for an item in ship, `merge_problems` on the resulting ledger with the same blobs and policy is empty |
| Commands.StallIsLawfulIffOpen | tools/factory/conductor_flow.py:338-346 | an unguarded stall's rows are lawful exactly when the item is neither terminal nor stalled |
| Commands.QueueStallAlwaysStalls | tools/factory/conductor_flow.py:338-383 | an unguarded stall never fails: in whatever state a plan item is, it ends stalled |
| Effects.QueuedStallLeaves | tools/factory/conductor_flow.py:210-383 | a queued stall leaves the item stalled from where it stood, for its cause, with one new ask advised as given |
| Effects.MoveIsRecorded | tools/factory/conductor_flow.py:184-193 | a move is written exactly when it is accepted, as that one state row |
| Effects.OptionsAre | tools/factory/conductor_flow.py:196-229 | a stall offers retry and block, and retry-up exactly below the top band and not for a delivery failure |
| Effects.PolicyIs | tools/factory/conductor.py:501-524 | a step keeps its planned ceiling and band; only the step a retry-up answer resumes runs one band up |
| Effects.LostRunIs | tools/factory/conductor_flow.py:567-578 | a lost run is closed under its launch's id and pid, at the band of its step's policy on the rows before that launch |
| BlockedFlight.UnguardedStallReopensBlocked | tools/factory/conductor_run.py:653-676 | row by row what the commands write: a build launched, blocked by an answer while it flew, closed by its run row; the stall the failed run queues takes the item out of blocked, unlawfully |
| Commands.NextRunIsFresh | tools/factory/conductor_run.py:496-525 | the next run id of a step is numbered past every launch of it |
| Effects.LaunchesAreNumbered | tools/factory/conductor_run.py:569-578 | in every lawful ledger the launches of a step carry run ids numbered one, two, three |
| Effects.LaunchedIff | tools/factory/conductor_run.py:496-525 | a step is launched exactly when the move is accepted and spend, every run out and this run fit the cap, refused exactly when it is not accepted |
| Effects.PausedHoldsDispatch | tools/factory/conductor_run.py:461-525 | a launch over the cap leaves dispatch held, by its own pause ask or the batch ask still unanswered |
| Commands.LaunchExtends | tools/factory/conductor_run.py:496-525 | a launch row, or the pause that holds it, is lawful |
| Commands.VerdictExtends | tools/factory/conductor_flow.py:394-425 | a verdict's rows are lawful unless it is a second `changes` on an item that is terminal or stalled by then, and only so |
| Effects.PassIsRecorded | tools/factory/conductor_flow.py:394-425 | a pass is recorded exactly when accepted, naming reviewer, head and every non-review run row of the item as author |
| Effects.ChangesSendBackOnce | tools/factory/conductor_flow.py:394-425 | the first request for changes returns the item to build without a run id; after that one stalls it and advises to block |
| Commands.BeginMergeExtends | tools/factory/conductor_merge.py:709-763 | the merging row the precondition lets through is lawful |
| Commands.AnswerExtends | tools/factory/conductor.py:652-700 | an answer, and the blocked row a `block` answer brings, are lawful |
| Effects.AnswerLeaves | tools/factory/conductor.py:652-700 | an answer is taken exactly when the ask exists, is unanswered and offers the choice; `block` leaves an open item blocked with the cause it stalled for, else the Owner's |
| Effects.RaisedCanBeAnswered | tools/factory/conductor.py:624-700 | an ask raised by the grammar can be answered as it recommends |
| Commands.BookkeepingExtends | tools/factory/conductor_next.py:276-317 | a bookkeeping turn resumes the completed run's step under its own id, and stalls it again when delivery fails again, lawfully |
| Commands.RetryBookkeepingExtends | tools/factory/conductor_next.py:276-317 | so do all due items in turn, each on the rows written before it |
| Turns.BookkeepingLeaves | tools/factory/conductor_next.py:276-317 | delivered, the item is back in its step, finished under the completed run; failed again, it is stalled there for the delivery without a band up on offer |
| Turns.DueIsRedone | tools/factory/conductor_next.py:400-454 | `next` redoes so the bookkeeping of every planned item it is due for whose issue reads open |
| Turns.DueIsHeld | tools/factory/conductor_next.py:400-454 | and holds every other due item behind its clarify ask, where it stood |
| Turns.NotDueIsLeft | tools/factory/conductor_next.py:400-454 | and touches no item whose bookkeeping is not due |
| Commands.ClarifyExtends | tools/factory/conductor_next.py:209-230 | each clarify ask holds back one offer of a closed or unread issue and is lawful; a merge turn is never held |
| Turns.ClarifySplits | tools/factory/conductor_next.py:194-230 | every offer is launched, exactly when its issue reads open or it is a merge turn, or else held by one clarify ask, which advises to block a closed issue's item |
| Commands.SurveyExtends | tools/factory/conductor_flow.py:653-682 | all rows one survey writes are lawful, in order |
| Turns.HeldMeans | tools/factory/conductor_flow.py:428-439 | dispatch is held exactly while a batch ask other than a merge ask is unanswered, declined or stopped |
| Turns.StreakIs | tools/factory/conductor_flow.py:442-452 | the failure streak counts the failed runs since the last completed run or pause |
| Turns.HeldIff | tools/factory/conductor_flow.py:653-682 | after a survey dispatch is held exactly when it was before, or three runs in a row have failed |
| Commands.AdvanceExtends | tools/factory/conductor_next.py:400-454 | bookkeeping, survey and clarify rows together are lawful |
| Commands.LaunchIsLegal | tools/factory/conductor_next.py:400-454 | what `next` launches is legal after its clarify asks too |
| Commands.AdvanceLaunchIsLegal | tools/factory/conductor_next.py:400-454 | every launch of a whole `next` is legal on the ledger it leaves |
| Turns.AdvanceLaunchIsDue | tools/factory/conductor_next.py:400-454 | and is the step its item is due on that ledger, by the same rule |
| Commands.AdvanceMergeIsAllowed | tools/factory/conductor_next.py:400-454 | every merge turn a whole `next` launches for an item in ship meets the merge precondition on the ledger it leaves |
| Commands.AllowedMergeBegins | tools/factory/conductor_merge.py:726-752 | a merge turn whose precondition holds is not refused its merging row |
| Batch.BatchLedger.Open | tools/factory/conductor_plan.py:400-459 | a batch opens lawful: the plan row, each planned item's own reserve rows, the spend ask |
| Batch.BatchLedger.Append | tools/factory/conductor.py:434-459 | the one write: the rows grow by rows that extend them lawfully |
| Batch.BatchLedger.RaiseAsk | tools/factory/conductor.py:624-649 | an ask with the next id is appended, or refused unwritten exactly when it offers nothing, offers or covers something twice, or recommends what it does not offer |
| Batch.BatchLedger.AnswerAsk | tools/factory/conductor.py:652-700 | an answer is appended, or refused unwritten from a Worker, for an unknown or answered ask, or for a choice not offered |
| Batch.BatchLedger.LaunchStep | tools/factory/conductor_run.py:496-525 | launched within the cap, paused over it, or refused exactly when the move is not accepted: never over an unanswered ask or a run still out; the ledger stays lawful |
| Batch.BatchLedger.FinishRun | tools/factory/conductor_run.py:653-672 | the run row of a launch with none yet keeps the ledger lawful |
| Batch.BatchLedger.RecordVerdict | tools/factory/conductor_flow.py:394-425 | the verdict's rows are appended or refused whole, a pass naming as authors exactly the item's non-review run rows; the ledger stays lawful exactly unless it is a second `changes` on an item that no longer stood open |
| Batch.BatchLedger.QueueStall | tools/factory/conductor_flow.py:338-383 | the stall is written whatever state the item is in; the ledger stays lawful exactly when it stood open |
| Batch.BatchLedger.BeginMerge | tools/factory/conductor_merge.py:709-763 | a merge turn begins exactly when its precondition, told of the rows, is met |
| Batch.BatchLedger.RecordMerged | tools/factory/conductor_merge.py:709-763 | merged is recorded exactly when the move is accepted, else refused |
| Batch.BatchLedger.Renumber | tools/factory/conductor_merge.py:622-648 | the check's reserve rows are appended, nothing when it stalls |
| Batch.BatchLedger.Next | tools/factory/conductor_next.py:400-454 | one `next` appends its rows lawfully, and on the ledger it leaves every launch is legal and is the step its item is due, and every merge turn of an item in ship meets its precondition |
| Batch.BatchLedger.Close | tools/factory/conductor_close.py:494-508 | the close row and the closing merge ask |
| Spend.InFlightUsd | tools/factory/conductor_run.py:449-458 | the accumulated total is the sum of the ceilings of the items in flight |
| Spend.LaunchKeepsBalance | tools/factory/conductor_run.py:496-525 | a launch checked against the cap exposes at most what was left of it |
| Spend.ChargeKeepsBalance | tools/factory/conductor_run.py:410-432 | a run's charge, at most its ceiling, moves exposure into spend, and is orphaned when the run is no longer in flight |
| Spend.CapHolds | tools/factory/conductor_run.py:449-525 | in every run, month spend plus uncharged in-flight ceilings stays within the cap plus what orphaned runs were charged |
| Spend.SpendStaysUnderCap | tools/factory/conductor_run.py:449-525 | so the figure the launch check reads is over the cap by no more than orphaned charges and runs already charged but not yet closed |
| Spend.FigureIsDue | tools/factory/conductor_run.py:449-458 | in every run that figure is exactly spend, uncharged in-flight ceilings and what the runs in flight are charged already |
| Orphans.InFlightIff | tools/factory/conductor.py:526-559 | in every lawful ledger a launched run is in flight exactly until its run row is in or a state row of its item was written over it |
| Orphans.OnlyStallsAndBlocksDisplace | tools/factory/conductor_flow.py:132-176 | of all admissible state rows only a stall or a block is written over a run in flight |
| Orphans.SurveyDisplacesIffIdle | tools/factory/conductor_flow.py:545-682 | a whole survey writes over a run in flight exactly when its runner is alive, past twice its wall clock, and no ask of its item is pending; a dead runner's run row goes first |
| Orphans.AnswerDisplacesIffBlock | tools/factory/conductor.py:652-700 | an answer writes over a run in flight exactly when it is `block` to an ask of its item |
| Orphans.NothingOrphanedIff | tools/factory/conductor_run.py:449-525 | over any run of launches, charges and rows nothing is orphaned if and only if every charge above zero is of a run with no run row and nothing written over it |
| Orphans.ChargeIsDueUnlessCounted | tools/factory/conductor_run.py:410-432 | a charge leaves spend plus uncharged in-flight ceilings as it was when its run still counts, and raises it by its whole cost otherwise |
| Orphans.StepStaysWithinIff | tools/factory/conductor_run.py:410-525 | a launch, charge, row or new month taken from within the cap stays within it exactly when its charge, if any, counts or fits |
| Orphans.CapIsKeptIff | tools/factory/conductor_run.py:449-525 | over any run, month spend plus uncharged in-flight ceilings stays within the cap throughout if and only if every charge is of a run that still counts, or fits what is left of the cap when it is made |
| Orphans.CapIsKept | tools/factory/conductor_run.py:449-525 | then the figure the launch check reads is within the cap too, once no run in flight is charged |
| Orphans.DueCanBeSpent | tools/factory/conductor_run.py:410-432 | while no run in flight is charged yet, the run can go on with charges of runs that count only, until the spend is exactly what was due: past the cap whenever that was |
| Orphans.GuardsKeepTheCap | tools/factory/conductor_run.py:449-525 | so with no state row written over a run in flight, and every run charged before its run row, the cap holds in every run |
| Orphans.UnguardedChargeIsOrphaned | tools/factory/conductor_run.py:449-525 | conversely, after a row that breaks either guard the run can still be charged, and its whole charge is orphaned |
| IdleStall.IdleStallPassesTheCap | tools/factory/conductor_flow.py:545-564 | a concrete run whose spend ends at twice the cap, the excess being exactly one orphaned run |
| IdleStall.IdleStallIsSurveyed | tools/factory/conductor_flow.py:545-564 | its stall and ask are exactly what the idle branch, and the whole survey, write for the live runner past its wall clock |
| IdleStall.AnswerAndLaunchesAreWritten | tools/factory/conductor_run.py:496-525 | its answer row is what the Owner's retry writes and both launch rows what the launch check lets through |
| WholeBatch.FirstStepIsOffered | tools/factory/conductor_flow.py:615-682 | a fresh one-order plan is lawful and the survey offers its build |
| WholeBatch.OrderIsMerged | tools/factory/conductor_flow.py:594-682 | a concrete lawful run takes an order from plan to merged; in it the survey offers the merge turn on a ledger that meets every precondition of the agreement results |
| Cycles.NormalizedIsReport | scripts/check-circular-deps.js:72-87 | a path closed by an edge, rotated to its smallest name, is a simple cycle over dependency edges with the same packages |
| Cycles.LeqIsLexicographic | scripts/check-circular-deps.js:76-82 | smallest means first in lexicographic order |
| Cycles.RotatedReportsAreEqual | scripts/check-circular-deps.js:76-86 | two reports that are rotations of one another are equal |
| Cycles.Search.Report | scripts/check-circular-deps.js:72-87 | a back edge adds its cycle once and forgets no other |
| Cycles.Search.Dfs | scripts/check-circular-deps.js:71-98 | the search restores the path, only grows visited and cycles, terminates, and leaves every package it finished with its dependencies visited and its edge back to the root reported |
| Cycles.FindCycles | scripts/check-circular-deps.js:64-105 | a package is in a report exactly when it lies on a dependency cycle; reports are simple, follow edges, start at their smallest name, and none is a rotation of another |
| Cycles.JoinIsInjective | scripts/check-circular-deps.js:80-86 | equal report texts are equal reports while no name holds the arrow |
| Closure.Enqueue | scripts/check-env-sync.js:148-160 | one directory's unvisited workspace dependencies are visited and queued, keeping the search's invariants |
| Closure.ResolveDependencyClosure | scripts/check-env-sync.js:137-164 | exactly the workspace directories reachable from the start, without the start, for every graph; the queue loop ends |
| Gates.CompletedStays | tools/factory/human_gates.py:187-229 | the event walk and the matching of passes yield the stays of the recursive definition |
| Gates.SpansAre | tools/factory/human_gates.py:204-214 | the queue was stayed in exactly from each time its label went on to the next time it came off |
| Gates.StayIs | tools/factory/human_gates.py:215-229 | a stay is confirmed exactly when its pass label went on from its start up to the next stay's; it ends at the first such label or where the queue label came off, whichever was first |
| Gates.StaysInOrder | tools/factory/human_gates.py:206-229 | completed stays are in order and disjoint, each with start no later than end |
| Gates.PassConfirmsOneStay | tools/factory/human_gates.py:218-229 | a pass label falls in the window of at most one stay, and confirms it |
| Gates.StaysPartition | tools/factory/human_gates.py:232-250 | passages and rejections partition the completed stays as multisets |
| Gates.PassagesAreOfTheGates | tools/factory/human_gates.py:232-239 | the passages are exactly the confirmed stays of the prd, blueprint and merge queues under their own labels, waited from start to end |
| Gates.WaitsAreWhole | tools/factory/human_gates.py:232-239 | no passage has a negative wait |
| Gates.ConfirmedStaysStay | tools/factory/human_gates.py:187-239 | a strictly later history leaves a confirmed stay as it was, unless it was confirmed by a re-entry |
| Gates.ReentryDropsThePassage | tools/factory/human_gates.py:218-229 | in that case a later history in which the stay is confirmed no longer |
| Gates.SafeIffNotReentered | tools/factory/human_gates.py:187-239 | every later history keeps every confirmed stay if and only if the gate is not confirmed by a re-entry |
| Gates.PassagesStay | tools/factory/human_gates.py:232-239 | a settled history's passages, gate, wait and end, are all passages of any later one |
| Gates.PassageEndsDiffer | tools/factory/human_gates.py:218-239 | no two passages of a gate in a chronological history end at one timestamp |
| Gates.PassagesDiffer | tools/factory/human_gates.py:232-239 | gate and end together name a passage of the history |
| CostLedger.NewRowsLand | tools/factory/cost_ledger.py:258-283 | the rows landed have distinct new keys and make every handed key present |
| CostLedger.NewRowsTwice | tools/factory/cost_ledger.py:258-283 | handing the same rows over again lands nothing |
| CostLedger.FirstOfEachLands | tools/factory/cost_ledger.py:258-283 | of the rows handed over the first of each new key lands, in order, and no other |
| CostLedger.KeysAgree | tools/factory/cost_ledger.py:286-294 | two rows share a key exactly when they name one work order and one run |
| CostLedger.SoundIsDistinct | tools/factory/cost_ledger.py:410-447 | the aggregate and all run files together never repeat a key |
| CostLedger.Ledger.Recorded | tools/factory/cost_ledger.py:170-197 | a key is found exactly when some row of the aggregate or a run file has it |
| CostLedger.Ledger.Record | tools/factory/cost_ledger.py:170-197 | one row lands unless ill-shaped or recorded; existing lines stay; every month's dispatched total rises by exactly that row |
| CostLedger.Ledger.RecordIsolated | tools/factory/cost_ledger.py:209-237 | the same into the run's own file, every existing file only growing |
| CostLedger.Ledger.RecordNew | tools/factory/cost_ledger.py:258-283 | many rows land each at most once, or none when one is ill-shaped; totals rise by exactly what landed |
| Capture.CaptureRowsAre | tools/factory/gate_digest.py:127-140 | the rows handed over are exactly the gate rows of the passages of the histories read |
| Capture.RowsSayPassages | tools/factory/cost_ledger.py:83-104 | each row says of one passage its work order, gate, end, wait and month, at no cost, and every passage read is said |
| Capture.ChronologicalIsWhole | tools/factory/cost_ledger.py:97-102 | no passage of chronological histories waits a negative time |
| Capture.CaptureLatency | tools/factory/gate_digest.py:127-140 | unless a passage waits a negative time, which refuses the capture before any write, every passage's key is present after; no month's spend changes |
| Capture.EachPassageOnce | tools/factory/gate_digest.py:127-140 | after any number of daily captures, any issue read or missing on any day, chronological histories of different work orders have exactly one gate row for each confirmed passage of their latest readings, and no other row |
| Capture.EachPassageRecorded | tools/factory/gate_digest.py:127-140 | while no capture is refused and whatever the work orders, every row is a passage's of the latest readings, every such passage's identity has its row, and no two rows share one |
| Capture.OneRowEachIffKeysDiffer | tools/factory/gate_digest.py:127-140 | the rows are as many as those passages if and only if no two of them share an identity |
| Capture.PassagesHaveOwnKeys | tools/factory/gate_digest.py:127-140 | the passages of chronological histories of different work orders have different identities |
| Capture.ReentryRecordsARejection | tools/factory/gate_digest.py:127-140 | a concrete unsettled day whose capture records a passage the next day's history does not have |
| Fill.GreedyIsSplit | tools/factory/cli.py:422-430 | the filled lines hold the words in order, each line fitting or a single word |
| Fill.GreedyIsOptimal | tools/factory/cli.py:422-430 | no other in-order split into such lines uses fewer lines |
| Fill.FillLines | tools/factory/cli.py:422-430 | the lines built by extending the last one in place are the greedy lines, each after the pad |
| Pretty.FlatKeeps | tools/factory/cli.py:377-384 | the one-line form has the value's compact tokens |
| Pretty.PrettyKeeps | tools/factory/cli.py:395-419 | for every value, indent, column and tail, the layout without white space is the value's compact token sequence |
| Pretty.PrettyRuns | tools/factory/cli.py:395-419 | a value laid out from its column ends within 80 columns with the comma after it, or ends a line of at most one scalar, and so does every line inside it |
| Layout.OneLineIff | tools/factory/cli.py:377-408 | a value is printed on one line exactly when it is a scalar, empty, or an array with no full object in it, not all of whose items are long, that fits in 80 columns with the comma after it; the line is then its items joined by a comma and a space |
| Layout.ObjectText | tools/factory/cli.py:395-405 | any other object is its entries one a line, two columns in, joined by commas, and closed at its own indent |
| Layout.ArrayText | tools/factory/cli.py:406-419 | any other array is its items so |
| Layout.NumbersText | tools/factory/cli.py:409-430 | two or more numbers are greedily filled lines instead |
| Pretty.WideLinesHoldOneScalar | tools/factory/cli.py:360-419 | no line the layout completes is over 80 columns with more than one scalar on it |
| Pretty.LinesAreSplit | tools/factory/cli.py:395-419 | the lines so followed are the printed text taken apart at its newlines |
| Pretty.WidePrintedLinesHoldOneScalar | tools/factory/cli.py:360-419 | the printed text split at its newlines is those lines and a final empty one, and every line over 80 characters carries at most one scalar |
| Pretty.StripIsTokens | tools/factory/cli.py:395-419 | removing insignificant white space character by character (section 2 of RFC 8259) leaves the tokens' texts, string literals untouched |
| Pretty.PrintedTextKeepsValue | tools/factory/cli.py:360-369 | the printed text so stripped is the value's compact text |
| Plan.CeilingsSplitTheEstimate | tools/factory/conductor_plan.py:250-257 | the ceilings sum to the estimate and the first is within half a cent per other step of its weighted share |
| Plan.ItemsArePriced | tools/factory/conductor_plan.py:250-257 | every planned item is priced at its size's budget, each step by its own weight over the weights of the item's steps: to half a cent, the first to half a cent per other step |
| Plan.StepsArePriced | tools/factory/conductor_plan.py:250-277 | and so is each step of its plan entry |
| Plan.FirstCeilingIsNatural | tools/factory/conductor_plan.py:250-257 | the first ceiling is natural when its share is above half a cent for every step past the third |
| Plan.FirstCeilingIsNaturalIff | tools/factory/conductor_plan.py:250-257 | the first ceiling is natural if and only if its exact share and the other shares' fractional parts make up a cent for each other share that rounds up |
| Plan.FourStepsAtTheBound | tools/factory/conductor_plan.py:250-257 | four steps with the first share exactly half a cent give it minus one cent |
| Plan.FiveStepsAtTheBound | tools/factory/conductor_plan.py:250-257 | five steps with the first share exactly one cent give it minus one cent |
| Plan.FirstCeilingCanBeNegative | tools/factory/conductor_plan.py:250-257 | three cents over five equal steps give the first one minus one cent |
| Plan.PlanBatch | tools/factory/conductor_plan.py:296-350 | the loop over the issues computes the plan of the recursive definition; a config problem plans nothing |
| Plan.PlannedIffUntroubled | tools/factory/conductor_plan.py:296-350 | a batch is planned exactly when no issue's size lacks a budget and every planned one resolves |
| Plan.ItemsAreInOrder | tools/factory/conductor_plan.py:296-350 | the items are those of the issues that fit what is left in their turn, in issue order |
| Plan.PlanFitsTheCap | tools/factory/conductor_plan.py:312-350 | all planned ceilings sum to the batch estimate, which is at most cap minus spent once anything is planned |
| Plan.NoDeferredIssueStillFits | tools/factory/conductor_plan.py:317-328 | every issue is planned at its budget or deferred, and none deferred for cost would fit what the finished plan leaves |
| Plan.BlocksTile | tools/factory/conductor_plan.py:335-339 | the blocks of a kind take every number above the highest in use, in order, with no gap |
| Plan.TilesAreApart | tools/factory/conductor_plan.py:335-339 | so they are disjoint and all above it |
| Plan.ItemsAreDistinct | tools/factory/conductor_plan.py:498-503 | issues named once each become distinct items |
| Plan.PlansOpen | tools/factory/conductor_plan.py:400-446 | such a plan's items are distinct and its entries are what a lawful batch opens with |
| Citations.Rewrite | tools/factory/conductor_merge.py:362-371 | one substitution after another, kind by kind, is the one simultaneous renaming of the citations |
| Citations.TargetIsInjective | tools/factory/conductor_merge.py:362-371 | the renaming sends two numbers that are not new to one only if they were one |
| Citations.NothingCitesTheOld | tools/factory/conductor_merge.py:362-371 | a rewritten citation cites no moved number |
| Citations.WhichCitationsMove | tools/factory/conductor_merge.py:293-371 | an ADR citation is moved at any width it is written, another kind's only at its four digits, each keeping its width; nothing else changes |
| Citations.AddedFromThere | tools/factory/conductor_merge.py:282-290 | of equal lines the earlier ones pass for main's |
| Citations.AddedMarks | tools/factory/conductor_merge.py:282-290 | counting main's lines down marks a branch line added exactly when as many equal lines precede it as main has |
| Citations.MainKeepsItsShare | tools/factory/conductor_merge.py:282-290 | exactly as many copies of a line pass for main's as main and the branch share |
| Renumber.MaxOf | tools/factory/conductor_merge.py:348 | the largest taken number, zero for none |
| Renumber.Allocate | tools/factory/conductor_merge.py:340-359 | collided numbers move to consecutive numbers above all of main and all the batch ever reserved, or the turn stalls exactly when one would pass 9999 |
| Renumber.TurnsMoveFreshly | tools/factory/conductor_merge.py:340-359 | a turn moves distinct held numbers taken on main to distinct ones above everything on main and ever reserved |
| Renumber.MovedIff | tools/factory/conductor_merge.py:323-440 | a turn moves a number exactly when the item holds it, main holds it too, and the item cites it in a line it added or named an ADR file by it |
| Renumber.NewNumbersAreNext | tools/factory/conductor_merge.py:340-359 | the moved numbers become, in ascending order, the very next ones after the largest on main or ever reserved, none past 9999 |
| Renumber.TurnChanges | tools/factory/conductor.py:488-498 | its rows put the new numbers in the moved ones' place in the live block, leave every other block, and no number was ever reserved for two items |
| Renumber.TurnKeepsCounts | tools/factory/conductor.py:488-498 | no live block of any item and kind grows or shrinks |
| Renumber.OpenRowsHold | tools/factory/conductor_plan.py:442-446 | an opened batch's items hold exactly their planned blocks |
| Renumber.ReplayKeeps | tools/factory/conductor_merge.py:412-442 | any run of turns and other rows keeps reserved numbers with one item each and every live count |
| Renumber.BlocksStayApartAndWhole | tools/factory/conductor_merge.py:340-371 | from `plan_batch` through any such run, live blocks of different items are disjoint and each item holds exactly as many numbers per kind as its type reserves |
| Renumber.RenamingIsInjective | tools/factory/conductor_merge.py:362-371 | a turn's renaming keeps apart all numbers on main or reserved |
| Renumber.AddedCameFromAdded | tools/factory/conductor_merge.py:374-401 | a line the rewritten branch adds is the rewriting of a line the item had added |
| Renumber.NothingCollidesAfter | tools/factory/conductor_merge.py:412-442 | after a turn no number the item uses from its block is on main |
| Renumber.SecondCheckMovesNothing | tools/factory/conductor_merge.py:412-442 | so the same check again moves nothing |
| Renumber.RewriteFile | tools/factory/conductor_merge.py:389-397 | only the lines the item added are rewritten |
| Renumber.CollidedNumbers | tools/factory/conductor_merge.py:323-337 | the block's used and taken numbers, ascending |
| Renumber.ConfirmReservations | tools/factory/conductor_merge.py:412-442 | the whole check computes the moves of its definition |
| WorkOrders.FirstIsFirst | tools/factory/knowledge_plane.py:458 | the row that owns a key is the first that names it |
| WorkOrders.ProblemsAreShared | tools/factory/knowledge_plane.py:449-467 | a clash is reported for exactly the rows naming a key an earlier row owns |
| WorkOrders.ProblemIffTwoRowsShare | tools/factory/knowledge_plane.py:449-467 | a problem is reported exactly when two rows share a key |
| WorkOrders.CleanIffSoleHolder | tools/factory/knowledge_plane.py:465-466 | a row carries no clash exactly when it is the sole holder of its work order and of its issue |
| WorkOrders.Note | tools/factory/knowledge_plane.py:460-466 | a clash joins the problems and, in place, the clashes of both rows it names |
| WorkOrders.IndexRow | tools/factory/knowledge_plane.py:452-466 | one row claims its free keys and clashes on the others |
| WorkOrders.WorkOrders | tools/factory/knowledge_plane.py:445-467 | each key finds its first row's shared record, each record's clashes are those naming its row, and a clean record is found by its work order and by its issue alike |

## Left out

- Batch.BatchLedger.Open: takes items whose ceilings are natural, since a plan entry's ceiling is a natural number of cents; when `ceilings` gives one is `Plan.FirstCeilingIsNaturalIff`.
- Spend.CapHolds: bounds the spend by the cap plus orphaned charges, as the code does not keep the cap itself; exactly when it does is `Orphans.CapIsKeptIff`.
- Spend.SpendStaysUnderCap: the same bound for the figure the launch check reads.
- Orphans.CapIsKept: one way only, as the figure counts a run in flight in full beside its charge; what it adds up to is `Spend.FigureIsDue`.
- Capture.EachPassageOnce: asks that a reading be settled when its issue is read again, because an unsettled one can record a rejection as a passage, and that the work orders differ, without which two passages can share an identity.
- Pretty.WidePrintedLinesHoldOneScalar: takes dumped scalars and keys with no newline in them, as the dump escapes it.
- Offers.MergeOffersAreAllowed: asks that the standing facts were read off the same ledger, as `next` reads them.
- Git, gh, file locks, subprocesses, netrc and the harness: injected facts or one atomic step. Spend is read with the launch row and reservations with the reserve row as one step, as the lock would have it.
- Liveness: some stalls resume to a state no command runs from, so progress is not claimed.
- Texts: reasons, questions, advice, notes, build price, token counts, models, efforts and charters beyond the band a step runs at.
- Row-shape validation and JSON parsing: rows are well-typed values; a `head` is text when it is not blank.
- A `gate_blobs` fact that was not read is absent, never an empty map.
- Timestamps other than a state row's, which only the idle stall reads; the shape of `at`.
- Plugin-version reserve rows, which hold a version text and take no number.
- ADR file renames beyond their number, and the stems replaced in lines after the citations; the refusal when a renamed file already exists.
- Label, author and size rules of `plan_batch`: what an issue reads as is an input.
- Float arithmetic: money and weights are exact, weights scaled to integers; the printer takes each scalar's dumped text as given, exponents included.
- Whether prettier itself leaves the printed text unchanged.
- The order in which `gate_rejections` lists its stays, and the calendar: a timestamp is a number, a row's month a function of it.
- Run files are kept in the order they were opened; the source reads them in name order, which no stated property depends on.
- The paths, titles and blocks of breakdown rows; a row's place in the walk stands for its path and line, a WO token for its digits.
- Names are ordered by code point; the source's language compares UTF-16 units, the same order for package names.
- Cycle reports are compared as name sequences; the source compares their joined texts (`Cycles.JoinIsInjective`).
- Detectors, config readers, label sync, scorecards, calibration, digest layout, edge worker, deployment and test configuration.
