/** A run that fails after the Owner blocked its item reopens it: `blocked` is not
    terminal for the stall the runner queues. */
module BlockedFlight {
  import opened Rows
  import opened View
  import opened Flow
  import opened Protocol
  import opened Walk
  import opened Commands
  import opened IdleStall

  const CLARIFY := Ask(Some(1), 1, ClarifyAsk, [Block, Proceed], Block, [], map[])
  const BLOCK := Answer(Some(1), 1, Block)
  const BLOCKED := Move(60, 1, Build, Blocked, NO_FIELDS.(cause := Some(OwnerBlock)))
  const FAILED := Run(1, Build, Implementation, FIRST, 7, AgentFailed)

  /** Build launched, an ask raised while it runs, answered `block`, and the run row
      of the launch. */
  function BlockedRun(): Ledger {
    Failed(BlockedOver(Questioned(LAUNCHED)))
  }

  function Questioned(rows: Ledger): Ledger {
    rows + [AskRow(CLARIFY)]
  }

  function BlockedOver(rows: Ledger): Ledger {
    rows + [AnswerRow(BLOCK), StateRow(BLOCKED)]
  }

  function Failed(rows: Ledger): Ledger {
    rows + [RunRow(FAILED)]
  }

  lemma {:induction false} AskIsRaised(rows: Ledger)
    requires Reads(rows, [LAUNCH], [], map[]) && AskCount(rows) == 0 && FindAsk(rows, 1) == None
    ensures Reads(Questioned(rows), [LAUNCH], [CLARIFY], map[])
    ensures CLARIFY == NewAsk(rows, Some(1), ClarifyAsk, [Block, Proceed], Block, [], map[]) && AskOk(CLARIFY)
    ensures FindAsk(Questioned(rows), 1) == Some(CLARIFY)
  {
    InitSnoc(rows, AskRow(CLARIFY));
    SamePlan(rows, AskRow(CLARIFY));
  }

  lemma {:induction false} BlockIsAnswered(rows: Ledger)
    requires Reads(rows, [LAUNCH], [CLARIFY], map[]) && FindAsk(rows, 1) == Some(CLARIFY)
    ensures AnswerRows(rows, 60, 1, Block) == Flow.Outcome.Written([AnswerRow(BLOCK), StateRow(BLOCKED)])
    ensures Lawful(BlockedOver(rows)) && Entries(BlockedOver(rows)) == [ENTRY]
    ensures StatesOf(BlockedOver(rows), 1) == [LAUNCH, BLOCKED] && RunsOf(BlockedOver(rows), 1) == []
  {
    assert AnswerRows(rows, 60, 1, Block) == Flow.Outcome.Written([AnswerRow(BLOCK), StateRow(BLOCKED)]);
    AnswerExtends(rows, 60, 1, Block);
    LawfulExtends(rows, [AnswerRow(BLOCK), StateRow(BLOCKED)]);
    BlockReads(rows);
    PlanStays(rows);
    PlanStays(BlockedOver(rows));
    assert BlockedOver(rows)[0] == rows[0];
  }

  lemma {:induction false} BlockReads(rows: Ledger)
    requires StatesOf(rows, 1) == [LAUNCH] && RunsOf(rows, 1) == []
    ensures StatesOf(BlockedOver(rows), 1) == [LAUNCH, BLOCKED] && RunsOf(BlockedOver(rows), 1) == []
  {
    var answered := rows + [AnswerRow(BLOCK)];
    InitSnoc(rows, AnswerRow(BLOCK));
    InitSnoc(answered, StateRow(BLOCKED));
    assert BlockedOver(rows) == answered + [StateRow(BLOCKED)];
    assert StatesOf(answered, 1) == [LAUNCH] && RunsOf(answered, 1) == [];
  }

  lemma {:induction false} RunFails(rows: Ledger)
    requires Lawful(rows) && Entries(rows) == [ENTRY]
    requires StatesOf(rows, 1) == [LAUNCH, BLOCKED] && RunsOf(rows, 1) == []
    ensures RunOk(rows, FAILED) && Lawful(Failed(rows))
    ensures ViewOf(Failed(rows), 1).State() == Blocked && ViewOf(Failed(rows), 1).entry == Some(ENTRY)
  {
    assert StatesOf(rows, 1)[0] == LAUNCH;
    assert RunOk(rows, FAILED);
    InitSnoc(rows, RunRow(FAILED));
    SamePlan(rows, RunRow(FAILED));
  }

  /** The run's ledger, row by row what the commands write: launched, blocked by an
      answer while it flew, and closed by its run row. The stall the failed run then
      queues is written, and takes the item out of `blocked`. */
  lemma UnguardedStallReopensBlocked(at: int)
    ensures LaunchRows(OPENED, 0, 1, Build, 7, 0, CAP) == Launched(StateRow(LAUNCH))
    ensures CLARIFY == NewAsk(LAUNCHED, Some(1), ClarifyAsk, [Block, Proceed], Block, [], map[])
    ensures AnswerRows(Questioned(LAUNCHED), 60, 1, Block)
         == Flow.Outcome.Written([AnswerRow(BLOCK), StateRow(BLOCKED)])
    ensures RunOk(BlockedOver(Questioned(LAUNCHED)), FAILED)
    ensures Lawful(BlockedRun()) && ViewOf(BlockedRun(), 1).State() == Blocked
    ensures var out := QueueStallRows(BlockedRun(), at, 1, WorkerFailed, Retry);
      && out.Written? && |out.rows| == 2
      && ViewOf(BlockedRun() + [out.rows[0]], 1).State() == Stalled
      && !Extends(BlockedRun(), out.rows)
  {
    FirstLaunch();
    NoAskNoFailure(LAUNCHED, PlanRow([ENTRY]), LAUNCH);
    AskIsRaised(LAUNCHED);
    BlockIsAnswered(Questioned(LAUNCHED));
    RunFails(BlockedOver(Questioned(LAUNCHED)));
    QueueStallAlwaysStalls(BlockedRun(), at, 1, WorkerFailed, Retry);
    StallIsLawfulIffOpen(BlockedRun(), at, 1, WorkerFailed, Retry);
  }
}
