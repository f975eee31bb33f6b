/** The cap can be passed: a live runner stalled as idle is no longer counted in
    flight, so its retry is launched beside it and both are charged. */
module IdleStall {
  import opened Rows
  import opened View
  import opened Flow
  import opened Survey
  import opened Protocol
  import opened Walk
  import opened Commands
  import opened Offers
  import opened Spend
  import opened Orphans

  const CAP := 300
  const FIRST := RunId(1, Build, 1)
  const SECOND := RunId(1, Build, 2)

  const LAUNCH := Move(0, 1, Planned, Build, NO_FIELDS.(runId := Some(FIRST), pid := Some(7)))
  const STALL := Move(6000, 1, Build, Stalled, NO_FIELDS.(cause := Some(RunnerGone)))
  const STALL_ASK := Ask(Some(1), 1, StallAsk, [Retry, RetryUp, Block], Retry, [], map[])
  const RETRY := Answer(Some(1), 1, Retry)
  const RELAUNCH := Move(6100, 1, Stalled, Build, NO_FIELDS.(runId := Some(SECOND), pid := Some(8)))

  const OPENED: Ledger := [PlanRow([ENTRY])]
  const LAUNCHED: Ledger := OPENED + [StateRow(LAUNCH)]
  const STALLED: Ledger := LAUNCHED + [StateRow(STALL)]
  const ASKED: Ledger := STALLED + [AskRow(STALL_ASK)]
  const ANSWERED: Ledger := ASKED + [AnswerRow(RETRY)]
  const RELAUNCHED: Ledger := ANSWERED + [StateRow(RELAUNCH)]

  /** The view of item 1 in each ledger, and that the ledger is lawful. */
  ghost predicate Reads(rows: Ledger, states: seq<Move>, asks: seq<Ask>, given: map<nat, Choice>) {
    && Lawful(rows) && Entries(rows) == [ENTRY]
    && StatesOf(rows, 1) == states && RunsOf(rows, 1) == [] && AsksOf(rows, 1) == asks
    && Answers(rows) == given
  }

  lemma BuildIsFound()
    ensures FindStep(ORDER_STEPS, Build) == Some(ORDER_STEPS[0])
  {
    var s3, s2, s1 := ORDER_STEPS[..3], ORDER_STEPS[..2], ORDER_STEPS[..1];
    assert Init(ORDER_STEPS) == s3 && Init(s3) == s2 && Init(s2) == s1;
    assert FindStep(s1, Build) == Some(ORDER_STEPS[0]);
    assert FindStep(s2, Build) == Some(ORDER_STEPS[0]);
    assert FindStep(s3, Build) == Some(ORDER_STEPS[0]);
  }

  lemma BuildPolicy(v: ItemView)
    requires v.entry == Some(ENTRY)
    ensures CeilingOf(v, Build) == 300
  {
    BuildIsFound();
  }

  lemma EntryRead(rows: Ledger, states: seq<Move>, asks: seq<Ask>, given: map<nat, Choice>)
    requires Reads(rows, states, asks, given)
    ensures ViewOf(rows, 1).entry == Some(ENTRY)
  {
  }

  lemma {:induction false} InFlightOfOne(rows: Ledger)
    requires Entries(rows) == [ENTRY]
    ensures InFlightCents(rows, Entries(rows)) == FlightCents(ViewOf(rows, 1))
  {
    assert Init([ENTRY]) == [];
  }

  lemma Opened()
    ensures Reads(OPENED, [], [], map[])
  {
    assert Init(OPENED) == [];
    assert StepNames(ORDER_STEPS) == ItemSteps(Order);
    assert Lawful(OPENED);
    PlanStays(OPENED);
  }

  lemma FirstLaunch()
    ensures LaunchRows(OPENED, 0, 1, Build, 7, 0, CAP) == Launched(StateRow(LAUNCH))
    ensures Reads(LAUNCHED, [LAUNCH], [], map[])
  {
    Opened();
    EntryRead(OPENED, [], [], map[]);
    BuildPolicy(ViewOf(OPENED, 1));
    InFlightOfOne(OPENED);
    LaunchExtends(OPENED, 0, 1, Build, 7, 0, CAP);
    InitSnoc(OPENED, StateRow(LAUNCH));
    SamePlan(OPENED, StateRow(LAUNCH));
  }

  lemma Asked()
    ensures Reads(ASKED, [LAUNCH, STALL], [STALL_ASK], map[])
    ensures Admissible(LAUNCHED, StateRow(STALL)) && Admissible(STALLED, AskRow(STALL_ASK))
  {
    FirstLaunch();
    EntryRead(LAUNCHED, [LAUNCH], [], map[]);
    assert AskCount(OPENED) == 0 by { assert Init(OPENED) == []; }
    InitSnoc(OPENED, StateRow(LAUNCH));
    InitSnoc(LAUNCHED, StateRow(STALL));
    SamePlan(LAUNCHED, StateRow(STALL));
    assert Reads(STALLED, [LAUNCH, STALL], [], map[]);
    InitSnoc(STALLED, AskRow(STALL_ASK));
    SamePlan(STALLED, AskRow(STALL_ASK));
  }

  lemma IdleStalled()
    ensures Admissible(LAUNCHED, StateRow(STALL)) && Admissible(STALLED, AskRow(STALL_ASK))
    ensures Admissible(ASKED, AnswerRow(RETRY))
    ensures Reads(ANSWERED, [LAUNCH, STALL], [STALL_ASK], map[1 := Retry])
  {
    Asked();
    assert AskRow(STALL_ASK) in ASKED && Retry in STALL_ASK.options;
    InitSnoc(ASKED, AnswerRow(RETRY));
    SamePlan(ASKED, AnswerRow(RETRY));
  }

  lemma {:induction false} AnswerResumes(rows: Ledger, a: Answer, item: Item)
    requires StatesOf(rows, item) != [] && Last(StatesOf(rows, item)).to == Stalled
    requires a.ask in IdsOf(AsksOf(rows, item), StallAsk)
    ensures ViewOf(rows + [AnswerRow(a)], item).resumed == Some(a.choice)
  {
    InitSnoc(rows, AnswerRow(a));
  }

  lemma {:induction false} AnsweredIsNotPending(rows: Ledger, item: Item, a: Ask)
    requires AsksOf(rows, item) == [a] && a.id in Answers(rows)
    ensures ViewOf(rows, item).pending.None?
  {
    assert Init(AsksOf(rows, item)) == [] && Last(AsksOf(rows, item)) == a;
    assert FirstUnanswered([], Answers(rows)) == None;
  }

  lemma RetryResumes()
    ensures ViewOf(ANSWERED, 1).resumed == Some(Retry)
  {
    Asked();
    var asks := AsksOf(ASKED, 1);
    assert STALL_ASK in asks;
    assert RETRY.ask in IdsOf(asks, StallAsk);
    AnswerResumes(ASKED, RETRY, 1);
  }

  lemma RetryIsRead()
    ensures ViewOf(ANSWERED, 1).pending.None? && ViewOf(ANSWERED, 1).resumed == Some(Retry)
  {
    RetryResumes();
    assert AsksOf(ANSWERED, 1) == [STALL_ASK] && STALL_ASK.id in Answers(ANSWERED) by {
      IdleStalled();
    }
    AnsweredIsNotPending(ANSWERED, 1, STALL_ASK);
  }

  /** A retry answered after a lost runner resumes its step by a launch. */
  lemma RetryIsLegal(v: ItemView, fields: Fields)
    requires v.entry.Some? && v.states != [] && Last(v.states).to == Stalled && Last(v.states).from == Build
    requires Last(v.states).fields.cause != Some(DeliveryFailed)
    requires v.pending.None? && v.resumed == Some(Retry)
    ensures Legal(v, Build, fields)
  {
  }

  lemma LaunchWithin(rows: Ledger, at: int, pid: nat, number: nat)
    requires Entries(rows) == [ENTRY] && ViewOf(rows, 1).entry == Some(ENTRY)
    requires !ViewOf(rows, 1).InFlight() && NextRun(ViewOf(rows, 1), Build) == RunId(1, Build, number)
    requires Legal(ViewOf(rows, 1), Build, NO_FIELDS.(runId := Some(RunId(1, Build, number)), pid := Some(pid)))
    ensures LaunchRows(rows, at, 1, Build, pid, 0, CAP)
         == Launched(StateRow(Move(at, 1, ViewOf(rows, 1).State(), Build,
                                   NO_FIELDS.(runId := Some(RunId(1, Build, number)), pid := Some(pid)))))
  {
    BuildPolicy(ViewOf(rows, 1));
    InFlightOfOne(rows);
  }

  lemma SecondLaunchRow()
    ensures LaunchRows(ANSWERED, 6100, 1, Build, 8, 0, CAP) == Launched(StateRow(RELAUNCH))
  {
    RetryIsRead();
    assert StatesOf(ANSWERED, 1) == [LAUNCH, STALL] && Entries(ANSWERED) == [ENTRY] by { IdleStalled(); }
    var v := ViewOf(ANSWERED, 1);
    assert v.entry == Some(ENTRY) by { IdleStalled(); }
    assert LaunchCount(v.states, Build) == 1 by {
      assert Init(v.states) == [LAUNCH] && Init([LAUNCH]) == [];
      assert LaunchCount([LAUNCH], Build) == 1;
    }
    RetryIsLegal(v, RELAUNCH.fields);
    LaunchWithin(ANSWERED, 6100, 8, 2);
  }

  lemma SecondLaunch()
    ensures Lawful(RELAUNCHED) && ViewOf(RELAUNCHED, 1).entry == Some(ENTRY)
    ensures StatesOf(RELAUNCHED, 1) == [LAUNCH, STALL] + [RELAUNCH]
  {
    SecondLaunchRow();
    IdleStalled();
    LaunchExtends(ANSWERED, 6100, 1, Build, 8, 0, CAP);
    InitSnoc(ANSWERED, StateRow(RELAUNCH));
    SamePlan(ANSWERED, StateRow(RELAUNCH));
  }

  function Trace(): seq<Books> {
    [Books(OPENED, 0, map[], 0),
     Books(LAUNCHED, 0, map[], 0),
     Books(STALLED, 0, map[], 0),
     Books(ASKED, 0, map[], 0),
     Books(ANSWERED, 0, map[], 0),
     Books(RELAUNCHED, 0, map[], 0),
     Books(RELAUNCHED, 300, map[SECOND := 300], 0),
     Books(RELAUNCHED, 600, map[SECOND := 300, FIRST := 300], 300)]
  }

  lemma ChargeLaunched(b: Books, m: Move, orphan: bool)
    requires m in StatesOf(b.rows, 1) && m.to == Build && m.fields.pid.Some? && m.fields.runId.Some?
    requires m.fields.runId.value.item == 1 && m.fields.runId.value.step == Build
    requires m.fields.runId.value !in b.charged && ViewOf(b.rows, 1).entry == Some(ENTRY)
    requires orphan <==> !InFlightRun(b.rows, m.fields.runId.value)
    ensures Next(b, Books(b.rows, b.spent + 300, b.charged[m.fields.runId.value := 300],
                          if orphan then b.orphaned + 300 else b.orphaned), CAP)
  {
    BuildPolicy(ViewOf(b.rows, 1));
    assert Charges(b, Books(b.rows, b.spent + 300, b.charged[m.fields.runId.value := 300],
                            if orphan then b.orphaned + 300 else b.orphaned), m.fields.runId.value, 300);
  }

  lemma OnlyTheSecondFlies()
    ensures InFlightRun(RELAUNCHED, SECOND) && !InFlightRun(RELAUNCHED, FIRST)
  {
    SecondLaunch();
    assert RunsOf(RELAUNCHED, 1) == [] by { IdleStalled(); InitSnoc(ANSWERED, StateRow(RELAUNCH)); }
  }

  lemma RowsStep(rows: Ledger, r: Row)
    requires Admissible(rows, r) && !IsLaunch(r)
    ensures Next(Books(rows, 0, map[], 0), Books(rows + [r], 0, map[], 0), CAP)
  {
    var b, c := Books(rows, 0, map[], 0), Books(rows + [r], 0, map[], 0);
    assert c == b.(rows := b.rows + [r]);
    assert RowStep(b, c);
  }

  lemma LaunchesStep(b: Books, at: int, item: Item, step: State, pid: nat, r: Row)
    requires step.IsStep() && LaunchRows(b.rows, at, item, step, pid, b.spent, CAP) == Launched(r)
    ensures LaunchStep(b, b.(rows := b.rows + [r]), CAP)
  {
  }

  /** Eight books, each a step from the one before, are a run. */
  lemma RunOfEight(t: seq<Books>, cap: nat)
    requires |t| == 8 && Lawful(t[0].rows) && |t[0].rows| == 1
    requires t[0].spent <= cap && t[0].charged == map[] && t[0].orphaned == 0
    requires Next(t[0], t[1], cap) && Next(t[1], t[2], cap) && Next(t[2], t[3], cap) && Next(t[3], t[4], cap)
    requires Next(t[4], t[5], cap) && Next(t[5], t[6], cap) && Next(t[6], t[7], cap)
    ensures IsRun(t, cap)
  {
  }

  lemma OpensLawful()
    ensures Lawful(Trace()[0].rows)
  {
    Opened();
  }

  lemma LaunchesFirst()
    ensures Next(Trace()[0], Trace()[1], CAP)
  {
    FirstLaunch();
    LaunchesStep(Books(OPENED, 0, map[], 0), 0, 1, Build, 7, StateRow(LAUNCH));
  }

  lemma StallIsAdmitted()
    ensures Admissible(LAUNCHED, StateRow(STALL))
  {
    Asked();
  }

  lemma AskIsAdmitted()
    ensures Admissible(STALLED, AskRow(STALL_ASK))
  {
    Asked();
  }

  lemma AnswerIsAdmitted()
    ensures Admissible(ASKED, AnswerRow(RETRY))
  {
    IdleStalled();
  }

  lemma StallsIdle()
    ensures Next(Trace()[1], Trace()[2], CAP)
  {
    StallIsAdmitted();
    RowsStep(LAUNCHED, StateRow(STALL));
  }

  lemma AsksOwner()
    ensures Next(Trace()[2], Trace()[3], CAP)
  {
    AskIsAdmitted();
    RowsStep(STALLED, AskRow(STALL_ASK));
  }

  lemma AnswersRetry()
    ensures Next(Trace()[3], Trace()[4], CAP)
  {
    AnswerIsAdmitted();
    RowsStep(ASKED, AnswerRow(RETRY));
  }

  lemma LaunchesSecond()
    ensures Next(Trace()[4], Trace()[5], CAP)
  {
    SecondLaunchRow();
    LaunchesStep(Books(ANSWERED, 0, map[], 0), 6100, 1, Build, 8, StateRow(RELAUNCH));
  }

  lemma ChargesBoth()
    ensures Next(Trace()[5], Trace()[6], CAP) && Next(Trace()[6], Trace()[7], CAP)
  {
    SecondLaunch();
    OnlyTheSecondFlies();
    var states := StatesOf(RELAUNCHED, 1);
    assert states[0] == LAUNCH && states[2] == RELAUNCH;
    ChargeLaunched(Books(RELAUNCHED, 0, map[], 0), RELAUNCH, false);
    ChargeLaunched(Books(RELAUNCHED, 300, map[SECOND := 300], 0), LAUNCH, true);
  }

  // ---- each row is what a command writes

  lemma BuildIsImplementation(v: ItemView)
    requires v.entry == Some(ENTRY) && v.resumed == None
    ensures v.PolicyOf(Build) == Some(Policy(Implementation, 300, false))
  {
    BuildIsFound();
  }

  lemma FreshReads(rows: Ledger, states: seq<Move>)
    requires Reads(rows, states, [], map[]) && states != [] && Last(states).to != Stalled
    ensures var v := ViewOf(rows, 1);
      v.entry == Some(ENTRY) && v.states == states && v.runs == [] && v.pending.None? && v.resumed == None
  {
  }

  lemma FirstLaunchFlies(rows: Ledger)
    requires Reads(rows, [LAUNCH], [], map[])
    ensures InFlightRun(rows, FIRST)
  {
    FreshReads(rows, [LAUNCH]);
  }

  lemma {:induction false} NoAskNoFailure(rows: Ledger, plan: Row, m: Move)
    requires plan.PlanRow? && rows == [plan] + [StateRow(m)]
    ensures AskCount(rows) == 0 && FailureStreak(rows) == 0 && FindAsk(rows, 1) == None
  {
    InitSnoc([plan], StateRow(m));
    assert Init([plan]) == [] && Last([plan]) == plan;
    assert AskCount([]) == 0 && AskCount([plan]) == 0;
    assert FailureStreak([]) == 0 && FailureStreak([plan]) == 0;
    assert FindAsk([], 1) == None;
    assert FindAsk([plan], 1) == None;
  }

  lemma {:induction false} StallIsWritten(rows: Ledger, w: World)
    requires Reads(rows, [LAUNCH], [], map[]) && AskCount(rows) == 0
    requires w.now == 6000 && 7 in w.alive
    ensures FlyingStep(rows, w, ENTRY, LAUNCH).writes == [StateRow(STALL), AskRow(STALL_ASK)]
  {
    FreshReads(rows, [LAUNCH]);
    var v := ViewOf(rows, 1);
    BuildIsImplementation(v);
    InitSnoc(rows, StateRow(STALL));
    assert OfferedOptions(v, RunnerGone, None) == [Retry, RetryUp, Block];
  }

  lemma {:induction false} StallIsSurveyed(rows: Ledger, w: World)
    requires Reads(rows, [LAUNCH], [], map[]) && AskCount(rows) == 0 && FailureStreak(rows) == 0
    requires w.now == 6000 && 7 in w.alive
    ensures SurveyWrites(rows, w) == [StateRow(STALL), AskRow(STALL_ASK)]
  {
    StallIsWritten(rows, w);
    FreshReads(rows, [LAUNCH]);
    FirstLaunchFlies(rows);
    FlyingCandidate(rows, w, ENTRY, FIRST);
    SurveyOfOne(rows, w);
  }

  lemma {:induction false} SurveyOfOne(rows: Ledger, w: World)
    requires Entries(rows) == [ENTRY] && FailureStreak(rows) == 0
    ensures SurveyWrites(rows, w) == CandidateOf(rows, w, ENTRY).writes
  {
    var none := SurveyItems(rows, w, []);
    assert Init([ENTRY]) == [] && none.writes == [] && rows + [] == rows;
    SurveySnoc(rows, w, [ENTRY]);
  }

  /** The idle branch writes exactly this stall, for runner 7 alive and past its wall
      clock, and that is all a whole survey writes then. */
  lemma IdleStallIsSurveyed(w: World)
    requires w.now == 6000 && 7 in w.alive
    ensures FlyingStep(LAUNCHED, w, ENTRY, LAUNCH).writes == [StateRow(STALL), AskRow(STALL_ASK)]
    ensures SurveyWrites(LAUNCHED, w) == [StateRow(STALL), AskRow(STALL_ASK)]
    ensures ASKED == LAUNCHED + SurveyWrites(LAUNCHED, w)
  {
    FirstLaunch();
    NoAskNoFailure(LAUNCHED, PlanRow([ENTRY]), LAUNCH);
    StallIsWritten(LAUNCHED, w);
    StallIsSurveyed(LAUNCHED, w);
  }

  lemma {:induction false} AnswerIsWritten(rows: Ledger, at: int, ask: Ask, choice: Choice)
    requires FindAsk(rows, ask.id) == None && ask.id !in Answers(rows) && choice in ask.options && choice != Block
    ensures AnswerRows(rows + [AskRow(ask)], at, ask.id, choice)
         == Flow.Outcome.Written([AnswerRow(Answer(ask.owner, ask.id, choice))])
  {
    InitSnoc(rows, AskRow(ask));
  }

  /** The retry is what the Owner's answer writes, and both launches what the launch
      check lets through. */
  lemma AnswerAndLaunchesAreWritten(at: int)
    ensures LaunchRows(OPENED, 0, 1, Build, 7, 0, CAP) == Launched(StateRow(LAUNCH))
    ensures AnswerRows(ASKED, at, 1, Retry) == Flow.Outcome.Written([AnswerRow(RETRY)])
    ensures LaunchRows(ANSWERED, 6100, 1, Build, 8, 0, CAP) == Launched(StateRow(RELAUNCH))
  {
    FirstLaunch();
    SecondLaunchRow();
    NoAskNoFailure(LAUNCHED, PlanRow([ENTRY]), LAUNCH);
    InitSnoc(LAUNCHED, StateRow(STALL));
    assert Answers(STALLED) == map[] by { Asked(); InitSnoc(STALLED, AskRow(STALL_ASK)); }
    AnswerIsWritten(STALLED, at, STALL_ASK, Retry);
  }

  /** A run of the books whose spend ends at twice the cap: the excess is exactly
      the charge of the run that was stalled while it lived. */
  lemma IdleStallPassesTheCap()
    ensures IsRun(Trace(), CAP)
    ensures Last(Trace()).spent == 2 * CAP && Last(Trace()).orphaned == CAP
  {
    OpensLawful();
    LaunchesFirst();
    StallsIdle();
    AsksOwner();
    AnswersRetry();
    LaunchesSecond();
    ChargesBoth();
    RunOfEight(Trace(), CAP);
  }
}
