/** What `next` offers (tools/factory/conductor_flow.py, conductor_landed.py):
    the steps ready to launch, and the rows a survey of the ledger writes. */
module Survey {
  import opened Rows
  import opened View
  import opened Flow
  import opened Consent

  /** The standing policy's verdict on an item: the labels it was read with. */
  datatype Standing = Standing(covers: bool, labels: Option<set<string>>)

  /** An item's branch facts, each absent until it is read. */
  datatype Facts = Facts(
    gateBlobs: Option<Blobs>,
    unchecked: Option<nat>,
    standing: Option<Standing>,
    mergedPr: Option<nat>)

  const NO_FACTS := Facts(None, None, None, None)

  function FactsOf(facts: map<Item, Facts>, item: Item): Facts {
    if item in facts then facts[item] else NO_FACTS
  }

  /** The clock, the live process ids, the branch facts and the standing policy. */
  datatype World = World(now: int, alive: set<nat>, facts: map<Item, Facts>, policy: StandingPolicy)

  /** What is ready: a move to a state, or a merge turn. */
  datatype Ready = Go(to: State) | MergeTurn
  {
    /** The state the ready step moves its item to. */
    function Target(): State {
      match this
      case Go(to) => to
      case MergeTurn => Merging
    }
  }

  datatype Candidate = Candidate(ready: Option<Ready>, inFlight: bool, writes: seq<Row>)

  const IDLE := Candidate(None, false, [])

  /** Wall-clock minutes per size. */
  function WallClock(size: Size): nat {
    match size
    case S => 45
    case M => 90
    case L => 180
  }

  // ---- a launched step

  /** The index of the first row equal to `r`. */
  function IndexOf(rows: Ledger, r: Row): nat
    requires r in rows
    ensures IndexOf(rows, r) < |rows| && rows[IndexOf(rows, r)] == r
  {
    if rows[0] == r then 0 else 1 + IndexOf(rows[1..], r)
  }

  /** The run row of a launch whose runner died, at the band it ran at. */
  function LostRun(rows: Ledger, entry: Entry, launch: Move): Row
    requires launch.fields.runId.Some?
  {
    var before := if StateRow(launch) in rows then rows[..IndexOf(rows, StateRow(launch))] else rows;
    var policy := ViewOf(before, entry.item).PolicyOf(launch.to);
    var pid := if launch.fields.pid.Some? then launch.fields.pid.value else 0;
    RunRow(Run(entry.item, launch.to, if policy.Some? then policy.value.band else Mechanical,
               launch.fields.runId.value, pid, RunnerLost))
  }

  predicate RunnerAlive(launch: Move, alive: set<nat>) {
    launch.fields.pid.Some? && launch.fields.pid.value in alive
  }

  /** A launched step still in flight: nothing while its runner works; a lost
      run row and a stall when it died; a stall when it idled. */
  function FlyingStep(rows: Ledger, w: World, entry: Entry, launch: Move): Candidate
    requires launch.fields.runId.Some?
  {
    if !RunnerAlive(launch, w.alive) then
      var lost := LostRun(rows, entry, launch);
      Candidate(None, false,
                [lost] + StallRows(rows + [lost], w.now, entry.item, RunnerGone, Retry, None, None))
    else if w.now - launch.at <= 2 * WallClock(entry.size) * 60 then Candidate(None, true, [])
    else Candidate(None, false, StallRows(rows, w.now, entry.item, RunnerGone, Retry, None, None))
  }

  /** The gate ask a finished spec raises. */
  function GateRows(rows: Ledger, now: int, item: Item, blobs: Blobs): seq<Row> {
    var moved := StateRow(Move(now, item, Spec, AwaitingGate, NO_FIELDS));
    [moved, AskRow(NewAsk(rows + [moved], Some(item), GateAsk, [Approve, Block], Approve, [], blobs))]
  }

  /** What follows a launched step that finished with a completed run. */
  function AfterStep(rows: Ledger, w: World, entry: Entry, state: State): Candidate {
    var item := entry.item;
    var facts := FactsOf(w.facts, item);
    match state
    case Spec =>
      if facts.gateBlobs.None? then IDLE
      else if entry.kind != Feature && facts.gateBlobs.value == map[] then Candidate(Some(Go(Build)), false, [])
      else Candidate(None, false, GateRows(rows, w.now, item, facts.gateBlobs.value))
    case Build =>
      if entry.kind == Order then Candidate(Some(Go(Verify)), false, [])
      else if facts.gateBlobs.None? then IDLE
      else Candidate(Some(Go(if facts.unchecked.Some? && facts.unchecked.value > 0 then Build else Verify)), false, [])
    case Verify => Candidate(Some(Go(Review)), false, [])
    case Ship =>
      if facts.gateBlobs.None? then IDLE
      else
        (match Cover(rows, item, facts.gateBlobs.value, w.policy)
         case Covered => Candidate(Some(MergeTurn), false, [])
         case Waiting => IDLE
         case Owed =>
           if facts.standing.Some? && facts.standing.value.covers
           then Candidate(Some(MergeTurn), false, [ConsentRow(item)])
           else IDLE)
    case _ => IDLE
  }

  // ---- one item

  /** By the item's state alone. */
  function StepOf(rows: Ledger, w: World, entry: Entry): Candidate {
    var v := ViewOf(rows, entry.item);
    var state := v.State();
    if state.IsTerminal() then IDLE
    else if state == Merging then
      var pid := Last(v.states).fields.pid;
      if pid.None? || pid.value in w.alive then IDLE
      else Candidate(None, false, StallRows(rows, w.now, entry.item, RunnerGone, Retry, None, None))
    else if state == Stalled then
      if v.RetryAnswered() && DeliveredRun(v).None? then
        var resume := Last(v.states).from;
        Candidate(Some(if resume == Merging then MergeTurn else Go(resume)), false, [])
      else IDLE
    else if v.pending.Some? then IDLE
    else if state == Planned then
      if entry.steps == [] then IDLE else Candidate(Some(Go(entry.steps[0].step)), false, [])
    else if state == Reviewed then Candidate(Some(Go(Ship)), false, [])
    else if state == AwaitingGate then
      if v.gate == Some(Approve) then Candidate(Some(Go(Build)), false, []) else IDLE
    else if v.Launched().None? then Candidate(Some(Go(state)), false, [])
    else if v.InFlight() then FlyingStep(rows, w, entry, Last(v.states))
    else if !v.Finished() then IDLE
    else AfterStep(rows, w, entry, state)
  }

  /** The states whose item PR is read each tick. */
  predicate PrRead(state: State) {
    state in {Spec, AwaitingGate, Build, Verify, Review, Reviewed}
  }

  /** A stalled item whose stall was answered `merged`. */
  predicate AnsweredMerged(v: ItemView) {
    v.State() == Stalled && v.resumed == Some(AsMerged)
  }

  /** The items whose merged PR is read this tick (conductor_landed.due). */
  predicate LandedDue(v: ItemView) {
    v.pending.None? && !v.InFlight() && (PrRead(v.State()) || AnsweredMerged(v))
  }

  /** The item already stalled for this PR: it is never asked about twice. */
  predicate AskedAbout(states: seq<Move>, pr: nat) {
    exists m :: m in states && m.to == Stalled && m.fields.cause == Some(MergeDrift) && m.fields.pr == Some(pr)
  }

  function LandedAdvice(state: State, unchecked: Option<nat>): Choice {
    if state !in {Spec, AwaitingGate, Build} || (state == Build && unchecked == Some(0)) then AsMerged else Retry
  }

  /** The merged-PR rule over StepOf: a PR merged outside the batch stalls the
      item instead of launching its next step, once; answered `merged`, it is
      recorded as the item's merge. */
  function CandidateOf(rows: Ledger, w: World, entry: Entry): Candidate {
    var v := ViewOf(rows, entry.item);
    var facts := FactsOf(w.facts, entry.item);
    if facts.mergedPr.Some? && AnsweredMerged(v) then
      Candidate(None, false, [StateRow(Move(w.now, entry.item, Stalled, Merged, NO_FIELDS.(pr := facts.mergedPr)))])
    else
      var c := StepOf(rows, w, entry);
      if c.ready.None? || c.ready == Some(MergeTurn) || facts.mergedPr.None? || c.writes != []
         || AskedAbout(v.states, facts.mergedPr.value)
      then c
      else
        Candidate(None, false,
                  StallRows(rows, w.now, entry.item, MergeDrift, LandedAdvice(v.State(), facts.unchecked),
                            Some([Retry, AsMerged, Block]), facts.mergedPr))
  }

  // ---- the batch

  predicate BatchAsk(r: Row) {
    r.AskRow? && r.ask.owner.None? && r.ask.kind != MergeAsk
  }

  /** A batch-level ask is unanswered, or was answered with a choice that holds dispatch. */
  predicate Held(rows: Ledger) {
    exists r :: r in rows && BatchAsk(r)
      && (r.ask.id !in Answers(rows) || Answers(rows)[r.ask.id] in {Decline, Stop})
  }

  const PAUSE_OPTIONS: seq<Choice> := [Resume, Stop]

  predicate PauseAsk(r: Row) {
    r.AskRow? && r.ask.owner.None? && r.ask.kind == StallAsk && r.ask.options == PAUSE_OPTIONS
  }

  /** Consecutive failed runs since the last pause ask. */
  function FailureStreak(rows: Ledger): nat {
    if rows == [] || PauseAsk(Last(rows)) then 0
    else if Last(rows).RunRow? then
      if Last(rows).run.outcome != Completed then FailureStreak(Init(rows)) + 1 else 0
    else FailureStreak(Init(rows))
  }

  const FAILURE_PAUSE := 3

  datatype Offer = Offer(item: Item, ready: Ready)
  datatype Surveyed = Surveyed(offers: seq<Offer>, flying: nat, writes: seq<Row>)

  function Absorb(s: Surveyed, item: Item, c: Candidate): Surveyed {
    Surveyed(
      if c.ready.Some? then s.offers + [Offer(item, c.ready.value)] else s.offers,
      if c.inFlight then s.flying + 1 else s.flying,
      s.writes + c.writes)
  }

  /** The items in plan order, each read on top of the rows written so far. */
  function SurveyItems(rows: Ledger, w: World, entries: seq<Entry>): Surveyed {
    if entries == [] then Surveyed([], 0, [])
    else
      var s := SurveyItems(rows, w, Init(entries));
      Absorb(s, Last(entries).item, CandidateOf(rows + s.writes, w, Last(entries)))
  }

  /** The rows a survey writes: the items', and the batch pause after three
      failed runs in a row. */
  function SurveyWrites(rows: Ledger, w: World): seq<Row> {
    var writes := SurveyItems(rows, w, Entries(rows)).writes;
    if FailureStreak(rows) >= FAILURE_PAUSE && !Held(rows)
    then writes + [AskRow(NewAsk(rows + writes, None, StallAsk, PAUSE_OPTIONS, Stop, [], map[]))]
    else writes
  }

  function Truncate<T>(s: seq<T>, room: int): seq<T> {
    if room <= 0 then [] else if room >= |s| then s else s[..room]
  }

  /** The steps a survey offers: none while dispatch is held, and at most the
      work-in-progress cap less the runs in flight. */
  function SurveyOffers(rows: Ledger, w: World, wipCap: int): seq<Offer> {
    if Held(rows + SurveyWrites(rows, w)) then []
    else
      var s := SurveyItems(rows, w, Entries(rows));
      Truncate(s.offers, wipCap - s.flying)
  }
}
