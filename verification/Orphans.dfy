/** When a launched run is no longer in flight, and so when the cap holds: a run is
    charged beside what the cap counts only after its own run row, or after a state
    row was written over it while it flew. */
module Orphans {
  import opened Rows
  import opened View
  import opened Flow
  import opened Survey
  import opened Protocol
  import opened Walk
  import opened Offers
  import opened Commands
  import opened Spend

  /** The run's own run row stands in the ledger. */
  predicate HasRun(rows: Ledger, id: RunId) {
    exists r :: r in RunsOf(rows, id.item) && r.runId == id
  }

  /** A state row was written over the run while it was in flight. */
  predicate Displaced(rows: Ledger, id: RunId) {
    rows != []
    && (|| Displaced(Init(rows), id)
        || (Last(rows).StateRow? && Last(rows).move.item == id.item && InFlightRun(Init(rows), id)))
  }

  // ---- a launched run is in flight until one of the two

  lemma {:induction false} RunIsRead(rows: Ledger, id: RunId)
    ensures FirstRun(RunsOf(rows, id.item), id).None? <==> !HasRun(rows, id)
  {
    var runs := RunsOf(rows, id.item);
    if FirstRun(runs, id).None? {
      FirstRunMissing(runs, id);
    } else {
      FirstRunIsOne(runs, id);
    }
  }

  lemma {:induction false} FirstRunIsOne(runs: seq<Run>, id: RunId)
    requires FirstRun(runs, id).Some?
    ensures FirstRun(runs, id).value in runs && FirstRun(runs, id).value.runId == id
  {
    assert runs == Init(runs) + [Last(runs)];
    if FirstRun(Init(runs), id).Some? { FirstRunIsOne(Init(runs), id); }
  }

  /** Only a launch row puts a run in flight. */
  lemma {:induction false} FlyingWasLaunched(rows: Ledger, item: Item)
    requires Lawful(rows) && ViewOf(rows, item).InFlight()
    ensures WasLaunched(rows, ViewOf(rows, item).Launched().value)
    ensures ViewOf(rows, item).Launched().value.item == item
  {
    if |rows| > 1 {
      var before, r := Init(rows), Last(rows);
      assert rows == before + [r];
      InFlightIsOwn(rows, item);
      if r.StateRow? && r.move.item == item {
        if !IsLaunch(r) { MoveLandsItem(before, r.move); }
        assert r.move in StatesOf(rows, item);
      } else {
        if r.RunRow? && r.run.item == item {
          RunLandsItem(before, r.run);
        } else {
          OtherRowsKeepFlight(before, r, item);
        }
        FlyingWasLaunched(before, item);
        LaunchedStays(before, r, ViewOf(before, item).Launched().value);
      }
    } else {
      OpeningIsIdle(rows, item);
    }
  }

  lemma {:induction false} DisplacedWasLaunched(rows: Ledger, id: RunId)
    requires Lawful(rows) && Displaced(rows, id)
    ensures WasLaunched(rows, id)
  {
    var before := Init(rows);
    assert rows == before + [Last(rows)];
    if |rows| > 1 {
      if Displaced(before, id) { DisplacedWasLaunched(before, id); } else { FlyingWasLaunched(before, id.item); }
      LaunchedStays(before, Last(rows), id);
    }
  }

  /** A state row never puts a run launched earlier back in flight. */
  lemma {:induction false} MoveLeavesRun(before: Ledger, m: Move, id: RunId)
    requires Lawful(before) && MoveOk(before, m) && WasLaunched(before, id) && m.item == id.item
    ensures !InFlightRun(before + [StateRow(m)], id)
  {
    InitSnoc(before, StateRow(m));
    if IsLaunch(StateRow(m)) {
      LaunchIsNew(before, m, id);
      assert ViewOf(before + [StateRow(m)], id.item).Launched() == m.fields.runId;
    } else {
      MoveLandsItem(before, m);
    }
  }

  lemma {:induction false} LaunchIsNew(before: Ledger, m: Move, id: RunId)
    requires Lawful(before) && MoveOk(before, m) && IsLaunch(StateRow(m))
    requires WasLaunched(before, id) && m.item == id.item
    ensures m.fields.runId != Some(id)
  {
    NextRunIsFresh(before, id.item, id.step);
    var launch :| launch in StatesOf(before, id.item) && launch.to == id.step && launch.fields.pid.Some?
                  && launch.fields.runId == Some(id);
    assert m.fields.runId == Some(NextRun(ViewOf(before, id.item), m.to));
  }

  /** A new launch is of a run no earlier row names. */
  lemma {:induction false} LaunchIsUntouched(before: Ledger, m: Move, id: RunId)
    requires Lawful(before) && MoveOk(before, m) && Lawful(before + [StateRow(m)])
    requires !WasLaunched(before, id) && WasLaunched(before + [StateRow(m)], id)
    ensures m.item == id.item && m.fields.runId == Some(id)
    ensures !Displaced(before + [StateRow(m)], id)
  {
    InitSnoc(before, StateRow(m));
    if Displaced(before, id) { DisplacedWasLaunched(before, id); }
    if InFlightRun(before, id) { FlyingWasLaunched(before, id.item); }
  }

  lemma {:induction false} OtherRowKeepsRun(before: Ledger, r: Row, id: RunId)
    requires !(r.StateRow? && r.move.item == id.item) && !r.PlanRow?
    ensures var rows := before + [r];
      && (WasLaunched(rows, id) <==> WasLaunched(before, id))
      && (HasRun(rows, id) <==> HasRun(before, id) || (r.RunRow? && r.run.item == id.item && r.run.runId == id))
      && (Displaced(rows, id) <==> Displaced(before, id))
      && (InFlightRun(rows, id) <==> InFlightRun(before, id) && !HasRun(rows, id))
  {
    var rows := before + [r];
    InitSnoc(before, r);
    OtherRowReads(before, r, id);
    RunIsRead(before, id);
    RunIsRead(rows, id);
    var v, v' := ViewOf(before, id.item), ViewOf(rows, id.item);
    assert v'.Launched() == v.Launched();
  }

  lemma {:induction false} OtherRowReads(before: Ledger, r: Row, id: RunId)
    requires !(r.StateRow? && r.move.item == id.item) && !r.PlanRow?
    ensures StatesOf(before + [r], id.item) == StatesOf(before, id.item)
    ensures HasRun(before + [r], id)
       <==> HasRun(before, id) || (r.RunRow? && r.run.item == id.item && r.run.runId == id)
  {
    InitSnoc(before, r);
    if r.RunRow? && r.run.item == id.item {
      assert RunsOf(before + [r], id.item) == RunsOf(before, id.item) + [r.run];
    }
  }

  /** A state row after the launch leaves the run out of flight: it has its run row, or
      is written over now if not before. */
  lemma {:induction false} MoveEndsFlight(before: Ledger, m: Move, id: RunId)
    requires Lawful(before) && MoveOk(before, m) && WasLaunched(before, id) && m.item == id.item
    requires InFlightRun(before, id) <==> !HasRun(before, id) && !Displaced(before, id)
    ensures var rows := before + [StateRow(m)];
      !InFlightRun(rows, id) && (HasRun(rows, id) || Displaced(rows, id))
  {
    InitSnoc(before, StateRow(m));
    MoveLeavesRun(before, m, id);
    assert RunsOf(before + [StateRow(m)], id.item) == RunsOf(before, id.item);
  }

  /** In every lawful ledger a launched run is in flight exactly until its run row
      is in, or a state row of its item was written over it. */
  lemma {:induction false} InFlightIff(rows: Ledger, id: RunId)
    requires Lawful(rows) && WasLaunched(rows, id)
    ensures InFlightRun(rows, id) <==> !HasRun(rows, id) && !Displaced(rows, id)
  {
    if |rows| > 1 {
      var before, r := Init(rows), Last(rows);
      assert rows == before + [r];
      if r.StateRow? && r.move.item == id.item {
        if WasLaunched(before, id) {
          InFlightIff(before, id);
          MoveEndsFlight(before, r.move, id);
        } else {
          RunIsRead(rows, id);
          LaunchIsUntouched(before, r.move, id);
        }
      } else {
        OtherRowKeepsRun(before, r, id);
        InFlightIff(before, id);
      }
    } else {
      OpeningIsIdle(rows, id.item);
    }
  }

  /** Nothing was written over a run that is in flight. */
  lemma {:induction false} FlyingIsUndisplaced(rows: Ledger, id: RunId)
    requires Lawful(rows) && InFlightRun(rows, id)
    ensures !Displaced(rows, id)
  {
    FlyingWasLaunched(rows, id.item);
    InFlightIff(rows, id);
  }

  // ---- what writes over a run in flight

  /** Of all admissible rows, only a stall or a block writes over a run in flight. */
  lemma {:induction false} OnlyStallsAndBlocksDisplace(rows: Ledger, m: Move)
    requires Lawful(rows) && MoveOk(rows, m) && ViewOf(rows, m.item).InFlight()
    ensures m.to == Stalled || m.to == Blocked
  {
    InFlightIsOwn(rows, m.item);
    RowsShaped(rows, m.item);
    assert Last(StatesOf(rows, m.item)) in StatesOf(rows, m.item);
  }

  lemma {:induction false} DisplacedSnoc(rows: Ledger, r: Row, id: RunId)
    ensures Displaced(rows + [r], id)
       <==> Displaced(rows, id) || (r.StateRow? && r.move.item == id.item && InFlightRun(rows, id))
  {
    InitSnoc(rows, r);
  }

  /** A stall of a flying item writes over its run. */
  lemma {:induction false} StallDisplaces(rows: Ledger, more: seq<Row>, id: RunId)
    requires |more| == 2 && more[0].StateRow? && more[0].move.item == id.item && !more[1].StateRow?
    ensures Displaced(rows + more, id) <==> Displaced(rows, id) || InFlightRun(rows, id)
  {
    assert rows + more == (rows + [more[0]]) + [more[1]];
    DisplacedSnoc(rows, more[0], id);
    DisplacedSnoc(rows + [more[0]], more[1], id);
  }

  /** The runner is alive and past twice its wall clock. */
  predicate Idles(w: World, entry: Entry, launch: Move) {
    RunnerAlive(launch, w.alive) && w.now - launch.at > 2 * WallClock(entry.size) * 60
  }

  /** What `next` writes for an item in flight: its run is written over exactly by
      the idle stall of a live runner with no ask pending. A dead runner's run row
      goes first. */
  lemma {:induction false} CandidateDisplacesIffIdle(rows: Ledger, w: World, entry: Entry, id: RunId)
    requires InFlightRun(rows, id) && ViewOf(rows, id.item).State().IsStep()
    requires entry.item == id.item && !Displaced(rows, id)
    ensures var v := ViewOf(rows, id.item);
      Displaced(rows + CandidateOf(rows, w, entry).writes, id)
      <==> v.pending.None? && Idles(w, entry, Last(v.states))
  {
    var v := ViewOf(rows, id.item);
    var launch := Last(v.states);
    var c := CandidateOf(rows, w, entry);
    FlyingCandidate(rows, w, entry, id);
    if c.writes == [] {
      assert rows + c.writes == rows;
    } else if RunnerAlive(launch, w.alive) {
      StallDisplaces(rows, c.writes, id);
    } else {
      LostRunComesFirst(rows, w, entry, launch, id);
    }
  }

  lemma {:induction false} LostRunComesFirst(rows: Ledger, w: World, entry: Entry, launch: Move, id: RunId)
    requires InFlightRun(rows, id) && entry.item == id.item && !Displaced(rows, id)
    requires launch.fields.runId == Some(id) && !RunnerAlive(launch, w.alive)
    ensures !Displaced(rows + FlyingStep(rows, w, entry, launch).writes, id)
  {
    var lost := LostRun(rows, entry, launch);
    RunThenStall(rows, lost, StallRows(rows + [lost], w.now, entry.item, RunnerGone, Retry, None, None), id);
  }

  /** A stall after the run's own run row writes over nothing. */
  lemma {:induction false} RunThenStall(rows: Ledger, run: Row, stall: seq<Row>, id: RunId)
    requires run.RunRow? && run.run.item == id.item && run.run.runId == id && !Displaced(rows, id)
    requires |stall| == 2 && stall[0].StateRow? && stall[0].move.item == id.item && !stall[1].StateRow?
    ensures !Displaced(rows + ([run] + stall), id)
  {
    assert rows + ([run] + stall) == (rows + [run]) + stall;
    OtherRowKeepsRun(rows, run, id);
    StallDisplaces(rows + [run], stall, id);
  }

  lemma FlyingCandidate(rows: Ledger, w: World, entry: Entry, id: RunId)
    requires InFlightRun(rows, id) && ViewOf(rows, id.item).State().IsStep() && entry.item == id.item
    ensures var v := ViewOf(rows, id.item);
      CandidateOf(rows, w, entry) == if v.pending.Some? then IDLE else FlyingStep(rows, w, entry, Last(v.states))
  {
    FlyingStepIsRead(rows, w, entry);
    assert FlyingStep(rows, w, entry, Last(ViewOf(rows, id.item).states)).ready.None?;
  }

  lemma FlyingStepIsRead(rows: Ledger, w: World, entry: Entry)
    requires ViewOf(rows, entry.item).InFlight() && ViewOf(rows, entry.item).State().IsStep()
    ensures var v := ViewOf(rows, entry.item);
      StepOf(rows, w, entry) == if v.pending.Some? then IDLE else FlyingStep(rows, w, entry, Last(v.states))
  {
    var v := ViewOf(rows, entry.item);
    assert v.State() !in {Merging, Merged, Blocked, Stalled, Planned, Reviewed, AwaitingGate};
    assert v.Launched().Some?;
  }

  /** An item in flight stands in the launched step. */
  lemma {:induction false} FlyingStands(rows: Ledger, id: RunId)
    requires Lawful(rows) && InFlightRun(rows, id)
    ensures ViewOf(rows, id.item).State() == id.step && id.step.IsStep()
  {
    InFlightIsOwn(rows, id.item);
    RowsShaped(rows, id.item);
    assert Last(StatesOf(rows, id.item)) in StatesOf(rows, id.item);
  }

  lemma {:induction false} OthersDisplaceNothing(rows: Ledger, more: seq<Row>, id: RunId)
    requires forall r :: r in more ==> !(r.StateRow? && r.move.item == id.item)
    ensures Displaced(rows + more, id) <==> Displaced(rows, id)
    decreases |more|
  {
    if more == [] {
      assert rows + more == rows;
    } else {
      assert more[0] in more && forall r :: r in more[1..] ==> r in more;
      DisplacedSnoc(rows, more[0], id);
      OthersDisplaceNothing(rows + [more[0]], more[1..], id);
      assert rows + more == (rows + [more[0]]) + more[1..];
    }
  }

  lemma {:induction false} LastItemDisplaces(rows: Ledger, writes: seq<Row>, w: World, entry: Entry, id: RunId)
    requires Avoids(writes, id.item) && ViewOf(rows + writes, id.item) == ViewOf(rows, id.item)
    requires InFlightRun(rows, id) && ViewOf(rows, id.item).State().IsStep() && !Displaced(rows, id)
    requires entry.item == id.item
    ensures var v := ViewOf(rows, id.item);
      Displaced((rows + writes) + CandidateOf(rows + writes, w, entry).writes, id)
      <==> v.pending.None? && Idles(w, entry, Last(v.states))
  {
    OthersDisplaceNothing(rows, writes, id);
    CandidateDisplacesIffIdle(rows + writes, w, entry, id);
  }

  lemma {:induction false} OtherItemDisplacesNothing(rows: Ledger, w: World, entry: Entry, id: RunId)
    requires entry.item != id.item
    ensures Displaced(rows + CandidateOf(rows, w, entry).writes, id) <==> Displaced(rows, id)
  {
    CandidateWrites(rows, w, entry);
    OthersDisplaceNothing(rows, CandidateOf(rows, w, entry).writes, id);
  }

  lemma {:induction false} ItemsAppend(rows: Ledger, w: World, entries: seq<Entry>)
    requires entries != []
    ensures var after := rows + SurveyItems(rows, w, Init(entries)).writes;
      rows + SurveyItems(rows, w, entries).writes == after + CandidateOf(after, w, Last(entries)).writes
  {
    var s := SurveyItems(rows, w, Init(entries));
    SurveySnoc(rows, w, entries);
    WritesAppend(rows, s, Last(entries).item, CandidateOf(rows + s.writes, w, Last(entries)));
  }

  lemma WritesAppend(rows: Ledger, s: Surveyed, item: Item, c: Candidate)
    ensures rows + Absorb(s, item, c).writes == (rows + s.writes) + c.writes
  {
  }

  lemma {:induction false} ItemsDisplaceIffIdle(rows: Ledger, w: World, entries: seq<Entry>, k: nat, id: RunId)
    requires DistinctItems(entries) && k < |entries| && entries[k].item == id.item
    requires InFlightRun(rows, id) && ViewOf(rows, id.item).State().IsStep() && !Displaced(rows, id)
    ensures var v := ViewOf(rows, id.item);
      Displaced(rows + SurveyItems(rows, w, entries).writes, id)
      <==> v.pending.None? && Idles(w, entries[k], Last(v.states))
  {
    var before, last := Init(entries), Last(entries);
    OthersDiffer(entries);
    ItemsAppend(rows, w, entries);
    if k == |entries| - 1 {
      OthersWriteElsewhere(rows, w, before, id.item);
      LastItemDisplaces(rows, SurveyItems(rows, w, before).writes, w, last, id);
    } else {
      assert before[k] in before;
      ItemsDisplaceIffIdle(rows, w, before, k, id);
      OtherItemDisplacesNothing(rows + SurveyItems(rows, w, before).writes, w, last, id);
    }
  }

  /** A whole survey writes over a run in flight exactly when its runner is alive and
      idle and its item has no ask pending. */
  lemma {:induction false} SurveyDisplacesIffIdle(rows: Ledger, w: World, entry: Entry, id: RunId)
    requires Lawful(rows) && entry in Entries(rows) && entry.item == id.item
    requires InFlightRun(rows, id)
    ensures var v := ViewOf(rows, id.item);
      Displaced(rows + SurveyWrites(rows, w), id) <==> v.pending.None? && Idles(w, entry, Last(v.states))
  {
    FlyingIsUndisplaced(rows, id);
    var entries := Entries(rows);
    var k :| 0 <= k < |entries| && entries[k] == entry;
    PlanStays(rows);
    FlyingStands(rows, id);
    ItemsDisplaceIffIdle(rows, w, entries, k, id);
    PauseDisplacesNothing(rows, w, id);
  }

  lemma {:induction false} PauseDisplacesNothing(rows: Ledger, w: World, id: RunId)
    ensures Displaced(rows + SurveyWrites(rows, w), id)
       <==> Displaced(rows + SurveyItems(rows, w, Entries(rows)).writes, id)
  {
    var writes := SurveyItems(rows, w, Entries(rows)).writes;
    if SurveyWrites(rows, w) != writes {
      var pause := Last(SurveyWrites(rows, w));
      assert rows + SurveyWrites(rows, w) == (rows + writes) + [pause];
      DisplacedSnoc(rows + writes, pause, id);
    }
  }

  lemma {:induction false} AnswerShape(rows: Ledger, at: int, ask: nat, choice: Choice)
    requires AnswerRows(rows, at, ask, choice).Written?
    ensures FindAsk(rows, ask).Some?
    ensures var more, owner := AnswerRows(rows, at, ask, choice).rows, FindAsk(rows, ask).value.owner;
      if choice == Block && owner.Some? && !ViewOf(rows, owner.value).State().IsTerminal()
      then |more| == 2 && more[0].AnswerRow? && more[1].StateRow? && more[1].move.item == owner.value
      else |more| == 1 && more[0].AnswerRow?
  {
  }

  /** An answer writes over a run in flight exactly when it is `block` to an ask of
      its item: no answer asks whether the item is in flight. */
  lemma {:induction false} AnswerDisplacesIffBlock(rows: Ledger, at: int, ask: nat, choice: Choice, id: RunId)
    requires Lawful(rows) && InFlightRun(rows, id)
    requires AnswerRows(rows, at, ask, choice).Written?
    ensures Displaced(rows + AnswerRows(rows, at, ask, choice).rows, id)
       <==> choice == Block && FindAsk(rows, ask).value.owner == Some(id.item)
  {
    var owner := FindAsk(rows, ask).value.owner;
    FlyingIsUndisplaced(rows, id);
    FlyingStands(rows, id);
    AnswerShape(rows, at, ask, choice);
    var blocks := choice == Block && owner.Some? && !ViewOf(rows, owner.value).State().IsTerminal();
    AnswerDisplacesBlocked(rows, AnswerRows(rows, at, ask, choice).rows, if blocks then owner else None, id);
  }

  lemma {:induction false} AnswerDisplacesBlocked(rows: Ledger, more: seq<Row>, blocked: Option<Item>, id: RunId)
    requires InFlightRun(rows, id) && !Displaced(rows, id)
    requires more != [] && more[0].AnswerRow? && |more| == if blocked.Some? then 2 else 1
    requires blocked.Some? ==> more[1].StateRow? && more[1].move.item == blocked.value
    ensures Displaced(rows + more, id) <==> blocked == Some(id.item)
  {
    if blocked.None? {
      assert more == [more[0]];
      DisplacedSnoc(rows, more[0], id);
    } else {
      assert more == [more[0], more[1]];
      AnswerThenMoveDisplaces(rows, more[0], more[1], id);
    }
  }

  lemma {:induction false} AnswerThenMoveDisplaces(rows: Ledger, a: Row, m: Row, id: RunId)
    requires a.AnswerRow? && m.StateRow? && InFlightRun(rows, id) && !Displaced(rows, id)
    ensures Displaced(rows + [a, m], id) <==> m.move.item == id.item
  {
    assert rows + [a, m] == (rows + [a]) + [m];
    OtherRowReads(rows, a, id);
    OtherRowKeepsRun(rows, a, id);
    DisplacedSnoc(rows + [a], m, id);
    assert InFlightRun(rows + [a], id) by { RunIsRead(rows, id); FlightIsUnrun(rows, id); }
  }

  lemma FlightIsUnrun(rows: Ledger, id: RunId)
    requires InFlightRun(rows, id)
    ensures !HasRun(rows, id)
  {
    RunIsRead(rows, id);
  }

  // ---- when the cap holds

  /** The charge is made while the run still counts: before its run row, and with
      no state row written over it. */
  predicate Counted(b: Books, id: RunId) {
    !HasRun(b.rows, id) && !Displaced(b.rows, id)
  }

  /** The step charges nothing, or a run that still counts. */
  ghost predicate ChargesCounted(b: Books, c: Books) {
    forall id, cost :: Charges(b, c, id, cost) && cost > 0 ==> Counted(b, id)
  }

  /** Every charge of the run of books is of a run that still counts. */
  ghost predicate AllCounted(trace: seq<Books>) {
    |trace| < 2 || (AllCounted(Init(trace)) && ChargesCounted(Last(Init(trace)), Last(trace)))
  }

  lemma StepOrphans(b: Books, c: Books, cap: nat)
    requires Balanced(b, cap) && Next(b, c, cap)
    ensures c.orphaned >= b.orphaned && (c.orphaned == b.orphaned <==> ChargesCounted(b, c))
  {
    forall id, cost | Charges(b, c, id, cost)
      ensures c.orphaned == if Counted(b, id) then b.orphaned else b.orphaned + cost
    {
      InFlightIff(b.rows, id);
    }
    if ChargeStep(b, c) {
      var id, cost :| Charges(b, c, id, cost);
      assert c.charged[id] == cost;
    }
  }

  /** Orphaned charges are exactly the charges of runs that no longer count. */
  lemma {:induction false} NothingOrphanedIff(trace: seq<Books>, cap: nat)
    requires IsRun(trace, cap)
    ensures Last(trace).orphaned == 0 <==> AllCounted(trace)
    decreases |trace|
  {
    if |trace| > 1 {
      RunBefore(trace, cap);
      NothingOrphanedIff(Init(trace), cap);
      CapHolds(Init(trace), cap);
      StepOrphans(Last(Init(trace)), Last(trace), cap);
    }
  }

  /** The step charges a run that still counts, or no more than what is due leaves of
      the cap. */
  ghost predicate ChargesFit(b: Books, c: Books, cap: nat) {
    forall id, cost :: Charges(b, c, id, cost) ==> Counted(b, id) || Due(b) + cost <= cap
  }

  ghost predicate AllFit(trace: seq<Books>, cap: nat) {
    |trace| < 2 || (AllFit(Init(trace), cap) && ChargesFit(Last(Init(trace)), Last(trace), cap))
  }

  predicate AllWithin(trace: seq<Books>, cap: nat) {
    forall b :: b in trace ==> Due(b) <= cap
  }

  /** Only a charge of a run that no longer counts adds to what is due. */
  lemma ChargeIsDueUnlessCounted(b: Books, c: Books, id: RunId, cost: nat)
    requires Lawful(b.rows) && Charges(b, c, id, cost)
    ensures Due(c) == Due(b) + if Counted(b, id) then 0 else cost
  {
    InFlightIff(b.rows, id);
    ChargeMovesDue(b, c, id, cost);
  }

  /** A step from books within the cap stays within it exactly when its charge counts
      or fits; every other step does. */
  lemma StepStaysWithinIff(b: Books, c: Books, cap: nat)
    requires Sound(b) && Due(b) <= cap && Next(b, c, cap)
    ensures Due(c) <= cap <==> ChargesFit(b, c, cap)
  {
    if ChargeStep(b, c) {
      ChargeStaysWithinIff(b, c, cap);
    } else {
      UnchargedStepStaysWithin(b, c, cap);
    }
  }

  lemma ChargeStaysWithinIff(b: Books, c: Books, cap: nat)
    requires Lawful(b.rows) && Due(b) <= cap && ChargeStep(b, c)
    ensures Due(c) <= cap <==> ChargesFit(b, c, cap)
  {
    var before, after := Due(b), Due(c);
    forall id, cost | Charges(b, c, id, cost)
      ensures after == before + if Counted(b, id) then 0 else cost
    {
      ChargeIsDueUnlessCounted(b, c, id, cost);
    }
  }

  lemma UnchargedStepStaysWithin(b: Books, c: Books, cap: nat)
    requires Sound(b) && Due(b) <= cap && Next(b, c, cap) && !ChargeStep(b, c)
    ensures Due(c) <= cap
  {
    var b', c' := b.(orphaned := 0), c.(orphaned := 0);
    if LaunchStep(b, c, cap) {
      assert LaunchStep(b', c', cap);
      LaunchKeepsBalance(b', c', cap);
    } else if RowStep(b, c) {
      assert RowStep(b', c');
      RowKeepsBalance(b', c', cap);
    }
  }

  /** In every run, the month's spend with the uncharged ceilings in flight stays
      within the cap all along if and only if every charge is of a run that still
      counts, or fits what is left of the cap when it is made. */
  lemma {:induction false} CapIsKeptIff(trace: seq<Books>, cap: nat)
    requires IsRun(trace, cap)
    ensures AllWithin(trace, cap) <==> AllFit(trace, cap)
    decreases |trace|
  {
    if |trace| > 1 {
      var before := Init(trace);
      RunBefore(trace, cap);
      CapIsKeptIff(before, cap);
      WithinSnoc(trace, cap);
      RunIsSound(before, cap);
      if AllWithin(before, cap) {
        StepStaysWithinIff(Last(before), Last(trace), cap);
      }
    } else {
      OpensWithin(trace, cap);
    }
  }

  lemma WithinSnoc(trace: seq<Books>, cap: nat)
    requires |trace| > 1
    ensures AllWithin(trace, cap) <==> AllWithin(Init(trace), cap) && Due(Last(trace)) <= cap
    ensures AllWithin(Init(trace), cap) ==> Due(Last(Init(trace))) <= cap
  {
    assert trace == Init(trace) + [Last(trace)] && Last(Init(trace)) in Init(trace);
  }

  lemma RunIsSound(trace: seq<Books>, cap: nat)
    requires IsRun(trace, cap)
    ensures Sound(Last(trace))
  {
    CapHolds(trace, cap);
  }

  lemma OpensWithin(trace: seq<Books>, cap: nat)
    requires IsRun(trace, cap) && |trace| == 1
    ensures AllWithin(trace, cap)
  {
    CapHolds(trace, cap);
  }

  /** Where every charge counts, every charge fits. */
  lemma {:induction false} CountedFits(trace: seq<Books>, cap: nat)
    requires IsRun(trace, cap) && AllCounted(trace)
    ensures AllFit(trace, cap)
    decreases |trace|
  {
    if |trace| > 1 {
      RunBefore(trace, cap);
      CountedFits(Init(trace), cap);
      CapIsKeptIff(Init(trace), cap);
      assert Last(Init(trace)) in Init(trace);
    }
  }

  /** Then the month's spend, with the uncharged ceilings in flight, never exceeds the
      cap; nor does the figure the launch check reads, once no run in flight is
      charged already. */
  lemma {:induction false} CapIsKept(trace: seq<Books>, cap: nat)
    requires IsRun(trace, cap) && AllFit(trace, cap)
    ensures var b := Last(trace);
      && b.spent + Exposure(b.rows, Entries(b.rows), b.charged) <= cap
      && ((forall id :: id in b.charged ==> !InFlightRun(b.rows, id)) ==>
            b.spent + InFlightCents(b.rows, Entries(b.rows)) <= cap)
  {
    var b := Last(trace);
    CapIsKeptIff(trace, cap);
    assert b in trace;
    CapHolds(trace, cap);
    FigureIsDue(trace, cap);
    if forall id :: id in b.charged ==> !InFlightRun(b.rows, id) {
      NothingPaid(b.rows, Entries(b.rows), b.charged);
    }
  }

  lemma {:induction false} NothingPaid(rows: Ledger, entries: seq<Entry>, charged: map<RunId, nat>)
    requires Lawful(rows) && forall id :: id in charged ==> !InFlightRun(rows, id)
    ensures PaidInFlight(rows, entries, charged) == 0
  {
    if entries != [] {
      NothingPaid(rows, Init(entries), charged);
      if ViewOf(rows, Last(entries).item).InFlight() { InFlightIsOwn(rows, Last(entries).item); }
    }
  }

  // ---- what is due can be spent

  /** One more step makes a longer run. */
  lemma RunGrows(trace: seq<Books>, c: Books, cap: nat)
    requires IsRun(trace, cap) && Next(Last(trace), c, cap)
    ensures IsRun(trace + [c], cap)
  {
    var longer := trace + [c];
    forall i | 0 < i < |longer|
      ensures Next(longer[i - 1], longer[i], cap)
    {
      assert longer[i - 1] == trace[i - 1];
      if i == |trace| { assert Last(trace) == trace[i - 1]; }
    }
  }

  /** An uncharged run in flight can be charged its whole ceiling. */
  lemma FlyingCanBeCharged(b: Books, item: Item, cap: nat) returns (c: Books)
    requires Lawful(b.rows) && ViewOf(b.rows, item).InFlight()
    requires ViewOf(b.rows, item).Launched().value !in b.charged
    ensures Next(b, c, cap)
    ensures var v := ViewOf(b.rows, item);
      var ceiling := CeilingOf(v, v.State());
      c == Books(b.rows, b.spent + ceiling, b.charged[v.Launched().value := ceiling], b.orphaned)
  {
    var v := ViewOf(b.rows, item);
    var id, ceiling := v.Launched().value, CeilingOf(v, v.State());
    InFlightIsOwn(b.rows, item);
    FlyingWasLaunched(b.rows, item);
    c := Books(b.rows, b.spent + ceiling, b.charged[id := ceiling], b.orphaned);
    assert Charges(b, c, id, ceiling);
  }

  /** The items of `entries` charged their ceilings in turn, nothing else moved. */
  ghost predicate SpentOn(b: Books, c: Books, entries: seq<Entry>) {
    && c.rows == b.rows && c.orphaned == b.orphaned
    && c.spent == b.spent + Exposure(b.rows, entries, b.charged)
    && (forall id :: id in c.charged ==> id in b.charged || exists e :: e in entries && e.item == id.item)
  }

  lemma NotYetCharged(b: Books, c: Books, entries: seq<Entry>)
    requires Lawful(b.rows) && entries != [] && DistinctItems(entries) && SpentOn(b, c, Init(entries))
    requires forall id :: id in b.charged ==> !InFlightRun(b.rows, id)
    requires ViewOf(b.rows, Last(entries).item).InFlight()
    ensures var v := ViewOf(b.rows, Last(entries).item);
      && v.Launched().value.item == Last(entries).item
      && v.Launched().value !in c.charged
      && Exposed(v, b.charged) == CeilingOf(v, v.State())
  {
    InFlightIsOwn(b.rows, Last(entries).item);
    OthersDiffer(entries);
  }

  /** One item more: charged when it is in flight, and its run was not charged before. */
  lemma OneMoreSpent(b: Books, c: Books, entries: seq<Entry>, cap: nat) returns (d: Books)
    requires Lawful(b.rows) && entries != [] && DistinctItems(entries) && SpentOn(b, c, Init(entries))
    requires forall id :: id in b.charged ==> !InFlightRun(b.rows, id)
    ensures d == c || Next(c, d, cap)
    ensures SpentOn(b, d, entries)
  {
    var item := Last(entries).item;
    d := c;
    assert entries == Init(entries) + [Last(entries)];
    if ViewOf(b.rows, item).InFlight() {
      NotYetCharged(b, c, entries);
      d := FlyingCanBeCharged(c, item, cap);
    }
  }

  lemma {:induction false} EachCanBeCharged(trace: seq<Books>, cap: nat, entries: seq<Entry>) returns (more: seq<Books>)
    requires IsRun(trace, cap) && Lawful(Last(trace).rows) && DistinctItems(entries)
    requires forall id :: id in Last(trace).charged ==> !InFlightRun(Last(trace).rows, id)
    ensures IsRun(trace + more, cap) && SpentOn(Last(trace), Last(trace + more), entries)
  {
    if entries == [] {
      more := [];
      assert trace + more == trace;
    } else {
      OthersDiffer(entries);
      more := EachCanBeCharged(trace, cap, Init(entries));
      var c := Last(trace + more);
      var d := OneMoreSpent(Last(trace), c, entries, cap);
      if d != c {
        RunGrows(trace + more, d, cap);
        assert (trace + more) + [d] == trace + (more + [d]);
        more := more + [d];
      }
    }
  }

  /** What is due is no mere estimate: while no run in flight is charged yet, the run
      of books can go on, charging none but runs that count, until all of it is spent. */
  lemma DueCanBeSpent(trace: seq<Books>, cap: nat) returns (more: seq<Books>)
    requires IsRun(trace, cap)
    requires forall id :: id in Last(trace).charged ==> !InFlightRun(Last(trace).rows, id)
    ensures IsRun(trace + more, cap)
    ensures Last(trace + more).spent == Due(Last(trace)) && Last(trace + more).orphaned == Last(trace).orphaned
  {
    var b := Last(trace);
    CapHolds(trace, cap);
    PlanStays(b.rows);
    more := EachCanBeCharged(trace, cap, Entries(b.rows));
  }

  // ---- the guards a caller can keep

  /** The row is a state row of an item that is in flight. */
  predicate WritesOver(rows: Ledger, r: Row) {
    r.StateRow? && ViewOf(rows, r.move.item).InFlight()
  }

  predicate NothingWrittenOver(rows: Ledger) {
    rows == [] || (NothingWrittenOver(Init(rows)) && !WritesOver(Init(rows), Last(rows)))
  }

  lemma {:induction false} NothingDisplaced(rows: Ledger, id: RunId)
    requires NothingWrittenOver(rows)
    ensures !Displaced(rows, id)
  {
    if rows != [] { NothingDisplaced(Init(rows), id); }
  }

  /** The step charges no run whose run row is already in. */
  ghost predicate ChargesFirst(b: Books, c: Books) {
    forall id, cost :: Charges(b, c, id, cost) ==> !HasRun(b.rows, id)
  }

  ghost predicate AllChargedFirst(trace: seq<Books>) {
    |trace| < 2 || (AllChargedFirst(Init(trace)) && ChargesFirst(Last(Init(trace)), Last(trace)))
  }

  lemma StepKeepsRows(b: Books, c: Books, cap: nat)
    requires Next(b, c, cap) && NothingWrittenOver(c.rows)
    ensures NothingWrittenOver(b.rows)
  {
    if c.rows != b.rows {
      assert c.rows == b.rows + [Last(c.rows)];
      InitSnoc(b.rows, Last(c.rows));
    }
  }

  lemma {:induction false} GuardedChargesCount(trace: seq<Books>, cap: nat)
    requires IsRun(trace, cap) && NothingWrittenOver(Last(trace).rows) && AllChargedFirst(trace)
    ensures AllCounted(trace)
    decreases |trace|
  {
    if |trace| > 1 {
      RunBefore(trace, cap);
      StepKeepsRows(Last(Init(trace)), Last(trace), cap);
      GuardedChargesCount(Init(trace), cap);
      GuardedStepCounts(Last(Init(trace)), Last(trace));
    }
  }

  lemma GuardedStepCounts(b: Books, c: Books)
    requires NothingWrittenOver(b.rows) && ChargesFirst(b, c)
    ensures ChargesCounted(b, c)
  {
    forall id, cost | Charges(b, c, id, cost)
      ensures Counted(b, id)
    {
      NothingDisplaced(b.rows, id);
    }
  }

  /** While no state row is written over a run in flight and every run is charged
      before its run row, no run of launches, charges and rows passes the cap. */
  lemma {:induction false} GuardsKeepTheCap(trace: seq<Books>, cap: nat)
    requires IsRun(trace, cap) && NothingWrittenOver(Last(trace).rows) && AllChargedFirst(trace)
    ensures var b := Last(trace); b.spent + Exposure(b.rows, Entries(b.rows), b.charged) <= cap
  {
    GuardedChargesCount(trace, cap);
    CountedFits(trace, cap);
    CapIsKept(trace, cap);
  }

  /** Both guards are needed: right after a row that writes over an uncharged run in
      flight, and right after its run row, the run's charge is orphaned whole. */
  lemma UnguardedChargeIsOrphaned(b: Books, r: Row, id: RunId, cost: nat, cap: nat)
    requires Balanced(b, cap) && InFlightRun(b.rows, id) && id !in b.charged
    requires Admissible(b.rows, r) && !IsLaunch(r)
    requires || (WritesOver(b.rows, r) && r.move.item == id.item)
             || (r.RunRow? && r.run.item == id.item && r.run.runId == id)
    requires cost <= CeilingOf(ViewOf(b.rows, id.item), id.step)
    ensures var c := b.(rows := b.rows + [r]);
      && Next(b, c, cap)
      && Next(c, Books(c.rows, c.spent + cost, c.charged[id := cost], c.orphaned + cost), cap)
  {
    var c := b.(rows := b.rows + [r]);
    InitSnoc(b.rows, r);
    SamePlan(b.rows, r);
    FlyingWasLaunched(b.rows, id.item);
    LaunchedStays(b.rows, r, id);
    assert Lawful(c.rows);
    InFlightIff(c.rows, id);
    DisplacedSnoc(b.rows, r, id);
    if r.RunRow? { assert r.run in RunsOf(c.rows, id.item); }
    assert RowStep(b, c);
    CeilingStays(b.rows, r, id);
    assert Charges(c, Books(c.rows, c.spent + cost, c.charged[id := cost], c.orphaned + cost), id, cost);
  }
}
