/** The monthly cap (tools/factory/conductor_run.py, conductor_spend.py): what
    the launch check guarantees over whole runs of launches, charges and rows. */
module Spend {
  import opened Rows
  import opened View
  import opened Protocol
  import opened Walk
  import opened Commands

  /** conductor_run._in_flight_usd, as the source sums it. */
  method InFlightUsd(rows: Ledger) returns (total: nat)
    ensures total == InFlightCents(rows, Entries(rows))
  {
    var entries := Entries(rows);
    total := 0;
    var i := 0;
    while i < |entries|
      invariant 0 <= i <= |entries|
      invariant total == InFlightCents(rows, entries[..i])
    {
      assert Init(entries[..i + 1]) == entries[..i];
      var v := ViewOf(rows, entries[i].item);
      if v.InFlight() {
        total := total + CeilingOf(v, v.State());
      }
      i := i + 1;
    }
    assert entries[..i] == entries;
  }

  /** The books of one batch: its ledger, the month's spend, and the runs whose
      spend row is written. `orphaned` totals the charges of runs that were not
      the in-flight run of their item when charged. */
  datatype Books = Books(rows: Ledger, spent: nat, charged: map<RunId, nat>, orphaned: nat)

  /** What an item may still spend under its launch: its ceiling less what its
      run is charged already. */
  function Exposed(v: ItemView, charged: map<RunId, nat>): nat {
    if !v.InFlight() then 0
    else
      var ceiling := CeilingOf(v, v.State());
      var paid := Paid(v, charged);
      if paid <= ceiling then ceiling - paid else 0
  }

  /** What an in-flight run is charged already. */
  function Paid(v: ItemView, charged: map<RunId, nat>): nat {
    if v.InFlight() && v.Launched().value in charged then charged[v.Launched().value] else 0
  }

  function Exposure(rows: Ledger, entries: seq<Entry>, charged: map<RunId, nat>): nat {
    if entries == [] then 0
    else Exposure(rows, Init(entries), charged) + Exposed(ViewOf(rows, Last(entries).item), charged)
  }

  function PaidInFlight(rows: Ledger, entries: seq<Entry>, charged: map<RunId, nat>): nat {
    if entries == [] then 0
    else PaidInFlight(rows, Init(entries), charged) + Paid(ViewOf(rows, Last(entries).item), charged)
  }

  /** A launch row of this run stands in the ledger. */
  ghost predicate WasLaunched(rows: Ledger, id: RunId) {
    && id.step.IsStep()
    && exists m :: m in StatesOf(rows, id.item) && m.to == id.step && m.fields.pid.Some? && m.fields.runId == Some(id)
  }

  predicate IsLaunch(r: Row) {
    r.StateRow? && r.move.to.IsStep() && r.move.fields.pid.Some?
  }

  predicate InFlightRun(rows: Ledger, id: RunId) {
    var v := ViewOf(rows, id.item);
    v.InFlight() && v.Launched() == Some(id)
  }

  // ---- the steps

  /** A launch, its cap read and its row one step. */
  ghost predicate LaunchStep(b: Books, c: Books, cap: nat) {
    exists at, item, step: State, pid ::
      && step.IsStep()
      && LaunchRows(b.rows, at, item, step, pid, b.spent, cap).Launched?
      && c == b.(rows := b.rows + [LaunchRows(b.rows, at, item, step, pid, b.spent, cap).row])
  }

  /** A launched run's one spend row, of at most its ceiling. */
  ghost predicate Charges(b: Books, c: Books, id: RunId, cost: nat) {
    && WasLaunched(b.rows, id) && id !in b.charged
    && cost <= CeilingOf(ViewOf(b.rows, id.item), id.step)
    && c == Books(b.rows, b.spent + cost, b.charged[id := cost],
                  if InFlightRun(b.rows, id) then b.orphaned else b.orphaned + cost)
  }

  ghost predicate ChargeStep(b: Books, c: Books) {
    exists id, cost :: Charges(b, c, id, cost)
  }

  /** Any other admissible row. */
  ghost predicate RowStep(b: Books, c: Books) {
    exists r :: Admissible(b.rows, r) && !IsLaunch(r) && c == b.(rows := b.rows + [r])
  }

  /** A new month counts less spend. */
  predicate MonthStep(b: Books, c: Books) {
    c.spent <= b.spent && c == b.(spent := c.spent)
  }

  ghost predicate Next(b: Books, c: Books, cap: nat) {
    LaunchStep(b, c, cap) || ChargeStep(b, c) || RowStep(b, c) || MonthStep(b, c)
  }

  /** A run of the books from an opening within the cap. */
  ghost predicate IsRun(trace: seq<Books>, cap: nat) {
    && trace != []
    && Lawful(trace[0].rows) && |trace[0].rows| == 1
    && trace[0].spent <= cap && trace[0].charged == map[] && trace[0].orphaned == 0
    && forall i :: 0 < i < |trace| ==> Next(trace[i - 1], trace[i], cap)
  }

  /** The month's spend, and what the runs in flight may still be charged. */
  function Due(b: Books): nat {
    b.spent + Exposure(b.rows, Entries(b.rows), b.charged)
  }

  ghost predicate Sound(b: Books) {
    Lawful(b.rows) && forall id :: id in b.charged ==> WasLaunched(b.rows, id)
  }

  ghost predicate Balanced(b: Books, cap: nat) {
    Sound(b) && Due(b) <= cap + b.orphaned
  }

  // ---- sums over the plan

  lemma {:induction false} ExposureFalls(rows: Ledger, after: Ledger, entries: seq<Entry>,
                                         charged: map<RunId, nat>, charged': map<RunId, nat>)
    requires forall e :: e in entries ==>
      Exposed(ViewOf(after, e.item), charged') <= Exposed(ViewOf(rows, e.item), charged)
    ensures Exposure(after, entries, charged') <= Exposure(rows, entries, charged)
  {
    if entries != [] {
      assert Last(entries) in entries;
      ExposureFalls(rows, after, Init(entries), charged, charged');
    }
  }

  /** One item changes: the sum changes by what that item does. */
  lemma {:induction false} ExposureOfOne(rows: Ledger, after: Ledger, entries: seq<Entry>, item: Item,
                                         charged: map<RunId, nat>, charged': map<RunId, nat>)
    requires DistinctItems(entries)
    requires forall e :: e in entries && e.item != item ==>
      Exposed(ViewOf(after, e.item), charged') == Exposed(ViewOf(rows, e.item), charged)
    ensures Exposure(after, entries, charged')
         == Exposure(rows, entries, charged)
            + if exists e :: e in entries && e.item == item
              then Exposed(ViewOf(after, item), charged') - Exposed(ViewOf(rows, item), charged) else 0
  {
    if entries != [] {
      var before := Init(entries);
      assert entries == before + [Last(entries)];
      ExposureOfOne(rows, after, before, item, charged, charged');
      if Last(entries).item == item {
        assert Last(entries) in entries;
      } else if exists e :: e in entries && e.item == item {
        var e :| e in entries && e.item == item;
        assert e in before;
      }
    }
  }

  lemma {:induction false} ExposureAndPaid(rows: Ledger, entries: seq<Entry>, charged: map<RunId, nat>)
    ensures Exposure(rows, entries, charged) <= InFlightCents(rows, entries)
    ensures InFlightCents(rows, entries) <= Exposure(rows, entries, charged) + PaidInFlight(rows, entries, charged)
  {
    if entries != [] {
      ExposureAndPaid(rows, Init(entries), charged);
    }
  }

  // ---- each step keeps the balance

  lemma {:induction false} LaunchedStays(rows: Ledger, r: Row, id: RunId)
    requires WasLaunched(rows, id)
    ensures WasLaunched(rows + [r], id)
  {
    InitSnoc(rows, r);
    var m :| m in StatesOf(rows, id.item) && m.to == id.step && m.fields.pid.Some? && m.fields.runId == Some(id);
    assert m in StatesOf(rows + [r], id.item);
  }

  lemma {:induction false} FirstRunGrows(runs: seq<Run>, more: Run, id: RunId)
    requires FirstRun(runs, id).Some?
    ensures FirstRun(runs + [more], id) == FirstRun(runs, id)
  {
    InitSnoc(runs, more);
  }

  lemma {:induction false} FirstRunFinds(runs: seq<Run>, id: RunId)
    requires exists r :: r in runs && r.runId == id
    ensures FirstRun(runs, id).Some?
  {
    if Last(runs).runId != id {
      FirstRunFinds(Init(runs), id);
    }
  }

  lemma CeilingByEntry(v: ItemView, other: ItemView, step: State)
    requires v.entry == other.entry
    ensures CeilingOf(v, step) == CeilingOf(other, step)
  {
  }

  /** A state row that is no launch leaves its item out of flight. */
  lemma {:induction false} MoveLandsItem(rows: Ledger, m: Move)
    requires Lawful(rows) && MoveOk(rows, m) && !IsLaunch(StateRow(m))
    ensures !ViewOf(rows + [StateRow(m)], m.item).InFlight()
  {
    InitSnoc(rows, StateRow(m));
    var v := ViewOf(rows, m.item);
    assert StatesOf(rows + [StateRow(m)], m.item) == v.states + [m];
    assert RunsOf(rows + [StateRow(m)], m.item) == v.runs;
    if m.fields.runId.Some? {
      RowsShaped(rows, m.item);
      DeliveredIsLaunched(v);
      FirstRunFinds(v.runs, m.fields.runId.value);
    }
  }

  /** A run row takes its item out of flight, or leaves it as it was. */
  lemma RunLandsItem(rows: Ledger, run: Run)
    ensures var v, v' := ViewOf(rows, run.item), ViewOf(rows + [RunRow(run)], run.item);
      v'.entry == v.entry && v'.states == v.states && (v'.InFlight() ==> v.InFlight())
  {
    InitSnoc(rows, RunRow(run));
    var v := ViewOf(rows, run.item);
    assert RunsOf(rows + [RunRow(run)], run.item) == v.runs + [run];
    if v.Launched().Some? && v.Finishing().Some? {
      FirstRunGrows(v.runs, run, v.Launched().value);
    }
  }

  lemma OtherRowsKeepFlight(rows: Ledger, r: Row, item: Item)
    requires !(r.StateRow? && r.move.item == item) && !(r.RunRow? && r.run.item == item) && !r.PlanRow?
    ensures var v, v' := ViewOf(rows, item), ViewOf(rows + [r], item);
      v'.entry == v.entry && v'.states == v.states && v'.runs == v.runs
  {
    InitSnoc(rows, r);
  }

  /** A row that is no launch puts no item in flight, and moves no ceiling. */
  lemma {:induction false} RowPutsNothingInFlight(rows: Ledger, r: Row, item: Item, charged: map<RunId, nat>)
    requires Lawful(rows) && Admissible(rows, r) && !IsLaunch(r)
    ensures Exposed(ViewOf(rows + [r], item), charged) <= Exposed(ViewOf(rows, item), charged)
  {
    var v, v' := ViewOf(rows, item), ViewOf(rows + [r], item);
    if r.StateRow? && r.move.item == item {
      MoveLandsItem(rows, r.move);
    } else {
      if r.RunRow? && r.run.item == item {
        RunLandsItem(rows, r.run);
      } else {
        OtherRowsKeepFlight(rows, r, item);
      }
      CeilingByEntry(v, v', v.State());
    }
  }

  lemma RowKeepsBalance(b: Books, c: Books, cap: nat)
    requires Balanced(b, cap) && RowStep(b, c)
    ensures Balanced(c, cap)
  {
    var r :| Admissible(b.rows, r) && !IsLaunch(r) && c == b.(rows := b.rows + [r]);
    InitSnoc(b.rows, r);
    assert Lawful(c.rows);
    SamePlan(b.rows, r);
    forall id | id in c.charged
      ensures WasLaunched(c.rows, id)
    {
      LaunchedStays(b.rows, r, id);
    }
    forall e | e in Entries(b.rows)
      ensures Exposed(ViewOf(c.rows, e.item), c.charged) <= Exposed(ViewOf(b.rows, e.item), b.charged)
    {
      RowPutsNothingInFlight(b.rows, r, e.item, b.charged);
    }
    ExposureFalls(b.rows, c.rows, Entries(b.rows), b.charged, c.charged);
  }

  /** A launched item is exposed for its whole ceiling: its run id is new. */
  lemma {:induction false} LaunchIsExposed(rows: Ledger, m: Move, charged: map<RunId, nat>)
    requires Lawful(rows) && MoveOk(rows, m) && m.to.IsStep()
    requires LaunchFields(ViewOf(rows, m.item), m.to, m.fields)
    requires forall id :: id in charged ==> WasLaunched(rows, id)
    ensures Exposed(ViewOf(rows + [StateRow(m)], m.item), charged) <= CeilingOf(ViewOf(rows, m.item), m.to)
  {
    var r := StateRow(m);
    InitSnoc(rows, r);
    assert Lawful(rows + [r]);
    SamePlan(rows, r);
    var v, v' := ViewOf(rows, m.item), ViewOf(rows + [r], m.item);
    assert v'.states == v.states + [m];
    assert v'.State() == m.to;
  }

  lemma LaunchKeepsBalance(b: Books, c: Books, cap: nat)
    requires Balanced(b, cap) && LaunchStep(b, c, cap)
    ensures Balanced(c, cap)
  {
    var at, item, step: State, pid :|
      && step.IsStep()
      && LaunchRows(b.rows, at, item, step, pid, b.spent, cap).Launched?
      && c == b.(rows := b.rows + [LaunchRows(b.rows, at, item, step, pid, b.spent, cap).row]);
    var r := LaunchRows(b.rows, at, item, step, pid, b.spent, cap).row;
    LaunchExtends(b.rows, at, item, step, pid, b.spent, cap);
    InitSnoc(b.rows, r);
    SamePlan(b.rows, r);
    PlanStays(b.rows);
    forall id | id in c.charged
      ensures WasLaunched(c.rows, id)
    {
      LaunchedStays(b.rows, r, id);
    }
    LaunchIsExposed(b.rows, r.move, b.charged);
    forall e | e in Entries(b.rows) && e.item != item
      ensures Exposed(ViewOf(c.rows, e.item), c.charged) == Exposed(ViewOf(b.rows, e.item), b.charged)
    {
      Frame(b.rows, r, e.item);
    }
    ExposureOfOne(b.rows, c.rows, Entries(b.rows), item, b.charged, c.charged);
    ExposureAndPaid(b.rows, Entries(b.rows), b.charged);
  }

  /** A run in flight is a run of its own item. */
  lemma {:induction false} InFlightIsOwn(rows: Ledger, item: Item)
    requires Lawful(rows) && ViewOf(rows, item).InFlight()
    ensures ViewOf(rows, item).Launched().value.item == item
    ensures ViewOf(rows, item).Launched().value.step == ViewOf(rows, item).State()
  {
    RowsShaped(rows, item);
    assert Last(StatesOf(rows, item)) in StatesOf(rows, item);
  }

  lemma ChargeKeepsBalance(b: Books, c: Books, cap: nat)
    requires Balanced(b, cap) && ChargeStep(b, c)
    ensures Balanced(c, cap)
  {
    var id, cost :| Charges(b, c, id, cost);
    ChargeMovesDue(b, c, id, cost);
  }

  /** The charge of a run in flight moves what was due into spend; any other charge
      is due beside it. */
  lemma ChargeMovesDue(b: Books, c: Books, id: RunId, cost: nat)
    requires Lawful(b.rows) && Charges(b, c, id, cost)
    ensures Due(c) == Due(b) + if InFlightRun(b.rows, id) then 0 else cost
  {
    var entries := Entries(b.rows);
    PlanStays(b.rows);
    forall e | e in entries && e.item != id.item
      ensures Exposed(ViewOf(c.rows, e.item), c.charged) == Exposed(ViewOf(b.rows, e.item), b.charged)
    {
      ChargeLeavesOthers(b, c, id, cost, e.item);
    }
    ExposureOfOne(b.rows, c.rows, entries, id.item, b.charged, c.charged);
    ChargeLowersExposure(b, c, id, cost);
    if !(exists e :: e in entries && e.item == id.item) {
      ChargeNeedsEntry(b, c, id, cost);
    }
  }

  lemma ChargeLeavesOthers(b: Books, c: Books, id: RunId, cost: nat, item: Item)
    requires Lawful(b.rows) && Charges(b, c, id, cost) && item != id.item
    ensures Exposed(ViewOf(c.rows, item), c.charged) == Exposed(ViewOf(b.rows, item), b.charged)
  {
    if ViewOf(b.rows, item).InFlight() { InFlightIsOwn(b.rows, item); }
  }

  lemma ChargeNeedsEntry(b: Books, c: Books, id: RunId, cost: nat)
    requires Charges(b, c, id, cost) && forall e :: e in Entries(b.rows) ==> e.item != id.item
    ensures cost == 0
  {
    CeilingNeedsEntry(b.rows, id.item, id.step);
  }

  /** The charge of a run in flight leaves it that much less to spend. */
  lemma ChargeLowersExposure(b: Books, c: Books, id: RunId, cost: nat)
    requires Lawful(b.rows) && Charges(b, c, id, cost)
    ensures Exposed(ViewOf(c.rows, id.item), c.charged)
         == Exposed(ViewOf(b.rows, id.item), b.charged) - if InFlightRun(b.rows, id) then cost else 0
  {
    if ViewOf(b.rows, id.item).InFlight() { InFlightIsOwn(b.rows, id.item); }
  }

  lemma CeilingNeedsEntry(rows: Ledger, item: Item, step: State)
    requires forall e :: e in Entries(rows) ==> e.item != item
    ensures CeilingOf(ViewOf(rows, item), step) == 0
  {
    if FindEntry(Entries(rows), item).Some? {
      FoundEntry(Entries(rows), item);
    }
  }

  /** A run of books is a run and one more step. */
  lemma RunBefore(trace: seq<Books>, cap: nat)
    requires IsRun(trace, cap) && |trace| > 1
    ensures IsRun(Init(trace), cap) && Next(Last(Init(trace)), Last(trace), cap)
  {
    var before := Init(trace);
    assert forall i :: 0 <= i < |before| ==> before[i] == trace[i];
    assert Next(trace[|trace| - 1 - 1], trace[|trace| - 1], cap);
  }

  /** In every run the month's spend and what is still exposed stay within the
      cap and what orphaned runs were charged: the launch check alone, with no
      assumption on stalls, blocks or dead runners. */
  lemma {:induction false} CapHolds(trace: seq<Books>, cap: nat)
    requires IsRun(trace, cap)
    ensures Balanced(Last(trace), cap)
    decreases |trace|
  {
    if |trace| > 1 {
      RunBefore(trace, cap);
      CapHolds(Init(trace), cap);
      var b, c := Last(Init(trace)), Last(trace);
      if LaunchStep(b, c, cap) {
        LaunchKeepsBalance(b, c, cap);
      } else if ChargeStep(b, c) {
        ChargeKeepsBalance(b, c, cap);
      } else if RowStep(b, c) {
        RowKeepsBalance(b, c, cap);
      }
    } else {
      OpeningIsUnexposed(trace[0].rows, Entries(trace[0].rows), trace[0].charged);
    }
  }

  lemma {:induction false} OpeningIsUnexposed(rows: Ledger, entries: seq<Entry>, charged: map<RunId, nat>)
    requires |rows| == 1 && rows[0].PlanRow?
    ensures Exposure(rows, entries, charged) == 0
  {
    if entries != [] {
      assert Init(rows) == [];
      assert StatesOf(rows, Last(entries).item) == [];
      OpeningIsUnexposed(rows, Init(entries), charged);
    }
  }

  /** The figure the launch check reads is over the cap by no more than what
      orphaned runs, and runs between their spend row and their run row, were
      charged: with neither, it never exceeds the cap. */
  lemma SpendStaysUnderCap(trace: seq<Books>, cap: nat)
    requires IsRun(trace, cap)
    ensures var b := Last(trace);
      b.spent + InFlightCents(b.rows, Entries(b.rows))
      <= cap + b.orphaned + PaidInFlight(b.rows, Entries(b.rows), b.charged)
  {
    CapHolds(trace, cap);
    FigureIsDue(trace, cap);
  }

  /** A run's ceiling does not move with the row after it. */
  lemma {:induction false} CeilingStays(rows: Ledger, r: Row, id: RunId)
    requires Lawful(rows) && Lawful(rows + [r])
    ensures CeilingOf(ViewOf(rows + [r], id.item), id.step) == CeilingOf(ViewOf(rows, id.item), id.step)
  {
    SamePlan(rows, r);
    CeilingByEntry(ViewOf(rows, id.item), ViewOf(rows + [r], id.item), id.step);
  }

  /** No run is ever charged over its ceiling. */
  ghost predicate ChargedWithin(b: Books) {
    forall id :: id in b.charged ==> b.charged[id] <= CeilingOf(ViewOf(b.rows, id.item), id.step)
  }

  lemma StepChargesWithin(b: Books, c: Books, cap: nat)
    requires Next(b, c, cap) && Lawful(b.rows) && Lawful(c.rows) && ChargedWithin(b)
    ensures ChargedWithin(c)
  {
    if c.rows != b.rows {
      assert c.charged == b.charged && c.rows == b.rows + [Last(c.rows)];
      forall id | id in c.charged
        ensures c.charged[id] <= CeilingOf(ViewOf(c.rows, id.item), id.step)
      {
        CeilingStays(b.rows, Last(c.rows), id);
      }
    }
  }

  lemma {:induction false} RunsChargeWithin(trace: seq<Books>, cap: nat)
    requires IsRun(trace, cap)
    ensures ChargedWithin(Last(trace))
    decreases |trace|
  {
    if |trace| > 1 {
      RunBefore(trace, cap);
      RunsChargeWithin(Init(trace), cap);
      CapHolds(Init(trace), cap);
      CapHolds(trace, cap);
      StepChargesWithin(Last(Init(trace)), Last(trace), cap);
    }
  }

  lemma {:induction false} FlightIsExposedOrPaid(b: Books, entries: seq<Entry>)
    requires Lawful(b.rows) && ChargedWithin(b)
    ensures InFlightCents(b.rows, entries)
         == Exposure(b.rows, entries, b.charged) + PaidInFlight(b.rows, entries, b.charged)
  {
    if entries != [] {
      FlightIsExposedOrPaid(b, Init(entries));
      if ViewOf(b.rows, Last(entries).item).InFlight() { InFlightIsOwn(b.rows, Last(entries).item); }
    }
  }

  /** In every run the figure the launch check reads is what is due, and what the
      runs in flight are charged already. */
  lemma FigureIsDue(trace: seq<Books>, cap: nat)
    requires IsRun(trace, cap)
    ensures var b := Last(trace);
      b.spent + InFlightCents(b.rows, Entries(b.rows)) == Due(b) + PaidInFlight(b.rows, Entries(b.rows), b.charged)
  {
    CapHolds(trace, cap);
    RunsChargeWithin(trace, cap);
    FlightIsExposedOrPaid(Last(trace), Entries(Last(trace).rows));
  }
}
