/** Which moves are legal, told of the ledger's rows: the Owner's answers a move
    needs, the documented way it must follow, and the runs it must wait for. */
module Rules {
  import opened Rows
  import opened View
  import opened Meaning
  import opened Flow
  import opened Protocol

  /** The documented way of an item, its second request for changes barred. */
  predicate Follows(kind: ItemType, from: State, to: State, sentBack: bool) {
    || (from == Planned && to == (if kind == Order then Build else Spec))
    || (from == Spec && (to == AwaitingGate || (to == Build && kind == Fix)))
    || (from == AwaitingGate && to == Build)
    || (from == Build && to in {Build, Verify})
    || (from == Verify && to == Review)
    || (from == Review && (to == Reviewed || (to == Build && !sentBack)))
    || (from == Reviewed && to == Ship)
    || (from == Ship && to == Merging)
    || (from == Merging && to == Merged)
  }

  lemma SuccessorsFollow(kind: ItemType, from: State, states: seq<Move>, to: State)
    ensures to in Successors(kind, from, states)
       <==> Follows(kind, from, to, exists m :: m in states && SentBack(m))
  {
  }

  /** Some review of the item was sent back to build. */
  ghost predicate WasSentBack(rows: Ledger, item: Item) {
    exists r :: r in rows && r.StateRow? && r.move.item == item && r.move.from == Review && r.move.to == Build
  }

  lemma {:induction false} StatesAreRows(rows: Ledger, item: Item)
    ensures forall m :: m in StatesOf(rows, item) <==> StateRow(m) in rows && m.item == item
  {
    if rows != [] {
      StatesAreRows(Init(rows), item);
      assert rows == Init(rows) + [Last(rows)];
    }
  }

  lemma {:induction false} SentBackIff(rows: Ledger, item: Item)
    ensures WasSentBack(rows, item)
       <==> exists m :: m in StatesOf(rows, item) && SentBack(m)
  {
    StatesAreRows(rows, item);
    if WasSentBack(rows, item) {
      var r :| r in rows && r.StateRow? && r.move.item == item && r.move.from == Review && r.move.to == Build;
      assert r == StateRow(r.move) && r.move in StatesOf(rows, item) && SentBack(r.move);
    }
    if m :| m in StatesOf(rows, item) && SentBack(m) {
      assert StateRow(m) in rows;
    }
  }

  // ---- the completed run behind a delivery failure

  /** The last of these rows that entered the step under a run id is at `i`. */
  predicate LastEntry(states: seq<Move>, step: State, i: int) {
    && 0 <= i < |states| && states[i].to == step && states[i].fields.runId.Some?
    && forall j :: i < j < |states| && states[j].to == step ==> states[j].fields.runId.None?
  }

  lemma {:induction false} AttemptsEnd(states: seq<Move>, runs: seq<Run>, step: State) returns (i: int)
    requires step != Stalled
    ensures i == -1 || LastEntry(states, step, i)
    ensures i == -1 ==>
      Attempts(states, runs, step) == [] && forall m :: m in states && m.to == step ==> m.fields.runId.None?
    ensures i >= 0 ==>
      var attempts := Attempts(states, runs, step);
      && attempts != [] && Last(attempts).run == LastRun(runs, states[i].fields.runId.value)
      && (Last(attempts).stalled <==> exists j :: i < j < |states| && states[j].to == Stalled && states[j].from == step)
  {
    i := -1;
    if states != [] {
      i := AttemptsEnd(Init(states), runs, step);
      var m := Last(states);
      assert states == Init(states) + [m];
      if m.to == step && m.fields.runId.Some? {
        i := |states| - 1;
      } else if m.to == Stalled && m.from == step && i >= 0 {
        assert states[|states| - 1] == m;
      }
    }
  }

  /** The last of these runs under the id is at `p`. */
  predicate LastUnder(runs: seq<Run>, id: RunId, p: int) {
    0 <= p < |runs| && runs[p].runId == id && forall q :: p < q < |runs| ==> runs[q].runId != id
  }

  lemma {:induction false} LastRunIs(runs: seq<Run>, id: RunId) returns (p: int)
    ensures p == -1 ==> LastRun(runs, id).None? && forall q :: !LastUnder(runs, id, q)
    ensures p != -1 ==>
      LastUnder(runs, id, p) && LastRun(runs, id) == Some(runs[p]) && forall q :: LastUnder(runs, id, q) ==> q == p
  {
    p := -1;
    if runs != [] {
      if Last(runs).runId == id {
        p := |runs| - 1;
      } else {
        p := LastRunIs(Init(runs), id);
        forall q | LastUnder(runs, id, q)
          ensures LastUnder(Init(runs), id, q)
        {
          assert forall j :: q <= j < |runs| - 1 ==> Init(runs)[j] == runs[j];
        }
      }
    }
  }

  /** The run an item's last state row says failed only in its delivery: the stall is of
      that cause, and the last run entered in the stalled step completed. */
  ghost predicate Delivered(rows: Ledger, item: Item, run: Run) {
    var states, runs := StatesOf(rows, item), RunsOf(rows, item);
    && states != [] && Last(states).to == Stalled && Last(states).fields.cause == Some(DeliveryFailed)
    && exists i, p :: LastEntry(states, Last(states).from, i) && LastUnder(runs, states[i].fields.runId.value, p)
                      && run == runs[p] && run.outcome == Completed
  }

  lemma OneLastEntry(states: seq<Move>, step: State, i: int)
    requires LastEntry(states, step, i)
    ensures forall j :: LastEntry(states, step, j) ==> j == i
  {
  }

  /** The delivered run is exactly that one. */
  lemma {:induction false} DeliveredIff(rows: Ledger, item: Item, run: Run)
    requires ViewOf(rows, item).State() == Stalled ==> Last(StatesOf(rows, item)).from != Stalled
    ensures DeliveredRun(ViewOf(rows, item)) == Some(run) <==> Delivered(rows, item, run)
  {
    var v := ViewOf(rows, item);
    if v.State() == Stalled && Last(v.states).fields.cause == Some(DeliveryFailed) {
      var step := Last(v.states).from;
      var i := AttemptsEnd(v.states, v.runs, step);
      if i >= 0 {
        OneLastEntry(v.states, step, i);
        assert v.states[|v.states| - 1].to == Stalled;
        StallsAreAttempts(Attempts(v.states, v.runs, step));
        var p := LastRunIs(v.runs, v.states[i].fields.runId.value);
      } else {
        assert forall j :: !LastEntry(v.states, step, j);
      }
    }
  }

  // ---- which moves are legal

  /** A move along the way: the gate approved, the reviewer no author, no run out. */
  ghost predicate MayAdvance(rows: Ledger, item: Item, kind: ItemType, from: State, to: State, fields: Fields) {
    && Follows(kind, from, to, WasSentBack(rows, item))
    && (from == AwaitingGate ==>
          exists k :: LastAnswering(rows, item, GateAsk, k) && rows[k].answer.choice == Approve)
    && (to == Reviewed && fields.verdict == Some(Pass) ==>
          fields.reviewerRun.None? || fields.reviewerRun.value !in fields.authorRuns)
    && !Running(rows, item)
  }

  /** A move out of a stall: to merged on the answer that says so, else back to the
      stalled state on a retry answer, with the delivered run's id if there is one. */
  ghost predicate MayResume(rows: Ledger, item: Item, to: State, fields: Fields) {
    if to == Merged then Resumed(rows, item, AsMerged)
    else
      && (exists k :: LastMove(rows, item, k) && rows[k].move.from == to)
      && (Resumed(rows, item, Retry) || Resumed(rows, item, RetryUp))
      && forall run :: DeliveredRun(ViewOf(rows, item)) == Some(run) ==> fields.runId == Some(run.runId)
  }

  /** The moves the state machine accepts. */
  ghost predicate Accepted(rows: Ledger, item: Item, to: State, fields: Fields) {
    var v := ViewOf(rows, item);
    var from := v.State();
    && v.entry.Some?
    && (|| (from == Blocked && to == Merged)
        || (from !in {Merged, Blocked, Stalled} && to == Stalled)
        || (&& from !in {Merged, Blocked} && to !in {Stalled, Blocked} && NothingAsked(rows, item)
            && if from == Stalled then MayResume(rows, item, to, fields)
               else MayAdvance(rows, item, v.entry.value.kind, from, to, fields)))
  }

  lemma {:induction false} ResumeRule(rows: Ledger, item: Item, to: State, fields: Fields)
    requires ViewOf(rows, item).State() == Stalled && NothingAsked(rows, item) && to != Stalled
    ensures StalledProblem(ViewOf(rows, item), to, fields).None? <==> MayResume(rows, item, to, fields)
  {
    PendingIff(rows, item);
    ResumedIff(rows, item, AsMerged);
    ResumedIff(rows, item, Retry);
    ResumedIff(rows, item, RetryUp);
    var k := LastMoveAt(rows, item);
    OneLastMove(rows, item, k);
  }

  lemma {:induction false} AdvanceRule(rows: Ledger, item: Item, to: State, fields: Fields)
    requires var v := ViewOf(rows, item);
      && v.entry.Some? && !v.State().IsTerminal() && v.State() != Stalled && NothingAsked(rows, item)
      && to !in {Stalled, Blocked}
    ensures var v := ViewOf(rows, item);
      Legal(v, to, fields) <==> MayAdvance(rows, item, v.entry.value.kind, v.State(), to, fields)
  {
    var v := ViewOf(rows, item);
    PendingIff(rows, item);
    SuccessorsFollow(v.entry.value.kind, v.State(), v.states, to);
    SentBackIff(rows, item);
    GateIff(rows, item, Approve);
    RunningIff(rows, item);
  }

  /** A move is legal exactly when the rows say so: both ways, for every ledger, item,
      state and fields. */
  lemma {:induction false} LegalIff(rows: Ledger, item: Item, to: State, fields: Fields)
    ensures Legal(ViewOf(rows, item), to, fields) <==> Accepted(rows, item, to, fields)
  {
    var v := ViewOf(rows, item);
    PendingIff(rows, item);
    if v.entry.Some? && !v.State().IsTerminal() && to !in {Stalled, Blocked} && NothingAsked(rows, item) {
      if v.State() == Stalled {
        ResumeRule(rows, item, to, fields);
      } else {
        AdvanceRule(rows, item, to, fields);
      }
    }
  }

  // ---- over whole runs

  /** In every lawful ledger no row takes an item anywhere but to stalled, blocked or
      merged while one of its asks is unanswered, and none but to stalled or blocked
      while its run is out: no launch over an open question, nor beside a runner. */
  lemma {:induction false} NoMoveOverAnAsk(rows: Ledger, k: nat)
    requires Lawful(rows) && 1 <= k < |rows| && rows[k].StateRow?
    ensures rows[k].move.to !in {Stalled, Blocked, Merged} ==> NothingAsked(rows[..k], rows[k].move.item)
    ensures rows[k].move.to !in {Stalled, Blocked} ==> !Running(rows[..k], rows[k].move.item)
  {
    var before, m := rows[..k], rows[k].move;
    LawfulPrefix(rows, k);
    PendingIff(before, m.item);
    RunningIff(before, m.item);
    RowsShaped(before, m.item);
    if m.to !in {Stalled, Blocked} {
      MoveFindsNoRun(before, m);
    }
  }

  lemma {:induction false} MoveFindsNoRun(before: Ledger, m: Move)
    requires MoveOk(before, m) && m.to !in {Stalled, Blocked}
    requires forall other :: other in StatesOf(before, m.item) ==> Shaped(other)
    ensures m.to != Merged ==> ViewOf(before, m.item).pending.None?
    ensures !ViewOf(before, m.item).InFlight()
  {
    var v := ViewOf(before, m.item);
    if v.states != [] { assert Last(v.states) in v.states; }
  }
}
