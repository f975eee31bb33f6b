/** A batch ledger and its commands. Each command reads every row, decides, and
    appends its rows in one step, as the source does under an exclusive lock;
    `Valid` is that the ledger is lawful: every command keeps it, and so every
    invariant proved of lawful ledgers, but for a stall queued on an item that no
    longer stands open. */
module Batch {
  import opened Rows
  import opened View
  import opened Flow
  import opened Consent
  import opened Survey
  import opened Protocol
  import opened Offers
  import opened Commands
  import opened Meaning
  import opened Rules
  import opened Merges
  import opened Due
  import opened Effects
  import opened Turns
  import opened Plan
  import opened Citations
  import opened Renumber

  lemma {:induction false} ReserveRowsExtend(rows: Ledger, more: seq<Row>)
    requires forall row :: row in more ==> row.ReserveRow?
    ensures Extends(rows, more)
    decreases |more|
  {
    if more != [] {
      assert more[0] in more && Admissible(rows, more[0]);
      ReserveRowsExtend(rows + [more[0]], more[1..]);
    }
  }

  lemma {:induction false} RenumberExtends(rows: Ledger, item: Item, moves: Moves)
    ensures Extends(rows, RenumberRows(item, moves))
  {
    ReserveRowsExtend(rows, RenumberRows(item, moves));
  }

  /** No reserve row is an ask. */
  lemma {:induction false} ReserveRowsAskNothing(rows: Ledger, more: seq<Row>)
    requires forall row :: row in more ==> row.ReserveRow?
    ensures AskCount(rows + more) == AskCount(rows)
    decreases |more|
  {
    if more == [] {
      assert rows + more == rows;
    } else {
      assert more[0] in more;
      InitSnoc(rows, more[0]);
      ReserveRowsAskNothing(rows + [more[0]], more[1..]);
      assert rows + more == (rows + [more[0]]) + more[1..];
    }
  }

  lemma {:induction false} BlockOpens(rows: Ledger, p: PlannedItem)
    requires Lawful(rows)
    ensures Lawful(rows + BlockRows(p)) && AskCount(rows + BlockRows(p)) == AskCount(rows)
  {
    ReserveRowsExtend(rows, BlockRows(p));
    LawfulExtends(rows, BlockRows(p));
    ReserveRowsAskNothing(rows, BlockRows(p));
  }

  lemma OpeningIsLawful(entries: seq<Entry>)
    requires PlanOk(entries)
    ensures Lawful([PlanRow(entries)]) && AskCount([PlanRow(entries)]) == 0
  {
    assert Init([PlanRow(entries)]) == [];
  }

  /** The spend ask is the batch's first. */
  lemma {:induction false} SpendAskOpens(rows: Ledger)
    requires Lawful(rows) && AskCount(rows) == 0
    ensures Lawful(rows + [AskRow(Ask(None, 1, SpendAsk, [Approve, Decline], Approve, [], map[]))])
  {
    InitSnoc(rows, AskRow(Ask(None, 1, SpendAsk, [Approve, Decline], Approve, [], map[])));
  }

  /** The offer is of an item of the plan, and is the step it is due on the rows left. */
  ghost predicate LaunchDue(before: Ledger, rows: Ledger, w: World, offer: Offer) {
    exists entry :: entry in Entries(before) && entry.item == offer.item
      && IsDue(ViewOf(rows, offer.item), entry.kind, FactsOf(w.facts, offer.item), CoveredNow(rows, w, offer.item),
               offer.ready)
  }

  lemma {:induction false} LaunchOverNothing(rows: Ledger, item: Item, step: State, fields: Fields)
    requires Lawful(rows) && step.IsStep() && Accepted(rows, item, step, fields)
    ensures NothingAsked(rows, item) && !Running(rows, item)
  {
    RunningIff(rows, item);
    RowsShaped(rows, item);
    var v := ViewOf(rows, item);
    if v.states != [] { assert Last(v.states) in v.states; }
  }

  class BatchLedger {
    var rows: Ledger

    ghost predicate Valid()
      reads this
    {
      Lawful(rows)
    }

    /** The item may still stall: it is neither terminal nor stalled already. */
    ghost predicate StandsOpen(item: Item)
      reads this
    {
      !ViewOf(rows, item).State().IsTerminal() && ViewOf(rows, item).State() != Stalled
    }

    /** `open`: the plan row, each planned item's reserve rows, and the spend ask. */
    constructor Open(items: seq<PlannedItem>, band: (Item, State) -> Band)
      requires items != [] && Apart(items) && forall i :: 0 <= i < |items| ==> Priced(items[i])
      ensures Valid()
      ensures rows == OpenRows(EntriesOf(items, band), items)
                      + [AskRow(Ask(None, 1, SpendAsk, [Approve, Decline], Approve, [], map[]))]
    {
      var entries := EntriesOf(items, band);
      var written := [PlanRow(entries)];
      EntriesArePlanOk(items, band);
      OpeningIsLawful(entries);
      for i := 0 to |items|
        invariant written == OpenRows(entries, items[..i])
        invariant Lawful(written) && AskCount(written) == 0
      {
        assert Init(items[..i + 1]) == items[..i];
        BlockOpens(written, items[i]);
        written := written + BlockRows(items[i]);
      }
      assert items[..|items|] == items;
      SpendAskOpens(written);
      rows := written + [AskRow(Ask(None, 1, SpendAsk, [Approve, Decline], Approve, [], map[]))];
    }

    /** The one write: rows that extend the ledger lawfully. */
    method Append(more: seq<Row>)
      requires Valid() && Extends(rows, more)
      modifies this
      ensures Valid() && rows == old(rows) + more
    {
      LawfulExtends(rows, more);
      rows := rows + more;
    }

    /** `ask`: an ask row with a fresh id, refused when malformed. */
    method RaiseAsk(owner: Option<Item>, kind: AskKind, options: seq<Choice>, recommended: Choice, covers: seq<Item>)
      returns (id: Option<nat>)
      requires Valid()
      modifies this
      ensures Valid()
      ensures id.Some? <==>
        && options != [] && (forall i, j :: 0 <= i < j < |options| ==> options[i] != options[j])
        && recommended in options && (forall i, j :: 0 <= i < j < |covers| ==> covers[i] != covers[j])
      ensures var next := AskCount(old(rows)) + 1;
        if id.Some? then
          id.value == next && rows == old(rows) + [AskRow(Ask(owner, next, kind, options, recommended, covers, map[]))]
        else rows == old(rows)
    {
      var ask := NewAsk(rows, owner, kind, options, recommended, covers, map[]);
      if AskOk(ask) {
        ExtendsOne(rows, AskRow(ask));
        Append([AskRow(ask)]);
        id := Some(ask.id);
      } else {
        id := None;
      }
    }

    /** `answer`: refused from a Worker, for an unknown or answered ask, and for
        a choice the ask does not offer. */
    method AnswerAsk(at: int, id: nat, choice: Choice, fromWorker: bool) returns (done: bool)
      requires Valid()
      modifies this
      ensures Valid()
      ensures var out := AnswerRows(old(rows), at, id, choice);
        done == (!fromWorker && out.Written?) && rows == if done then old(rows) + out.rows else old(rows)
    {
      done := false;
      if !fromWorker {
        var out := AnswerRows(rows, at, id, choice);
        if out.Written? {
          AnswerExtends(rows, at, id, choice);
          Append(out.rows);
          done := true;
        }
      }
    }

    /** `run`: the launch, or the pause that holds it. */
    method LaunchStep(at: int, item: Item, step: State, pid: nat, spent: nat, cap: nat) returns (out: Launched)
      requires Valid() && step.IsStep()
      modifies this
      ensures Valid() && out == LaunchRows(old(rows), at, item, step, pid, spent, cap)
      ensures out.Launched? ==> rows == old(rows) + [out.row]
      ensures out.Paused? ==> rows == old(rows) + out.rows
      ensures out.NotLaunched? ==> rows == old(rows)
      ensures var fields := NO_FIELDS.(runId := Some(NextRun(ViewOf(old(rows), item), step)), pid := Some(pid));
        && (out.NotLaunched? <==> !Accepted(old(rows), item, step, fields))
        && (out.Launched? ==> NothingAsked(old(rows), item) && !Running(old(rows), item))
    {
      out := LaunchRows(rows, at, item, step, pid, spent, cap);
      LaunchExtends(rows, at, item, step, pid, spent, cap);
      LaunchedIff(rows, at, item, step, pid, spent, cap);
      if out.Launched? { LaunchOverNothing(rows, item, step, out.row.move.fields); }
      match out {
        case Launched(row) =>
          ExtendsOne(rows, row);
          Append([row]);
        case Paused(more) => Append(more);
        case NotLaunched(_) =>
      }
    }

    /** The run row a runner leaves for the launch it was given. */
    method FinishRun(run: Run)
      requires Valid() && RunOk(rows, run)
      modifies this
      ensures Valid() && rows == old(rows) + [RunRow(run)]
    {
      ExtendsOne(rows, RunRow(run));
      Append([RunRow(run)]);
    }

    /** The verdict of a finished review run. The ledger stays lawful unless it is a
        second `changes` on an item that no longer stands open. */
    method RecordVerdict(at: int, item: Item, verdict: Verdict, reviewer: RunId, head: string)
      returns (out: Flow.Outcome<Refusal>)
      requires Valid() && reviewer.step == Review && IsText(head)
      modifies this
      ensures out == VerdictRows(old(rows), at, item, verdict, reviewer, head)
      ensures rows == if out.Written? then old(rows) + out.rows else old(rows)
      ensures Valid() <==> !out.Written? || !SecondChanges(ViewOf(old(rows), item), verdict) || old(StandsOpen(item))
      ensures out.Written? && verdict == Pass ==>
        |out.rows| == 1 && out.rows[0].StateRow?
        && forall id :: id in out.rows[0].move.fields.authorRuns <==> Authored(old(rows), item, id)
    {
      out := VerdictRows(rows, at, item, verdict, reviewer, head);
      PassIsRecorded(rows, at, item, reviewer, head);
      if out.Written? {
        VerdictExtends(rows, at, item, verdict, reviewer, head);
        LawfulIffExtends(rows, out.rows);
        rows := rows + out.rows;
      }
    }

    /** `queue_stall`, which asks no legality: the ledger stays lawful exactly when the
        item stood open. */
    method QueueStall(at: int, item: Item, cause: Cause, recommended: Choice) returns (out: Flow.Outcome<Refusal>)
      requires Valid()
      modifies this
      ensures out == QueueStallRows(old(rows), at, item, cause, recommended)
      ensures rows == if out.Written? then old(rows) + out.rows else old(rows)
      ensures Valid() <==> !out.Written? || old(StandsOpen(item))
    {
      out := QueueStallRows(rows, at, item, cause, recommended);
      if out.Written? {
        StallIsLawfulIffOpen(rows, at, item, cause, recommended);
        LawfulIffExtends(rows, out.rows);
        rows := rows + out.rows;
      }
    }

    /** `merge`, its first row: refused unless the precondition holds. */
    method BeginMerge(at: int, item: Item, pid: nat, blobs: Blobs, policy: StandingPolicy)
      returns (out: Flow.Outcome<Refusal>)
      requires Valid()
      modifies this
      ensures Valid() && out == BeginMergeRows(old(rows), at, item, pid, blobs, policy)
      ensures out.Written? <==> Mergeable(old(rows), item, blobs, policy)
      ensures rows == if out.Written? then old(rows) + out.rows else old(rows)
    {
      out := BeginMergeRows(rows, at, item, pid, blobs, policy);
      MergeAllowedIff(rows, item, blobs, policy);
      if MergeAllowed(rows, item, blobs, policy) { AllowedMergeBegins(rows, at, item, pid, blobs, policy); }
      if out.Written? {
        BeginMergeExtends(rows, at, item, pid, blobs, policy);
        Append(out.rows);
      }
    }

    /** The merged row: a landed merge turn, or a blocked item close reconciles. */
    method RecordMerged(at: int, item: Item, pr: nat) returns (out: Flow.Outcome<Refusal>)
      requires Valid()
      modifies this
      ensures Valid() && out == MoveRows(old(rows), at, item, Merged, NO_FIELDS.(pr := Some(pr)))
      ensures out.Written? <==> Accepted(old(rows), item, Merged, NO_FIELDS.(pr := Some(pr)))
      ensures rows == if out.Written? then old(rows) + out.rows else old(rows)
    {
      out := MoveRows(rows, at, item, Merged, NO_FIELDS.(pr := Some(pr)));
      MoveIsRecorded(rows, at, item, Merged, NO_FIELDS.(pr := Some(pr)));
      if out.Written? {
        MergedExtends(rows, at, item, pr);
        Append(out.rows);
      }
    }

    /** A merge turn's reservation check: the renumbered kinds' reserve rows, or
        nothing written when it stalls. */
    method Renumber(item: Item, onMain: PerKind<set<nat>>, branch: Branch) returns (moves: Option<Moves>)
      requires Valid()
      modifies this
      ensures Valid() && moves == Confirmed(old(rows), item, onMain, branch)
      ensures rows == if moves.Some? then old(rows) + RenumberRows(item, moves.value) else old(rows)
    {
      moves := ConfirmReservations(rows, item, onMain, branch);
      if moves.Some? {
        RenumberExtends(rows, item, moves.value);
        Append(RenumberRows(item, moves.value));
      }
    }

    /** `next`: bookkeeping, survey and clarify asks, written together. What it
        launches is legal on the ledger it leaves. */
    method Next(w: World, wipCap: int, issues: map<Item, IssueState>, delivered: set<Item>) returns (launch: seq<Offer>)
      requires Valid() && LandedRead(rows, w) && StandingRead(rows, w)
      modifies this
      ensures Valid()
      ensures var out := Advance(old(rows), w, wipCap, issues, delivered);
        rows == old(rows) + out.written && launch == out.launch
      ensures forall offer, fields: Fields :: offer in launch && fields.verdict.None? ==>
        Legal(ViewOf(rows, offer.item), offer.ready.Target(), fields)
      ensures forall item :: Offer(item, MergeTurn) in launch && ViewOf(rows, item).State() == Ship ==>
        && FactsOf(w.facts, item).gateBlobs.Some?
        && MergeAllowed(rows, item, FactsOf(w.facts, item).gateBlobs.value, w.policy)
      ensures forall offer :: offer in launch ==> LaunchDue(old(rows), rows, w, offer)
    {
      var out := Advance(rows, w, wipCap, issues, delivered);
      AdvanceExtends(rows, w, wipCap, issues, delivered);
      launch := out.launch;
      forall offer, fields: Fields | offer in launch && fields.verdict.None?
        ensures Legal(ViewOf(rows + out.written, offer.item), offer.ready.Target(), fields)
      {
        AdvanceLaunchIsLegal(rows, w, wipCap, issues, delivered, offer, fields);
      }
      forall item: Item | Offer(item, MergeTurn) in launch && ViewOf(rows + out.written, item).State() == Ship
        ensures FactsOf(w.facts, item).gateBlobs.Some?
        ensures MergeAllowed(rows + out.written, item, FactsOf(w.facts, item).gateBlobs.value, w.policy)
      {
        AdvanceMergeIsAllowed(rows, w, wipCap, issues, delivered, item);
      }
      forall offer | offer in launch
        ensures LaunchDue(rows, rows + out.written, w, offer)
      {
        var entry := AdvanceLaunchIsDue(rows, w, wipCap, issues, delivered, offer);
      }
      Append(out.written);
    }

    /** `close`: the close row and the closing merge ask. */
    method Close()
      requires Valid()
      modifies this
      ensures Valid()
      ensures rows == old(rows)
        + [CloseRow, AskRow(Ask(None, AskCount(old(rows)) + 1, MergeAsk, [Merge, Words("hold")], Merge, [], map[]))]
    {
      InitSnoc(rows, CloseRow);
      var asked := AskRow(NewAsk(rows + [CloseRow], None, MergeAsk, [Merge, Words("hold")], Merge, [], map[]));
      ExtendsTwo(rows, CloseRow, asked);
      Append([CloseRow, asked]);
    }
  }
}
