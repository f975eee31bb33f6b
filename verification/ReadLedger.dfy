/** conductor.view: the ledger read in one pass, with answers kept by their
    ledger position and rows grouped by item, proved equal to the direct
    definitions of the `View` module. */
module ReadLedger {
  import opened Rows
  import opened View

  /** An answer and the position it stands at. */
  datatype Placed = Placed(position: nat, choice: Choice)

  /** One item's rows so far; `position` is where its last state row stands. */
  datatype Group = Group(position: int, states: seq<Move>, runs: seq<Run>, asks: seq<Ask>, reserves: seq<Reservation>)

  const EMPTY := Group(-1, [], [], [], [])

  function GroupOf(grouped: map<Item, Group>, item: Item): Group {
    if item in grouped then grouped[item] else EMPTY
  }

  // ---- what the pass keeps

  ghost predicate AnsweredBy(rows: Ledger, answered: map<nat, Placed>) {
    && (forall id :: id in answered ==>
          var p := answered[id].position;
          && p < |rows| && rows[p].AnswerRow? && rows[p].answer.ask == id
          && rows[p].answer.choice == answered[id].choice
          && forall q :: p < q < |rows| && rows[q].AnswerRow? ==> rows[q].answer.ask != id)
    && (forall q :: 0 <= q < |rows| && rows[q].AnswerRow? ==> rows[q].answer.ask in answered)
  }

  predicate IsOwnMove(r: Row, item: Item) {
    r.StateRow? && r.move.item == item
  }

  ghost predicate GroupKept(rows: Ledger, item: Item, g: Group) {
    && g.states == StatesOf(rows, item) && g.runs == RunsOf(rows, item)
    && g.asks == AsksOf(rows, item) && g.reserves == ReservesOf(rows, item)
    && -1 <= g.position < |rows|
    && (g.position >= 0 ==> IsOwnMove(rows[g.position], item))
    && (forall q :: g.position < q < |rows| ==> !IsOwnMove(rows[q], item))
  }

  lemma AnsweredStep(rows: Ledger, r: Row, answered: map<nat, Placed>)
    requires AnsweredBy(rows, answered)
    ensures AnsweredBy(
      rows + [r], if r.AnswerRow? then answered[r.answer.ask := Placed(|rows|, r.answer.choice)] else answered)
  {
    var rows' := rows + [r];
    assert forall q :: 0 <= q < |rows| ==> rows'[q] == rows[q];
  }

  function Regroup(g: Group, r: Row, position: nat): Group {
    match r
    case StateRow(m) => g.(position := position, states := g.states + [m])
    case RunRow(run) => g.(runs := g.runs + [run])
    case AskRow(a) => g.(asks := g.asks + [a])
    case ReserveRow(v) => g.(reserves := g.reserves + [v])
    case _ => g
  }

  lemma GroupStep(rows: Ledger, r: Row, item: Item, g: Group)
    requires GroupKept(rows, item, g)
    ensures GroupKept(rows + [r], item, if r.Grouped() == Some(item) then Regroup(g, r, |rows|) else g)
  {
    InitSnoc(rows, r);
    var rows' := rows + [r];
    assert forall q :: 0 <= q < |rows| ==> rows'[q] == rows[q];
  }

  // ---- reading an answer by position

  lemma {:induction false} AnswersArePlaced(rows: Ledger, answered: map<nat, Placed>)
    requires AnsweredBy(rows, answered)
    ensures Answers(rows) == map id | id in answered :: answered[id].choice
  {
    forall id
      ensures id in Answers(rows) <==> id in answered
      ensures id in answered ==> Answers(rows)[id] == answered[id].choice
    {
      if id in answered {
        AnswerAt(rows, id, answered[id].position);
      } else {
        NeverAnswered(rows, id);
      }
    }
  }

  lemma {:induction false} AnswerAt(rows: Ledger, id: nat, p: nat)
    requires p < |rows| && rows[p].AnswerRow? && rows[p].answer.ask == id
    requires forall q :: p < q < |rows| && rows[q].AnswerRow? ==> rows[q].answer.ask != id
    ensures id in Answers(rows) && Answers(rows)[id] == rows[p].answer.choice
  {
    if p < |rows| - 1 {
      AnswerAt(Init(rows), id, p);
    }
  }

  lemma {:induction false} NeverAnswered(rows: Ledger, id: nat)
    requires forall q :: 0 <= q < |rows| && rows[q].AnswerRow? ==> rows[q].answer.ask != id
    ensures id !in Answers(rows)
  {
    if rows != [] {
      NeverAnswered(Init(rows), id);
    }
  }

  /** The last answer to one of `ids` stands at `p`; -1 when there is none. */
  ghost predicate LastAnswerAt(rows: Ledger, ids: set<nat>, p: int) {
    && -1 <= p < |rows|
    && (p >= 0 ==> rows[p].AnswerRow? && rows[p].answer.ask in ids)
    && (forall q :: p < q < |rows| && rows[q].AnswerRow? ==> rows[q].answer.ask !in ids)
  }

  lemma {:induction false} LatestIsPlaced(rows: Ledger, ids: set<nat>, p: int)
    requires LastAnswerAt(rows, ids, p)
    ensures LatestAnswer(rows, ids) == if p >= 0 then Some(rows[p].answer.choice) else None
  {
    if rows != [] && p < |rows| - 1 {
      LatestIsPlaced(Init(rows), ids, p);
    }
  }

  lemma {:induction false} SinceMoveIsPlaced(rows: Ledger, item: Item, ids: set<nat>, p: int, position: int)
    requires LastAnswerAt(rows, ids, p)
    requires -1 <= position < |rows| && (position >= 0 ==> IsOwnMove(rows[position], item))
    requires forall q :: position < q < |rows| ==> !IsOwnMove(rows[q], item)
    ensures AnswerSinceMove(rows, item, ids) == if p > position then Some(rows[p].answer.choice) else None
  {
    if rows != [] && p < |rows| - 1 && position < |rows| - 1 {
      SinceMoveIsPlaced(Init(rows), item, ids, p, position);
    }
  }

  /** conductor._latest: the latest-placed answer to one of these asks of a kind,
      written after a position. */
  method Latest(answered: map<nat, Placed>, asks: seq<Ask>, kind: AskKind, after: int, ghost rows: Ledger)
    returns (found: Option<Choice>)
    requires AnsweredBy(rows, answered) && -1 <= after
    ensures exists p :: LastAnswerAt(rows, IdsOf(asks, kind), p)
                        && found == if p > after then Some(rows[p].answer.choice) else None
  {
    var best := -1;
    ghost var ids := IdsOf(asks, kind);
    found := None;
    var i := 0;
    while i < |asks|
      invariant 0 <= i <= |asks| && -1 <= best < |rows|
      invariant best >= 0 ==> best > after && rows[best].AnswerRow? && rows[best].answer.ask in ids
      invariant found == if best >= 0 then Some(rows[best].answer.choice) else None
      invariant forall j :: 0 <= j < i && asks[j].kind == kind && asks[j].id in answered ==>
        answered[asks[j].id].position <= best || answered[asks[j].id].position <= after
    {
      var a := asks[i];
      if a.kind == kind && a.id in answered && answered[a.id].position > after && answered[a.id].position > best {
        best := answered[a.id].position;
        found := Some(answered[a.id].choice);
        assert a in asks;
      }
      i := i + 1;
    }
    ghost var p := LastAnswerExists(rows, ids);
    if p >= 0 {
      ghost var id := rows[p].answer.ask;
      ghost var j :| 0 <= j < |asks| && asks[j].kind == kind && asks[j].id == id;
      assert answered[id].position == p;
    }
    assert best >= 0 ==> p == best;
  }

  lemma {:induction false} LastAnswerExists(rows: Ledger, ids: set<nat>) returns (p: int)
    ensures LastAnswerAt(rows, ids, p)
  {
    if rows == [] {
      p := -1;
    } else if Last(rows).AnswerRow? && Last(rows).answer.ask in ids {
      p := |rows| - 1;
    } else {
      p := LastAnswerExists(Init(rows), ids);
      assert forall q :: 0 <= q < |Init(rows)| ==> rows[q] == Init(rows)[q];
    }
  }

  /** conductor._item: one item's view from its grouped rows. */
  method ReadItem(item: Item, entry: Option<Entry>, g: Group, answered: map<nat, Placed>, ghost rows: Ledger)
    returns (v: ItemView)
    requires AnsweredBy(rows, answered) && GroupKept(rows, item, g)
    requires entry == FindEntry(Entries(rows), item)
    ensures v == ViewOf(rows, item)
  {
    var pending: Option<Ask> := None;
    var i := 0;
    AnswersArePlaced(rows, answered);
    while i < |g.asks|
      invariant 0 <= i <= |g.asks|
      invariant pending == FirstUnanswered(g.asks[..i], Answers(rows))
    {
      assert Init(g.asks[..i + 1]) == g.asks[..i];
      if pending.None? && g.asks[i].id !in answered {
        pending := Some(g.asks[i]);
      }
      i := i + 1;
    }
    assert g.asks[..i] == g.asks;
    var gate := Latest(answered, g.asks, GateAsk, -1, rows);
    ghost var p :| && LastAnswerAt(rows, IdsOf(g.asks, GateAsk), p)
                   && gate == if p > -1 then Some(rows[p].answer.choice) else None;
    LatestIsPlaced(rows, IdsOf(g.asks, GateAsk), p);
    var resumed: Option<Choice> := None;
    if g.states != [] && g.states[|g.states| - 1].to == Stalled {
      resumed := Latest(answered, g.asks, StallAsk, g.position, rows);
      ghost var q :| LastAnswerAt(rows, IdsOf(g.asks, StallAsk), q)
                     && resumed == if q > g.position then Some(rows[q].answer.choice) else None;
      SinceMoveIsPlaced(rows, item, IdsOf(g.asks, StallAsk), q, g.position);
    }
    v := ItemView(item, entry, g.states, g.runs, g.asks, g.reserves, pending, resumed, gate);
  }

  /** The oldest unanswered ask row of the ledger. */
  function NextAsk(rows: Ledger, given: map<nat, Choice>): Option<Ask> {
    if rows == [] then None
    else
      var earlier := NextAsk(Init(rows), given);
      if earlier.Some? then earlier
      else if Last(rows).AskRow? && Last(rows).ask.id !in given then Some(Last(rows).ask)
      else None
  }

  function PlannedItems(entries: seq<Entry>): set<Item> {
    set e | e in entries :: e.item
  }

  function GroupedItems(rows: Ledger): set<Item> {
    set r | r in rows && r.Grouped().Some? :: r.Grouped().value
  }

  /** What one pass over the rows keeps. */
  ghost predicate PassKept(rows: Ledger, answered: map<nat, Placed>, grouped: map<Item, Group>) {
    && AnsweredBy(rows, answered)
    && grouped.Keys == GroupedItems(rows)
    && forall item: Item :: GroupKept(rows, item, GroupOf(grouped, item))
  }

  function Place(answered: map<nat, Placed>, r: Row, position: nat): map<nat, Placed> {
    if r.AnswerRow? then answered[r.answer.ask := Placed(position, r.answer.choice)] else answered
  }

  function GroupUnder(grouped: map<Item, Group>, r: Row, position: nat): map<Item, Group> {
    match r.Grouped()
    case Some(item) => grouped[item := Regroup(GroupOf(grouped, item), r, position)]
    case None => grouped
  }

  lemma PassStep(rows: Ledger, r: Row, answered: map<nat, Placed>, grouped: map<Item, Group>)
    requires PassKept(rows, answered, grouped)
    ensures PassKept(rows + [r], Place(answered, r, |rows|), GroupUnder(grouped, r, |rows|))
  {
    AnsweredStep(rows, r, answered);
    forall item: Item
      ensures GroupKept(rows + [r], item, GroupOf(GroupUnder(grouped, r, |rows|), item))
    {
      GroupStep(rows, r, item, GroupOf(grouped, item));
    }
  }

  /** The single pass: the first plan row, the answers by position, the rows by item. */
  method GroupRows(rows: Ledger)
    returns (plan: Option<seq<Entry>>, answered: map<nat, Placed>, grouped: map<Item, Group>)
    ensures plan == PlanOf(rows) && PassKept(rows, answered, grouped)
  {
    plan, answered, grouped := None, map[], map[];
    var i := 0;
    while i < |rows|
      invariant 0 <= i <= |rows|
      invariant plan == PlanOf(rows[..i])
      invariant PassKept(rows[..i], answered, grouped)
    {
      var r := rows[i];
      assert rows[..i + 1] == rows[..i] + [r];
      InitSnoc(rows[..i], r);
      PassStep(rows[..i], r, answered, grouped);
      if r.PlanRow? && plan.None? {
        plan := Some(r.entries);
      }
      answered, grouped := Place(answered, r, i), GroupUnder(grouped, r, i);
      i := i + 1;
    }
    assert rows[..i] == rows;
  }

  method OldestUnanswered(rows: Ledger, answers: map<nat, Choice>) returns (next: Option<Ask>)
    ensures next == NextAsk(rows, answers)
  {
    next := None;
    var k := 0;
    while k < |rows|
      invariant 0 <= k <= |rows|
      invariant next == NextAsk(rows[..k], answers)
    {
      assert Init(rows[..k + 1]) == rows[..k];
      if next.None? && rows[k].AskRow? && rows[k].ask.id !in answers {
        next := Some(rows[k].ask);
      }
      k := k + 1;
    }
    assert rows[..k] == rows;
  }

  /** The whole view: one pass groups the rows and places the answers; then each
      planned or grouped item is read. It agrees with the direct definitions. */
  method ReadView(rows: Ledger)
    returns (plan: Option<seq<Entry>>, answers: map<nat, Choice>, next: Option<Ask>, items: map<Item, ItemView>)
    ensures plan == PlanOf(rows) && answers == Answers(rows) && next == NextAsk(rows, Answers(rows))
    ensures items.Keys == PlannedItems(Entries(rows)) + GroupedItems(rows)
    ensures forall item :: item in items ==> items[item] == ViewOf(rows, item)
  {
    var answered, grouped;
    plan, answered, grouped := GroupRows(rows);
    AnswersArePlaced(rows, answered);
    answers := map id | id in answered :: answered[id].choice;
    next := OldestUnanswered(rows, answers);
    var entries := if plan.Some? then plan.value else [];
    items := ReadItems(PlannedItems(entries) + grouped.Keys, entries, answered, grouped, rows);
  }

  /** Each of these items' views. */
  method ReadItems(which: set<Item>, entries: seq<Entry>, answered: map<nat, Placed>, grouped: map<Item, Group>,
                   ghost rows: Ledger)
    returns (items: map<Item, ItemView>)
    requires PassKept(rows, answered, grouped) && entries == Entries(rows)
    ensures items.Keys == which
    ensures forall item :: item in items ==> items[item] == ViewOf(rows, item)
  {
    items := map[];
    var todo := which;
    while todo != {}
      invariant todo <= which && items.Keys == which - todo
      invariant forall item :: item in items ==> items[item] == ViewOf(rows, item)
      decreases |todo|
    {
      var item :| item in todo;
      var v := ReadItem(item, FindEntry(entries, item), GroupOf(grouped, item), answered, rows);
      items := items[item := v];
      todo := todo - {item};
    }
  }
}
